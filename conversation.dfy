/** The conversation endpoint: GET lists the caller's conversations, POST finds
    or creates the conversation of the caller with a product's owner. */
module ConversationRoute {
  import opened Common

  /** A row of the chatConversation table. */
  datatype Conversation = Conversation(id: nat, productId: string, senderId: string, receiverId: string)

  /** The table: its rows in insertion order and the next autoincrement id. */
  datatype Table = Table(rows: seq<Conversation>, nextId: nat)

  datatype GetReply = GetUnauthenticated | GetOk(conversations: seq<Conversation>)

  datatype PostReply =
    | Unauthenticated
    | MissingFields
    | SelfConversation
    | ServerError
    | ChatInfo(conversation: Conversation)

  /** The HTTP status each reply is sent with. */
  function PostStatus(r: PostReply): int {
    match r
    case Unauthenticated => 401
    case MissingFields => 400
    case SelfConversation => 400
    case ServerError => 500
    case ChatInfo(_) => 201
  }

  predicate IsParticipant(c: Conversation, user: string) {
    c.senderId == user || c.receiverId == user
  }

  predicate Matches(c: Conversation, productId: string, receiverId: string, senderId: string) {
    c.productId == productId && c.receiverId == receiverId && c.senderId == senderId
  }

  // ---------------------------------------------------------------------
  // Table invariants

  /** Ids grow with insertion order and stay below the counter. */
  ghost predicate IdsOrdered(t: Table) {
    && (forall i :: 0 <= i < |t.rows| ==> t.rows[i].id < t.nextId)
    && (forall i, j :: 0 <= i < j < |t.rows| ==> t.rows[i].id < t.rows[j].id)
  }

  /** Nobody is in a conversation with themself. */
  ghost predicate NoSelfConversation(rows: seq<Conversation>) {
    forall c :: c in rows ==> c.senderId != c.receiverId
  }

  /** At most one conversation per (product, receiver, sender). */
  ghost predicate UniqueTriples(rows: seq<Conversation>) {
    forall i, j :: 0 <= i < j < |rows| ==>
      !Matches(rows[j], rows[i].productId, rows[i].receiverId, rows[i].senderId)
  }

  ghost predicate TableValid(t: Table) {
    IdsOrdered(t) && NoSelfConversation(t.rows) && UniqueTriples(t.rows)
  }

  // ---------------------------------------------------------------------
  // Queries

  /** `findMany({ where: { OR: [{senderId}, {receiverId}] } })`. */
  function Participating(rows: seq<Conversation>, user: string): (r: seq<Conversation>)
    ensures forall c :: c in r <==> c in rows && IsParticipant(c, user)
    ensures |r| <= |rows|
  {
    if rows == [] then []
    else (if IsParticipant(rows[0], user) then [rows[0]] else []) + Participating(rows[1..], user)
  }

  /** `findFirst({ where: { productId, receiverId, senderId } })`. */
  function FindFirst(rows: seq<Conversation>, productId: string, receiverId: string, senderId: string)
    : (o: Option<Conversation>)
    ensures o.None? <==> forall c :: c in rows ==> !Matches(c, productId, receiverId, senderId)
    ensures o.Some? ==> o.value in rows && Matches(o.value, productId, receiverId, senderId)
  {
    if rows == [] then None
    else if Matches(rows[0], productId, receiverId, senderId) then Some(rows[0])
    else FindFirst(rows[1..], productId, receiverId, senderId)
  }

  /** Appending the only matching row makes it the row found. */
  lemma {:induction false} FindFirstAppended(rows: seq<Conversation>, c: Conversation,
                                             productId: string, receiverId: string, senderId: string)
    requires forall x :: x in rows ==> !Matches(x, productId, receiverId, senderId)
    requires Matches(c, productId, receiverId, senderId)
    ensures FindFirst(rows + [c], productId, receiverId, senderId) == Some(c)
  {
    if rows != [] {
      assert (rows + [c])[1..] == rows[1..] + [c];
      FindFirstAppended(rows[1..], c, productId, receiverId, senderId);
    }
  }

  // ---------------------------------------------------------------------
  // The handlers as functions of the table

  /** GET /api/conversation. */
  function Get(t: Table, caller: Option<string>): (r: GetReply)
    ensures r == GetUnauthenticated <==> !Truthy(caller)
    ensures r.GetOk? ==> forall c :: c in r.conversations <==> c in t.rows && IsParticipant(c, caller.value)
  {
    if !Truthy(caller) then GetUnauthenticated else GetOk(Participating(t.rows, caller.value))
  }

  /** The create fails on a foreign key: the product or a participant does not exist. */
  predicate CreateRefused(productId: string, receiverId: string, senderId: string,
                          products: set<string>, users: set<string>) {
    productId !in products || receiverId !in users || senderId !in users
  }

  /** The request got past the session check, its body parsed, both fields are
      truthy and the receiver is not the caller. */
  predicate Admitted(caller: Option<string>, productId: Option<string>, receiverId: Option<string>, parsed: bool) {
    Truthy(caller) && parsed && Truthy(productId) && Truthy(receiverId) && receiverId.value != caller.value
  }

  /** POST /api/conversation with body `{productId, receiverId}`. `parsed` is false
      when `req.json()` throws, and `fault` names the database call that throws, if
      any. A create also fails when the product or a participant does not exist.
      Every throw lands in the catch block, which answers 500. */
  function Post(t: Table, caller: Option<string>, productId: Option<string>, receiverId: Option<string>,
                products: set<string>, users: set<string>, parsed: bool, fault: DbFault): (r: (Table, PostReply))
    ensures r.1 == Unauthenticated <==> !Truthy(caller)
    ensures !Truthy(caller) ==> r == (t, Unauthenticated)
    ensures Truthy(caller) && !parsed ==> r == (t, ServerError)
    ensures Truthy(caller) && parsed && (!Truthy(productId) || !Truthy(receiverId)) ==> r == (t, MissingFields)
    ensures r.1 == SelfConversation <==>
              Truthy(caller) && parsed && Truthy(productId) && Truthy(receiverId) && receiverId == caller
    ensures Truthy(caller) && parsed && Truthy(productId) && receiverId == caller ==> r == (t, SelfConversation)
    ensures r.1.ChatInfo? ==>
              && Admitted(caller, productId, receiverId, parsed)
              && r.1.conversation in r.0.rows
              && Matches(r.1.conversation, productId.value, receiverId.value, caller.value)
    ensures r.0 == t || (r.1.ChatInfo? && r.0 == Table(t.rows + [r.1.conversation], t.nextId + 1)
                         && r.1.conversation.id == t.nextId)
    ensures r.1 == ServerError ==>
              Truthy(caller) && (!parsed || fault != NoFault ||
                                 CreateRefused(productId.value, receiverId.value, caller.value, products, users))
    ensures Admitted(caller, productId, receiverId, parsed) && fault == LookupFails ==> r == (t, ServerError)
    ensures Admitted(caller, productId, receiverId, parsed) && fault != LookupFails
            && FindFirst(t.rows, productId.value, receiverId.value, caller.value).None? ==>
              var c := Conversation(t.nextId, productId.value, caller.value, receiverId.value);
              && (r.1 == ServerError <==>
                    fault == CreateFails || CreateRefused(productId.value, receiverId.value, caller.value, products, users))
              && (r.1 != ServerError ==> r == (Table(t.rows + [c], t.nextId + 1), ChatInfo(c)))
  {
    if !Truthy(caller) then (t, Unauthenticated)
    else if !parsed then (t, ServerError)
    else if !Truthy(productId) || !Truthy(receiverId) then (t, MissingFields)
    else if receiverId.value == caller.value then (t, SelfConversation)
    else if fault == LookupFails then (t, ServerError)
    else match FindFirst(t.rows, productId.value, receiverId.value, caller.value)
      case Some(existing) => (t, ChatInfo(existing))
      case None =>
        if fault == CreateFails || CreateRefused(productId.value, receiverId.value, caller.value, products, users) then
          (t, ServerError)
        else
          var c := Conversation(t.nextId, productId.value, caller.value, receiverId.value);
          (Table(t.rows + [c], t.nextId + 1), ChatInfo(c))
  }

  // ---------------------------------------------------------------------
  // Properties of POST

  /** When a conversation for (product, receiver, caller) is already stored, POST
      returns that very row and leaves the table as it was. */
  lemma PostReturnsExisting(t: Table, caller: string, productId: string, receiverId: string,
                            products: set<string>, users: set<string>, fault: DbFault, c: Conversation)
    requires TableValid(t)
    requires caller != "" && productId != "" && receiverId != "" && receiverId != caller
    requires fault != LookupFails
    requires c in t.rows && Matches(c, productId, receiverId, caller)
    ensures Post(t, Some(caller), Some(productId), Some(receiverId), products, users, true, fault) == (t, ChatInfo(c))
  {
    var found := FindFirst(t.rows, productId, receiverId, caller);
    var i :| 0 <= i < |t.rows| && t.rows[i] == c;
    var j :| 0 <= j < |t.rows| && t.rows[j] == found.value;
    assert i == j;
  }

  /** POST keeps every table invariant: in particular no stored conversation ever has
      sender == receiver, and no triple is ever stored twice. */
  lemma PostPreservesValid(t: Table, caller: Option<string>, productId: Option<string>,
                           receiverId: Option<string>, products: set<string>, users: set<string>,
                           parsed: bool, fault: DbFault)
    requires TableValid(t)
    ensures TableValid(Post(t, caller, productId, receiverId, products, users, parsed, fault).0)
  {
    var r := Post(t, caller, productId, receiverId, products, users, parsed, fault);
    if r.0 != t {
      var c := r.1.conversation;
      var rows := r.0.rows;
      assert rows == t.rows + [c];
      assert forall x :: x in t.rows ==> !Matches(x, productId.value, receiverId.value, caller.value);
      forall i, j | 0 <= i < j < |rows|
        ensures !Matches(rows[j], rows[i].productId, rows[i].receiverId, rows[i].senderId)
      {
        if j == |rows| - 1 {
          assert rows[i] in t.rows;
        }
      }
    }
  }

  /** Two identical POSTs in a row: the second returns the same conversation and leaves
      the table as the first left it, so the table grows by at most one row. Once a
      conversation is returned, a repeat returns it again unless its lookup throws. */
  lemma PostIdempotent(t: Table, caller: Option<string>, productId: Option<string>,
                       receiverId: Option<string>, products: set<string>, users: set<string>,
                       parsed: bool, fault: DbFault, again: DbFault)
    requires TableValid(t)
    ensures var (t1, r1) := Post(t, caller, productId, receiverId, products, users, parsed, fault);
            var (t2, r2) := Post(t1, caller, productId, receiverId, products, users, parsed, fault);
            r2 == r1 && t2 == t1 && |t2.rows| <= |t.rows| + 1
    ensures var (t1, r1) := Post(t, caller, productId, receiverId, products, users, parsed, fault);
            r1.ChatInfo? && again != LookupFails ==>
              Post(t1, caller, productId, receiverId, products, users, true, again) == (t1, r1)
  {
    var (t1, r1) := Post(t, caller, productId, receiverId, products, users, parsed, fault);
    if t1 != t {
      var c := r1.conversation;
      FindFirstAppended(t.rows, c, productId.value, receiverId.value, caller.value);
    }
  }

  // ---------------------------------------------------------------------
  // The table as stored state

  class ConversationStore {
    var rows: seq<Conversation>
    var nextId: nat

    function Snapshot(): Table
      reads this
    {
      Table(rows, nextId)
    }

    ghost predicate Valid()
      reads this
    {
      TableValid(Snapshot())
    }

    /** An empty table; autoincrement ids start at 1. */
    constructor ()
      ensures Valid() && rows == [] && nextId == 1
    {
      rows := [];
      nextId := 1;
    }

    method HandleGet(caller: Option<string>) returns (reply: GetReply)
      ensures reply == Get(Snapshot(), caller)
      ensures reply.GetOk? ==> forall c :: c in reply.conversations <==> c in rows && IsParticipant(c, caller.value)
    {
      if !Truthy(caller) {
        return GetUnauthenticated;
      }
      reply := GetOk(Participating(rows, caller.value));
    }

    method HandlePost(caller: Option<string>, productId: Option<string>, receiverId: Option<string>,
                      products: set<string>, users: set<string>, parsed: bool, fault: DbFault)
      returns (reply: PostReply)
      requires Valid()
      modifies this
      ensures Valid()
      ensures (Snapshot(), reply) == Post(old(Snapshot()), caller, productId, receiverId, products, users, parsed, fault)
      ensures !reply.ChatInfo? ==> rows == old(rows) && nextId == old(nextId)
    {
      PostPreservesValid(Snapshot(), caller, productId, receiverId, products, users, parsed, fault);
      if !Truthy(caller) {
        return Unauthenticated;
      }
      if !parsed {
        return ServerError;
      }
      if !Truthy(productId) || !Truthy(receiverId) {
        return MissingFields;
      }
      if receiverId.value == caller.value {
        return SelfConversation;
      }
      if fault == LookupFails {
        return ServerError;
      }
      var existing := FindFirst(rows, productId.value, receiverId.value, caller.value);
      if existing.Some? {
        return ChatInfo(existing.value);
      }
      if fault == CreateFails || CreateRefused(productId.value, receiverId.value, caller.value, products, users) {
        return ServerError;
      }
      var c := Conversation(nextId, productId.value, caller.value, receiverId.value);
      rows := rows + [c];
      nextId := nextId + 1;
      reply := ChatInfo(c);
    }
  }
}
