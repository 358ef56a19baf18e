/** GET /api/products/filter: approved products whose location matches any of the
    given city / state / state_district parameters, case-insensitively. */
module ProductFilter {
  import opened Common
  import opened Catalog

  datatype Field = CityField | StateField | StateDistrictField

  /** `{ <field>: { contains: needle, mode: insensitive } }`. */
  datatype Filter = Filter(field: Field, needle: string)

  datatype Reply = Unauthenticated | Products(products: seq<Product>)

  /** The order in which the handler pushes filters. */
  function Rank(f: Field): nat {
    match f
    case CityField => 0
    case StateField => 1
    case StateDistrictField => 2
  }

  function FieldValue(loc: StoredLocation, f: Field): Option<string> {
    match f
    case CityField => Some(loc.city)
    case StateField => Some(loc.state)
    case StateDistrictField => loc.stateDistrict
  }

  /** Case-insensitive substring test (ASCII letters). */
  predicate ContainsInsensitive(hay: string, needle: string) {
    Contains(Lower(hay), Lower(needle))
  }

  /** A null column satisfies no `contains` filter. */
  predicate Holds(loc: StoredLocation, f: Field, needle: string) {
    FieldValue(loc, f).Some? && ContainsInsensitive(FieldValue(loc, f).value, needle)
  }

  /** The filters the handler is asked for by its three query parameters. */
  predicate Requested(f: Filter, city: Option<string>, stateDistrict: Option<string>, state: Option<string>) {
    || (Truthy(city) && f == Filter(CityField, city.value))
    || (Truthy(state) && f == Filter(StateField, state.value))
    || (Truthy(stateDistrict) && f == Filter(StateDistrictField, stateDistrict.value))
  }

  /** The reference meaning of the query: approved, located, and matching at least one
      non-empty parameter on its own column. With no parameter nothing matches. */
  predicate Wanted(p: Product, city: Option<string>, stateDistrict: Option<string>, state: Option<string>) {
    && p.status == "allowed"
    && p.location.Some?
    && (|| (Truthy(city) && Holds(p.location.value, CityField, city.value))
        || (Truthy(state) && Holds(p.location.value, StateField, state.value))
        || (Truthy(stateDistrict) && Holds(p.location.value, StateDistrictField, stateDistrict.value)))
  }

  /** The conditional pushes that build `filters`. */
  method BuildFilters(city: Option<string>, stateDistrict: Option<string>, state: Option<string>)
    returns (filters: seq<Filter>)
    ensures |filters| <= 3
    ensures forall f :: f in filters <==> Requested(f, city, stateDistrict, state)
    ensures forall i, j :: 0 <= i < j < |filters| ==> Rank(filters[i].field) < Rank(filters[j].field)
    ensures forall f :: f in filters ==> f.needle != ""
  {
    filters := [];
    if Truthy(city) {
      filters := filters + [Filter(CityField, city.value)];
    }
    if Truthy(state) {
      filters := filters + [Filter(StateField, state.value)];
    }
    if Truthy(stateDistrict) {
      filters := filters + [Filter(StateDistrictField, stateDistrict.value)];
    }
  }

  /** `where: { status: "allowed", location: { OR: filters } }`; an empty OR matches nothing. */
  predicate Keeps(p: Product, filters: seq<Filter>) {
    && p.status == "allowed"
    && p.location.Some?
    && exists f :: f in filters && Holds(p.location.value, f.field, f.needle)
  }

  /** `findMany` with that condition, in table order. */
  function Select(products: seq<Product>, filters: seq<Filter>): (r: seq<Product>)
    ensures forall p :: p in r <==> p in products && Keeps(p, filters)
    ensures |r| <= |products|
  {
    if products == [] then []
    else (if Keeps(products[0], filters) then [products[0]] else []) + Select(products[1..], filters)
  }

  /** The handler. Without a session user it answers 401 and queries nothing. */
  method Get(caller: Option<string>, city: Option<string>, stateDistrict: Option<string>,
             state: Option<string>, products: seq<Product>) returns (reply: Reply)
    ensures reply == Unauthenticated <==> !Truthy(caller)
    ensures reply.Products? ==>
              forall p :: p in reply.products <==> p in products && Wanted(p, city, stateDistrict, state)
    ensures reply.Products? ==> forall p :: p in reply.products ==> p.status == "allowed"
  {
    if !Truthy(caller) {
      return Unauthenticated;
    }
    var filters := BuildFilters(city, stateDistrict, state);
    forall p | p in products
      ensures Keeps(p, filters) <==> Wanted(p, city, stateDistrict, state)
    {
      if Wanted(p, city, stateDistrict, state) {
        var loc := p.location.value;
        if Truthy(city) && Holds(loc, CityField, city.value) {
          assert Filter(CityField, city.value) in filters;
        } else if Truthy(state) && Holds(loc, StateField, state.value) {
          assert Filter(StateField, state.value) in filters;
        } else {
          assert Filter(StateDistrictField, stateDistrict.value) in filters;
        }
      }
    }
    reply := Products(Select(products, filters));
  }

  /** Matching ignores the case of both the column and the parameter. */
  lemma MatchIgnoresCase(hay: string, needle: string)
    ensures ContainsInsensitive(Upper(hay), needle) == ContainsInsensitive(hay, needle)
    ensures ContainsInsensitive(hay, Upper(needle)) == ContainsInsensitive(hay, needle)
  {
    LowerNormalises(hay);
    LowerNormalises(needle);
  }

  /** An empty `OR` matches nothing: with no non-empty parameter the reply is empty. */
  lemma {:induction false} EmptyOrMatchesNothing(products: seq<Product>)
    ensures Select(products, []) == []
  {
    if products != [] {
      EmptyOrMatchesNothing(products[1..]);
    }
  }
}
