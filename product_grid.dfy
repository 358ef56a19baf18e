/** The product grid: one card per product, pictured by its first image, whose
    button links to a chat with the seller unless the listing is the viewer's own. */
module ProductGrid {
  import opened Common
  import opened Catalog
  import ConversationRoute
  import UploadRoute

  /** What a card shows: its picture, if any, and its button's link target and text. */
  datatype Card = Card(image: Option<string>, href: string, text: string)

  const ChatLinkPrefix := "/chat?product="

  /** `product.userId == userId`; with no session user no listing is one's own. */
  predicate OwnListing(p: Product, userId: Option<string>) {
    userId == Some(p.userId)
  }

  /** The card's picture: the first image, or none for a listing without images. */
  function CardImage(p: Product): (r: Option<string>)
    ensures r.None? <==> p.images == []
    ensures r.Some? ==> r.value == p.images[0]
  {
    if p.images == [] then None else Some(p.images[0])
  }

  function CardFor(p: Product, userId: Option<string>): Card {
    if OwnListing(p, userId) then Card(CardImage(p), "#", "Your Listing")
    else Card(CardImage(p), ChatLinkPrefix + p.id, "Contact Seller")
  }

  /** `products?.map(...)` with the picture guarded: one card per product, in order. */
  function Cards(products: seq<Product>, userId: Option<string>): (cards: seq<Card>)
    ensures |cards| == |products|
    ensures forall i :: 0 <= i < |products| ==> cards[i] == CardFor(products[i], userId)
  {
    seq(|products|, i requires 0 <= i < |products| => CardFor(products[i], userId))
  }

  /** The grid as written: `product.images[0].url` throws for a product without
      images, and the throw fails the render of the whole grid (None). */
  function CardsAsWritten(products: seq<Product>, userId: Option<string>): (r: Option<seq<Card>>)
    ensures r.None? <==> exists p :: p in products && p.images == []
  {
    if forall i :: 0 <= i < |products| ==> products[i].images != [] then Some(Cards(products, userId))
    else None
  }

  /** As written, one listing created without images, which the upload route accepts
      (`images || []`), makes the grid fail for every viewer it is shown to. */
  lemma ImagelessListingBreaksGrid(body: UploadRoute.Body, p: Product, before: seq<Product>,
                                   after: seq<Product>, userId: Option<string>)
    requires body.images.None? && |p.images| == |UploadRoute.ImagesOf(body)|
    ensures CardsAsWritten(before + [p] + after, userId).None?
  {
    assert p in before + [p] + after;
  }

  /** With the guarded picture every product gets its card, pictured by its first image
      exactly when it has one; where every product has an image the grid is the one
      the source renders. */
  lemma EveryListingHasACard(products: seq<Product>, userId: Option<string>)
    ensures |Cards(products, userId)| == |products|
    ensures forall i :: 0 <= i < |products| ==>
              && (Cards(products, userId)[i].image.Some? <==> products[i].images != [])
              && (products[i].images != [] ==> Cards(products, userId)[i].image == Some(products[i].images[0]))
    ensures (forall p :: p in products ==> p.images != []) ==>
              CardsAsWritten(products, userId) == Some(Cards(products, userId))
  {
  }

  /** `searchParams.get('product')` on the chat page, for the links the grid builds. */
  function ProductParam(href: string): (r: Option<string>)
    ensures r.Some? ==> href == ChatLinkPrefix + r.value
  {
    if StartsWith(href, ChatLinkPrefix) then Some(href[|ChatLinkPrefix|..]) else None
  }

  /** The button reads "Your Listing" exactly when it leads nowhere, and otherwise it
      opens the chat about exactly this product. */
  lemma CardLinks(p: Product, userId: Option<string>)
    ensures CardFor(p, userId).text == "Your Listing" <==> CardFor(p, userId).href == "#"
    ensures OwnListing(p, userId) <==> ProductParam(CardFor(p, userId).href).None?
    ensures !OwnListing(p, userId) ==> ProductParam(CardFor(p, userId).href) == Some(p.id)
  {
    var c := CardFor(p, userId);
    if !OwnListing(p, userId) {
      assert c.href[..|ChatLinkPrefix|] == ChatLinkPrefix;
      assert c.href[|ChatLinkPrefix|..] == p.id;
      assert |c.href| > 1;
    } else {
      assert !StartsWith(c.href, ChatLinkPrefix);
    }
  }

  /** Contacting a seller through a card never asks the conversation route for a
      conversation with oneself: the chat page posts the product's id and owner, and
      the owner is not the viewer. */
  lemma ContactIsNeverSelf(p: Product, userId: Option<string>, t: ConversationRoute.Table,
                           products: set<string>, users: set<string>, parsed: bool, fault: DbFault)
    requires !OwnListing(p, userId)
    ensures var r := ConversationRoute.Post(t, userId, ProductParam(CardFor(p, userId).href), Some(p.userId),
                                            products, users, parsed, fault);
            && ProductParam(CardFor(p, userId).href) == Some(p.id)
            && Some(p.userId) != userId
            && r.1 != ConversationRoute.SelfConversation
  {
    CardLinks(p, userId);
  }
}
