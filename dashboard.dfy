/**
 * The logic of the product dashboard: turning approved supplier products
 * into cards, inferring "pushed" from the platform's product titles, the
 * selection, the single push (payload, `pushing` marker, status patch) and
 * the bulk push.
 */
module Dashboard {
  import opened Wrappers
  import opened Seqs
  import Products
  import opened PushToShopify

  /** Whether a product is believed to exist on the platform. */
  datatype PushStatus = Pushed | NotPushed

  /** A product card of the dashboard. */
  datatype Card = Card(id: string, name: string, price: int, image: string, status: PushStatus, description: string)

  const Placeholder: string := "/placeholder.svg?height=200&width=200"
  const NoDescription: string := "No description available"
  const ShopDomain: string := "tests32123.myshopify.com"

  /** The card for a supplier product, before any sync with the platform. */
  function ToCard(row: Products.ProductRow): (c: Card)
    ensures c.id == row.id && c.name == row.title && c.price == row.price
    ensures row.images.Some? && |row.images.value| > 0 ==> c.image == row.images.value[0]
    ensures row.images.None? || row.images.value == [] ==> c.image == Placeholder
    ensures row.description.Some? && row.description.value != "" ==> c.description == row.description.value
    ensures row.description.None? || row.description.value == "" ==> c.description == NoDescription
    ensures c.status == NotPushed
  {
    Card(
      row.id,
      row.title,
      row.price,
      if row.images.Some? && |row.images.value| > 0 then row.images.value[0] else Placeholder,
      NotPushed,
      if row.description.Some? && row.description.value != "" then row.description.value else NoDescription)
  }

  /** The status a card gets from the platform's titles. */
  function SyncOne(titles: seq<string>): Card -> Card {
    (c: Card) => c.(status := if c.name in titles then Pushed else NotPushed)
  }

  /** After a successful sync a card is "pushed" exactly when its name is one of the platform's titles; nothing else changes. */
  lemma SyncSpec(cards: seq<Card>, titles: seq<string>)
    ensures var synced := Map(cards, SyncOne(titles));
      && |synced| == |cards|
      && (forall i :: 0 <= i < |cards| ==> (synced[i].status == Pushed <==> cards[i].name in titles))
      && (forall i :: 0 <= i < |cards| ==> synced[i] == cards[i].(status := synced[i].status))
  {
  }

  /** The cards `fetchProducts` shows: every approved product, in order; "pushed" only by a title match when the sync answered. */
  function LoadedCards(approved: seq<Products.ProductRow>, titles: Option<seq<string>>): (cards: seq<Card>)
    ensures |cards| == |approved|
    ensures forall i :: 0 <= i < |cards| ==> cards[i] == ToCard(approved[i]).(status := cards[i].status)
    ensures forall i :: 0 <= i < |cards| ==> cards[i].id == approved[i].id && cards[i].name == approved[i].title
    ensures forall i :: 0 <= i < |cards| ==> (cards[i].status == Pushed <==> titles.Some? && approved[i].title in titles.value)
  {
    var initial := Map(approved, ToCard);
    if titles.Some? then Map(initial, SyncOne(titles.value)) else initial
  }

  /** The filter test "is not `id`". */
  function Except(id: string): string -> bool {
    (x: string) => x != id
  }

  /** `toggleProductSelection`: remove the id if selected, otherwise append it. */
  function Toggle(selected: seq<string>, id: string): (r: seq<string>)
    ensures id !in selected ==> r == selected + [id]
  {
    if id in selected then Filter(selected, Except(id)) else selected + [id]
  }

  /** Toggling flips the id's membership and leaves every other id's. */
  lemma ToggleMembership(selected: seq<string>, id: string, x: string)
    ensures x in Toggle(selected, id) <==> if x == id then id !in selected else x in selected
  {
    FilterMembership(selected, Except(id), x);
  }

  /** Toggling twice restores every id's membership. */
  lemma ToggleTwice(selected: seq<string>, id: string, x: string)
    ensures x in Toggle(Toggle(selected, id), id) <==> x in selected
  {
    ToggleMembership(selected, id, x);
    ToggleMembership(Toggle(selected, id), id, x);
    ToggleMembership(selected, id, id);
  }

  /** A selection without duplicates stays without duplicates. */
  lemma ToggleKeepsNoDup(selected: seq<string>, id: string)
    requires NoDup(selected)
    ensures NoDup(Toggle(selected, id))
  {
    if id in selected {
      FilterNoDup(selected, Except(id));
    }
  }

  /** The filter test "not yet pushed". */
  function IsNotPushed(): Card -> bool {
    (c: Card) => c.status == NotPushed
  }

  /** The id of a card. */
  function IdOf(): Card -> string {
    (c: Card) => c.id
  }

  /** `selectAll`: the ids of the products not yet pushed, in product order. */
  function UnpushedIds(products: seq<Card>): (ids: seq<string>)
    ensures |ids| <= |products|
    ensures IsSubseq(ids, Map(products, IdOf()))
  {
    FilterIsSubseq(products, IsNotPushed());
    MapKeepsSubseq(Filter(products, IsNotPushed()), products, IdOf());
    Map(Filter(products, IsNotPushed()), IdOf())
  }

  /** The selection of `selectAll` holds exactly the ids of unpushed products and keeps their order. */
  lemma UnpushedIdsSpec(products: seq<Card>, x: string)
    ensures x in UnpushedIds(products) <==> exists c :: c in products && c.status == NotPushed && c.id == x
    ensures IsSubseq(UnpushedIds(products), Map(products, IdOf()))
  {
    var kept := Filter(products, IsNotPushed());
    if x in UnpushedIds(products) {
      var i :| 0 <= i < |kept| && UnpushedIds(products)[i] == x;
      FilterMembership(products, IsNotPushed(), kept[i]);
    }
    if exists c :: c in products && c.status == NotPushed && c.id == x {
      var c :| c in products && c.status == NotPushed && c.id == x;
      FilterMembership(products, IsNotPushed(), c);
      var i :| 0 <= i < |kept| && kept[i] == c;
      assert UnpushedIds(products)[i] == x;
    }
    FilterIsSubseq(products, IsNotPushed());
    MapKeepsSubseq(kept, products, IdOf());
  }

  /** Mapping both sides keeps the sub-list relation. */
  lemma {:induction false} MapKeepsSubseq<T, U>(a: seq<T>, b: seq<T>, f: T -> U)
    requires IsSubseq(a, b)
    ensures IsSubseq(Map(a, f), Map(b, f))
    decreases |b|
  {
    if a != [] && b != [] {
      assert Map(a, f)[1..] == Map(a[1..], f);
      assert Map(b, f)[1..] == Map(b[1..], f);
      if a[0] == b[0] && IsSubseq(a[1..], b[1..]) {
        MapKeepsSubseq(a[1..], b[1..], f);
      } else {
        MapKeepsSubseq(a, b[1..], f);
      }
    }
  }

  /** The status patch of a push: the products whose id is in `ids` become "pushed", the others stay. */
  function MarkPushed(products: seq<Card>, ids: seq<string>): (r: seq<Card>)
    ensures |r| == |products|
    ensures forall i :: 0 <= i < |r| && products[i].id in ids ==> r[i] == products[i].(status := Pushed)
    ensures forall i :: 0 <= i < |r| && products[i].id !in ids ==> r[i] == products[i]
  {
    Map(products, (c: Card) => if c.id in ids then c.(status := Pushed) else c)
  }

  /** Selecting all and bulk-pushing leaves every product "pushed". */
  lemma SelectAllThenBulkPush(products: seq<Card>)
    ensures forall c :: c in MarkPushed(products, UnpushedIds(products)) ==> c.status == Pushed
  {
    var r := MarkPushed(products, UnpushedIds(products));
    forall i | 0 <= i < |r| ensures r[i].status == Pushed {
      if products[i].status == NotPushed {
        UnpushedIdsSpec(products, products[i].id);
      }
    }
  }

  /** The payload `handlePushToShopify` sends for a card at a selling price. */
  function BuildPayload(product: Card, sellingPrice: string): (p: ProductInput)
    ensures p.title == Some(product.name)
    ensures p.bodyHtml == Some("<strong>" + product.description + "</strong>")
    ensures p.variants == VariantList([Variant(Some(sellingPrice))])
  {
    ProductInput(
      Some(product.name),
      Some("<strong>" + product.description + "</strong>"),
      Some("Your App"),
      Some("Widget"),
      VariantList([Variant(Some(sellingPrice))]))
  }

  /** The request the dashboard sends to the push endpoint. */
  function PushRequest(product: Card, sellingPrice: string): (r: Request)
    ensures r.JsonRequest? && r.body.shop == Some(ShopDomain)
    ensures r.body.product == Some(BuildPayload(product, sellingPrice))
    // The endpoint accepts the payload exactly when the product has a name (the price is never empty when sent).
    ensures sellingPrice != "" ==> (WellFormed(r) <==> product.name != "")
  {
    JsonRequest(PushBody(Some(BuildPayload(product, sellingPrice)), Some(ShopDomain)))
  }

  /**
   * End to end: a named product pushed with a stored token to a platform
   * that accepts it gets a 200 response, so the card is marked "pushed".
   */
  lemma PushSucceedsWithToken(product: Card, sellingPrice: string, token: string, status: int, data: UpstreamData)
    requires product.name != "" && sellingPrice != "" && token != "" && IsOk(status)
    ensures var o := Post(PushRequest(product, sellingPrice), Some(token), Replied(status, Some(data)));
      && o.call == Some(UpstreamCall(ProductsUrl(ShopDomain), token, BuildPayload(product, sellingPrice)))
      && o.response == Response(200, SuccessBody(data.product))
  {
  }

  /** A job started by `BeginPush`: the product and the request sent for it. */
  datatype PushJob = PushJob(productId: string, request: Request)

  /** The state of the product dashboard. */
  class DashboardHome {
    var products: seq<Card>
    var selected: seq<string>
    var pushing: seq<string>
    var loading: bool
    var modalOpen: bool
    var selectedProduct: Option<Card>
    var sellingPrice: string

    /** The dashboard as first rendered. */
    constructor ()
      ensures products == [] && selected == [] && pushing == [] && loading
      ensures !modalOpen && selectedProduct == None && sellingPrice == ""
    {
      products := [];
      selected := [];
      pushing := [];
      loading := true;
      modalOpen := false;
      selectedProduct := None;
      sellingPrice := "";
    }

    /**
     * `fetchProducts`, given the approved products and the platform's
     * titles (`None` when that request failed).
     */
    method FetchProducts(approved: seq<Products.ProductRow>, titles: Option<seq<string>>)
      modifies this`products, this`loading
      ensures products == LoadedCards(approved, titles)
      ensures !loading
    {
      products := LoadedCards(approved, titles);
      loading := false;
    }

    /** `toggleProductSelection`. */
    method ToggleProductSelection(id: string)
      modifies this`selected
      ensures selected == Toggle(old(selected), id)
      ensures id in selected <==> id !in old(selected)
    {
      ToggleMembership(selected, id, id);
      selected := Toggle(selected, id);
    }

    /** `selectAll`: the ids of all products not yet pushed. */
    method SelectAll()
      modifies this`selected
      ensures selected == UnpushedIds(products)
    {
      selected := UnpushedIds(products);
    }

    /** `clearSelection`. */
    method ClearSelection()
      modifies this`selected
      ensures selected == []
    {
      selected := [];
    }

    /** `openPushModal`, with the default selling price given as its text. */
    method OpenPushModal(product: Card, defaultPrice: string)
      modifies this`modalOpen, this`selectedProduct, this`sellingPrice
      ensures modalOpen && selectedProduct == Some(product) && sellingPrice == defaultPrice
    {
      selectedProduct := Some(product);
      sellingPrice := defaultPrice;
      modalOpen := true;
    }

    /** Editing the selling price in the dialog. */
    method SetSellingPrice(text: string)
      modifies this`sellingPrice
      ensures sellingPrice == text
    {
      sellingPrice := text;
    }

    /** `closeModal`. */
    method CloseModal()
      modifies this`modalOpen, this`selectedProduct, this`sellingPrice
      ensures !modalOpen && selectedProduct == None && sellingPrice == ""
    {
      modalOpen := false;
      selectedProduct := None;
      sellingPrice := "";
    }

    /**
     * The start of `handlePushToShopify`: nothing happens without a chosen
     * product and a selling price; otherwise the product is marked as being
     * pushed, the dialog closes and the request is built.
     */
    method BeginPush() returns (job: Option<PushJob>)
      modifies this`pushing, this`modalOpen, this`selectedProduct, this`sellingPrice
      ensures old(selectedProduct).None? || old(sellingPrice) == "" ==>
        && job == None
        && pushing == old(pushing) && modalOpen == old(modalOpen)
        && selectedProduct == old(selectedProduct) && sellingPrice == old(sellingPrice)
      ensures old(selectedProduct).Some? && old(sellingPrice) != "" ==>
        && job == Some(PushJob(old(selectedProduct).value.id, PushRequest(old(selectedProduct).value, old(sellingPrice))))
        && pushing == old(pushing) + [old(selectedProduct).value.id]
        && !modalOpen && selectedProduct == None && sellingPrice == ""
    {
      if selectedProduct.None? || sellingPrice == "" {
        job := None;
      } else {
        var product := selectedProduct.value;
        var price := sellingPrice;
        pushing := pushing + [product.id];
        CloseModal();
        job := Some(PushJob(product.id, PushRequest(product, price)));
      }
    }

    /**
     * The end of `handlePushToShopify`, once the endpoint has answered
     * (`None` when the request itself failed): an ok answer marks that
     * product "pushed"; in every case each occurrence of its id leaves
     * `pushing`.
     */
    method FinishPush(productId: string, reply: Option<Response>)
      modifies this`products, this`pushing
      ensures reply.Some? && IsOk(reply.value.status) ==> products == MarkPushed(old(products), [productId])
      ensures reply.None? || !IsOk(reply.value.status) ==> products == old(products)
      ensures pushing == Filter(old(pushing), Except(productId))
      ensures productId !in pushing
    {
      if reply.Some? && IsOk(reply.value.status) {
        products := MarkPushed(products, [productId]);
      }
      FilterMembership(pushing, Except(productId), productId);
      pushing := Filter(pushing, Except(productId));
    }

    /**
     * The start of `handleBulkPush`: an empty selection returns at once and
     * no batch starts; otherwise `pushing` becomes the selection, which is
     * the batch.
     */
    method BeginBulkPush() returns (batch: Option<seq<string>>)
      modifies this`pushing
      ensures old(selected) == [] ==> batch == None && pushing == old(pushing)
      ensures old(selected) != [] ==> batch == Some(old(selected)) && pushing == old(selected)
    {
      if selected == [] {
        batch := None;
      } else {
        pushing := selected;
        batch := Some(selected);
      }
    }

    /**
     * The end of `handleBulkPush`, after its fixed delay, for a batch
     * `BeginBulkPush` started (never empty): every product of the batch is
     * marked "pushed" with no platform call, the selection is cleared and
     * `pushing` is emptied.
     */
    method FinishBulkPush(batch: seq<string>)
      requires batch != []
      modifies this`products, this`selected, this`pushing
      ensures products == MarkPushed(old(products), batch)
      ensures selected == [] && pushing == []
    {
      products := MarkPushed(products, batch);
      selected := [];
      pushing := [];
    }
  }
}
