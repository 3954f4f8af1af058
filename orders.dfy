/**
 * The logic of the orders view: the status tab and free-text filter, the
 * per-status counts, the badge choice, the GraphQL-then-REST fallback of
 * the fetch and connection test, and the status update with its
 * "updating" marker.
 */
module Orders {
  import opened Wrappers
  import opened Seqs
  import opened Text

  /** The four fulfilment states an order can be in. */
  datatype OrderStatus = Pending | Fulfilled | Cancelled | Partial

  /** The string the view uses for a status (its tab value and select value). */
  function StatusName(s: OrderStatus): string {
    match s
    case Pending => "pending"
    case Fulfilled => "fulfilled"
    case Cancelled => "cancelled"
    case Partial => "partial"
  }

  /** An order as the view holds it (line items, addresses and the amount are not modelled). */
  datatype Order = Order(
    id: string,
    orderNumber: nat,
    name: string,
    customerName: string,
    customerEmail: string,
    status: OrderStatus,
    financialStatus: string,
    currency: string,
    date: string,
    tags: string,
    note: string)

  /**
   * The search test: the lower-cased term occurs in the lower-cased id, name,
   * customer name or customer email, or the term as typed occurs in the
   * decimal order number.
   */
  predicate MatchesSearch(o: Order, term: string)
    ensures term == "" ==> MatchesSearch(o, term)
  {
    var t := ToLower(term);
    || Contains(ToLower(o.id), t)
    || Contains(ToLower(o.name), t)
    || Contains(ToLower(o.customerName), t)
    || Contains(ToLower(o.customerEmail), t)
    || Contains(NatToString(o.orderNumber), term)
  }

  /** The status tab test: "all" keeps everything, any other tab keeps the orders whose status it names. */
  predicate PassesTab(o: Order, statusFilter: string) {
    statusFilter == "all" || StatusName(o.status) == statusFilter
  }

  /** The tab test as a function value, for `Filter`. */
  function TabTest(statusFilter: string): Order -> bool {
    (o: Order) => PassesTab(o, statusFilter)
  }

  /** The search test as a function value, for `Filter`. */
  function SearchTest(term: string): Order -> bool {
    (o: Order) => MatchesSearch(o, term)
  }

  /** The test "has status `s`" as a function value, for `Filter`. */
  function StatusTest(s: OrderStatus): Order -> bool {
    (o: Order) => o.status == s
  }

  /** The list the view shows for the current tab and search term. */
  function FilterOrders(orders: seq<Order>, statusFilter: string, term: string): (r: seq<Order>)
    ensures IsSubseq(r, orders)
    ensures forall o :: o in r ==> PassesTab(o, statusFilter)
  {
    var byStatus := if statusFilter != "all" then Filter(orders, TabTest(statusFilter)) else orders;
    FilterIsSubseq(orders, TabTest(statusFilter));
    var bySearch := if term != "" then Filter(byStatus, SearchTest(term)) else byStatus;
    FilterIsSubseq(byStatus, SearchTest(term));
    SubseqReflexive(orders);
    SubseqReflexive(byStatus);
    SubseqTransitive(bySearch, byStatus, orders);
    bySearch
  }

  /** An order is shown exactly when it is in the list, passes the tab and (for a non-empty term) the search. */
  lemma FilterOrdersMembership(orders: seq<Order>, statusFilter: string, term: string, o: Order)
    ensures o in FilterOrders(orders, statusFilter, term)
        <==> o in orders && PassesTab(o, statusFilter) && (term == "" || MatchesSearch(o, term))
  {
    var byStatus := if statusFilter != "all" then Filter(orders, TabTest(statusFilter)) else orders;
    FilterMembership(orders, TabTest(statusFilter), o);
    FilterMembership(byStatus, SearchTest(term), o);
  }

  /** The test of a status tab and a non-empty search together. */
  function TabAndSearchTest(statusFilter: string, term: string): Order -> bool {
    (o: Order) => PassesTab(o, statusFilter) && MatchesSearch(o, term)
  }

  /** A status tab with a search shows exactly the orders passing both tests, in their order: one filter, not two. */
  lemma TabThenSearchIsOneFilter(orders: seq<Order>, statusFilter: string, term: string)
    requires statusFilter != "all" && term != ""
    ensures FilterOrders(orders, statusFilter, term) == Filter(orders, TabAndSearchTest(statusFilter, term))
  {
    FilterFilter(orders, TabTest(statusFilter), SearchTest(term), TabAndSearchTest(statusFilter, term));
  }

  /** With the "all" tab and an empty search the view shows every order, in order. */
  lemma ShowAllIsIdentity(orders: seq<Order>)
    ensures FilterOrders(orders, "all", "") == orders
  {
  }

  /** The search ignores the case of the term. */
  lemma SearchIgnoresCase(o: Order, term: string)
    ensures MatchesSearch(o, term) <==> MatchesSearch(o, ToLower(term))
  {
    ToLowerIdempotent(term);
    var digits := NatToString(o.orderNumber);
    DigitsUnderLower(term);
    if Contains(digits, term) {
      ContainedInDigits(digits, term);
    }
    if Contains(digits, ToLower(term)) {
      ContainedInDigits(digits, ToLower(term));
    }
  }

  /** The empty term is found in every order, so skipping the search for it changes nothing. */
  lemma EmptyTermMatchesEverything(o: Order)
    ensures MatchesSearch(o, "")
  {
  }

  /** How many orders have status `s`. */
  function CountStatus(orders: seq<Order>, s: OrderStatus): nat {
    |Filter(orders, StatusTest(s))|
  }

  /** The numbers on the five tabs. */
  datatype StatusCounts = StatusCounts(all: nat, pending: nat, fulfilled: nat, cancelled: nat, partial: nat)

  /** The tab counts: "all" is the number of orders and the four status counts add up to it. */
  function GetStatusCounts(orders: seq<Order>): (c: StatusCounts)
    ensures c.all == |orders|
    ensures c.pending == CountStatus(orders, Pending) && c.fulfilled == CountStatus(orders, Fulfilled)
    ensures c.cancelled == CountStatus(orders, Cancelled) && c.partial == CountStatus(orders, Partial)
    ensures c.pending + c.fulfilled + c.cancelled + c.partial == c.all
  {
    CountsPartition(orders);
    StatusCounts(|orders|, CountStatus(orders, Pending), CountStatus(orders, Fulfilled),
                 CountStatus(orders, Cancelled), CountStatus(orders, Partial))
  }

  /** Every order has exactly one of the four statuses. */
  lemma {:induction false} CountsPartition(orders: seq<Order>)
    ensures CountStatus(orders, Pending) + CountStatus(orders, Fulfilled)
          + CountStatus(orders, Cancelled) + CountStatus(orders, Partial) == |orders|
  {
    if orders != [] {
      CountsPartition(orders[1..]);
    }
  }

  /** The count on a status tab is the length of the list that tab shows with an empty search. */
  lemma CountMatchesTab(orders: seq<Order>, s: OrderStatus)
    ensures CountStatus(orders, s) == |FilterOrders(orders, StatusName(s), "")|
  {
    forall o: Order ensures StatusTest(s)(o) == TabTest(StatusName(s))(o) {
      NamesDistinct(o.status, s);
    }
    FilterCongruent(orders, StatusTest(s), TabTest(StatusName(s)));
  }

  /** Different statuses have different names. */
  lemma NamesDistinct(a: OrderStatus, b: OrderStatus)
    ensures StatusName(a) == StatusName(b) ==> a == b
  {
  }

  /** The badge styles of the status column. */
  datatype BadgeVariant = Default | Secondary | Outline | Destructive

  /** The badge for a status string; any string that is not a known status gets the neutral style. */
  function StatusBadgeVariant(status: string): (v: BadgeVariant)
    ensures v == Default <==> status == "fulfilled"
    ensures v == Outline <==> status == "partial"
    ensures v == Destructive <==> status == "cancelled"
    ensures v == Secondary <==> status !in {"fulfilled", "partial", "cancelled"}
  {
    match status
    case "fulfilled" => Default
    case "pending" => Secondary
    case "partial" => Outline
    case "cancelled" => Destructive
    case _ => Secondary
  }

  /** Of the four statuses only "pending" shares its badge with unknown strings, and the badge tells the statuses apart. */
  lemma BadgeIdentifiesStatus(a: OrderStatus, b: OrderStatus)
    ensures StatusBadgeVariant(StatusName(a)) == Secondary <==> a == Pending
    ensures StatusBadgeVariant(StatusName(a)) == StatusBadgeVariant(StatusName(b)) ==> a == b
  {
  }

  /** The list after a confirmed update: the order with that id gets the new status, all others stay. */
  function PatchStatus(orders: seq<Order>, orderId: string, newStatus: OrderStatus): (r: seq<Order>)
    ensures |r| == |orders|
    ensures forall i :: 0 <= i < |r| && orders[i].id == orderId ==> r[i] == orders[i].(status := newStatus)
    ensures forall i :: 0 <= i < |r| && orders[i].id != orderId ==> r[i] == orders[i]
  {
    Map(orders, (o: Order) => if o.id == orderId then o.(status := newStatus) else o)
  }

  /** Applying the same update twice is applying it once. */
  lemma PatchStatusIdempotent(orders: seq<Order>, orderId: string, newStatus: OrderStatus)
    ensures PatchStatus(PatchStatus(orders, orderId, newStatus), orderId, newStatus)
         == PatchStatus(orders, orderId, newStatus)
  {
  }

  /** The two order endpoints, tried in this order. */
  datatype Endpoint = GraphQL | Rest

  /** A reply of one of the local order endpoints, with the fields of its JSON body the view reads. */
  datatype Reply = Reply(
    ok: bool,
    error: Option<string>,
    orders: Option<seq<Order>>,
    shopName: Option<string>,
    ordersTestCount: Option<nat>)

  /** `errorData.error || fallback`. */
  function ErrorText(reply: Reply, fallback: string): (m: string)
    ensures m != ""  || fallback == ""
    ensures reply.error.Some? && reply.error.value != "" ==> m == reply.error.value
    ensures !(reply.error.Some? && reply.error.value != "") ==> m == fallback
  {
    if reply.error.Some? && reply.error.value != "" then reply.error.value else fallback
  }

  /** What a finished connection test reports. */
  datatype ConnectionReport =
    | Connected(via: Endpoint, shopName: string, orderCount: nat)
    | ConnectionFailed(message: string)

  /** A toast of the status update. */
  datatype Notice = Success(message: string) | Failure(message: string)

  /** What a `fetch` gives: a reply, or a rejection (a network failure) with its message. */
  datatype Attempt = Answered(reply: Reply) | Rejected(message: string)

  /** The attempt answered with an ok status. */
  predicate Succeeded(a: Attempt) {
    a.Answered? && a.reply.ok
  }

  /** The endpoints tried: REST only after GraphQL answered with a status that is not ok; a rejection ends the handler. */
  function Tried(graphql: Attempt): (tried: seq<Endpoint>)
    ensures Rest in tried <==> graphql.Answered? && !graphql.reply.ok
    ensures 1 <= |tried| <= 2 && tried[0] == GraphQL
  {
    if graphql.Answered? && !graphql.reply.ok then [GraphQL, Rest] else [GraphQL]
  }

  /** The attempt of the endpoint tried last. */
  function AttemptOf(e: Endpoint, graphql: Attempt, rest: Attempt): Attempt {
    if e == GraphQL then graphql else rest
  }

  /** `data.orders?.length || data.ordersTest?.orderCount || 0`. */
  function OrderCount(reply: Reply): (n: nat)
    ensures reply.orders.Some? && |reply.orders.value| > 0 ==> n == |reply.orders.value|
    ensures !(reply.orders.Some? && |reply.orders.value| > 0) ==> n == reply.ordersTestCount.GetOr(0)
    ensures n == 0 ==> (reply.orders.None? || reply.orders.value == [])
  {
    if reply.orders.Some? && |reply.orders.value| > 0 then |reply.orders.value|
    else reply.ordersTestCount.GetOr(0)
  }

  /** `data.shop?.name || 'Unknown'`. */
  function ShopLabel(reply: Reply): (name: string)
    ensures name != ""
    ensures reply.shopName.Some? && reply.shopName.value != "" ==> name == reply.shopName.value
    ensures !(reply.shopName.Some? && reply.shopName.value != "") ==> name == "Unknown"
  {
    if reply.shopName.Some? && reply.shopName.value != "" then reply.shopName.value else "Unknown"
  }

  /** The state of the orders view. */
  class OrdersPage {
    var orders: seq<Order>
    var loading: bool
    var updating: set<string>
    var searchTerm: string
    var statusFilter: string

    /** The view as first rendered: no orders, loading, nothing being updated, the "all" tab, no search. */
    constructor ()
      ensures orders == [] && loading && updating == {}
      ensures searchTerm == "" && statusFilter == "all"
    {
      orders := [];
      loading := true;
      updating := {};
      searchTerm := "";
      statusFilter := "all";
    }

    /** The `filteredOrders` state, which an effect recomputes whenever its inputs change. */
    function FilteredOrders(): seq<Order>
      reads this
    {
      FilterOrders(orders, statusFilter, searchTerm)
    }

    /** Typing in the search box. */
    method SetSearchTerm(term: string)
      modifies this`searchTerm
      ensures searchTerm == term
      ensures FilteredOrders() == FilterOrders(orders, statusFilter, term)
    {
      searchTerm := term;
    }

    /** Choosing a status tab. */
    method SetStatusFilter(tab: string)
      modifies this`statusFilter
      ensures statusFilter == tab
      ensures forall o :: o in FilteredOrders() ==> PassesTab(o, tab)
    {
      statusFilter := tab;
    }

    /**
     * Fetching the orders: the GraphQL endpoint first, the REST endpoint only
     * when GraphQL answered with a status that is not ok. A rejected request
     * goes straight to the handler's `catch` and reports its message. On an
     * ok answer the orders are replaced by the reply's list (an absent list
     * reads as empty); otherwise the orders stay and the error of the
     * attempt made last is reported.
     */
    method FetchOrders(graphql: Attempt, rest: Attempt) returns (tried: seq<Endpoint>, error: Option<string>)
      modifies this`orders, this`loading
      ensures tried == Tried(graphql)
      ensures var last := AttemptOf(tried[|tried| - 1], graphql, rest);
        && (Succeeded(last) ==> orders == last.reply.orders.GetOr([]) && error == None)
        && (last.Rejected? ==> orders == old(orders) && error == Some(last.message))
        && (last.Answered? && !last.reply.ok ==>
              orders == old(orders) && error == Some(ErrorText(last.reply, "Failed to fetch orders")))
      ensures error.None? <==> Succeeded(graphql) || (graphql.Answered? && Succeeded(rest))
      ensures !loading
    {
      loading := true;
      var response := graphql;
      tried := [GraphQL];
      if response.Answered? && !response.reply.ok {
        response := rest;
        tried := tried + [Rest];
      }
      if response.Rejected? {
        error := Some(response.message);
      } else if !response.reply.ok {
        error := Some(ErrorText(response.reply, "Failed to fetch orders"));
      } else {
        orders := response.reply.orders.GetOr([]);
        error := None;
      }
      loading := false;
    }

    /**
     * The connection test: the same fallback over the two test endpoints; the
     * report names the endpoint that answered, or carries the rejection's
     * message or the error of the reply received last.
     */
    method TestConnection(graphql: Attempt, rest: Attempt) returns (tried: seq<Endpoint>, report: ConnectionReport)
      modifies this`loading
      ensures tried == Tried(graphql)
      ensures var last := AttemptOf(tried[|tried| - 1], graphql, rest);
        && (Succeeded(last) ==> report == Connected(tried[|tried| - 1], ShopLabel(last.reply), OrderCount(last.reply)))
        && (last.Rejected? ==> report == ConnectionFailed(last.message))
        && (last.Answered? && !last.reply.ok ==> report == ConnectionFailed(ErrorText(last.reply, "Connection test failed")))
      ensures report.Connected? <==> Succeeded(graphql) || (graphql.Answered? && Succeeded(rest))
      ensures !loading
    {
      loading := true;
      var response := graphql;
      var via := GraphQL;
      tried := [GraphQL];
      if response.Answered? && !response.reply.ok {
        response := rest;
        via := Rest;
        tried := tried + [Rest];
      }
      if response.Rejected? {
        report := ConnectionFailed(response.message);
      } else if !response.reply.ok {
        report := ConnectionFailed(ErrorText(response.reply, "Connection test failed"));
      } else {
        report := Connected(via, ShopLabel(response.reply), OrderCount(response.reply));
      }
      loading := false;
    }

    /** The status control of an order is enabled only while no update of that order is in flight. */
    predicate CanUpdate(orderId: string)
      reads this
    {
      orderId !in updating
    }

    /** The start of a status update: the order is marked as being updated, which disables its control. */
    method BeginStatusUpdate(orderId: string)
      requires CanUpdate(orderId)
      modifies this`updating
      ensures updating == old(updating) + {orderId}
      ensures orderId in updating && !CanUpdate(orderId)
    {
      updating := updating + {orderId};
    }

    /**
     * The end of a status update, once the PATCH reply is in: on an ok reply
     * the order with that id gets the new status; on any other reply the
     * orders stay as they were. In both cases the marker is cleared and no
     * other id's marker changes.
     */
    method FinishStatusUpdate(orderId: string, newStatus: OrderStatus, reply: Reply) returns (notice: Notice)
      requires newStatus != Partial
      modifies this`orders, this`updating
      ensures updating == old(updating) - {orderId}
      ensures reply.ok ==>
        && orders == PatchStatus(old(orders), orderId, newStatus)
        && notice == Success("Order #" + orderId + " status updated to " + StatusName(newStatus))
      ensures !reply.ok ==> orders == old(orders) && notice == Failure(ErrorText(reply, "Failed to update order"))
    {
      if !reply.ok {
        notice := Failure(ErrorText(reply, "Failed to update order"));
      } else {
        orders := PatchStatus(orders, orderId, newStatus);
        notice := Success("Order #" + orderId + " status updated to " + StatusName(newStatus));
      }
      updating := updating - {orderId};
    }
  }
}
