/**
 * The admin order table (src/pages/admin/Orders.tsx): a list of orders
 * whose status the admin changes through per-status action buttons.
 * `updateOrderStatus` itself checks nothing; the status workflow lives only
 * in which buttons are offered for each status.
 */
module Orders {

  datatype Status = Pending | Processing | Shipped | Delivered | Cancelled

  /** An order row; `total` is in cents and takes part in no property. */
  datatype Order = Order(
    id: string,
    customerName: string,
    date: string,
    status: Status,
    total: int,
    items: int)

  /** `updateOrderStatus` on the list: every order with the id gets the new status, nothing else changes. */
  function WithStatus(orders: seq<Order>, orderId: string, newStatus: Status): (r: seq<Order>)
    ensures |r| == |orders|
    ensures forall i :: 0 <= i < |orders| ==>
      && (orders[i].id == orderId ==> r[i] == orders[i].(status := newStatus))
      && (orders[i].id != orderId ==> r[i] == orders[i])
  {
    seq(|orders|, i requires 0 <= i < |orders| =>
      if orders[i].id == orderId then orders[i].(status := newStatus) else orders[i])
  }

  /** An unknown order id leaves the list unchanged. */
  lemma UnknownOrderUnchanged(orders: seq<Order>, orderId: string, newStatus: Status)
    requires forall o :: o in orders ==> o.id != orderId
    ensures WithStatus(orders, orderId, newStatus) == orders
  {
    var r := WithStatus(orders, orderId, newStatus);
    assert forall i :: 0 <= i < |orders| ==> orders[i] in orders && r[i] == orders[i];
  }

  /** Applying the same update twice is applying it once. */
  lemma UpdateIdempotent(orders: seq<Order>, orderId: string, newStatus: Status)
    ensures var once := WithStatus(orders, orderId, newStatus);
      WithStatus(once, orderId, newStatus) == once
  {
    var once := WithStatus(orders, orderId, newStatus);
    var twice := WithStatus(once, orderId, newStatus);
    assert forall i :: 0 <= i < |orders| ==> once[i].id == orders[i].id && twice[i] == once[i];
  }

  /** The actions offered for an order, in button order: Process, Ship, Deliver, Cancel. */
  function OfferedNext(s: Status): seq<Status> {
    (if s == Pending then [Processing] else [])
    + (if s == Processing then [Shipped] else [])
    + (if s == Shipped then [Delivered] else [])
    + (if s == Pending || s == Processing then [Cancelled] else [])
  }

  /** The workflow table: pending to processing or cancelled, processing to shipped or cancelled, shipped to delivered. */
  function WorkflowTable(s: Status): set<Status> {
    match s
    case Pending => {Processing, Cancelled}
    case Processing => {Shipped, Cancelled}
    case Shipped => {Delivered}
    case Delivered => {}
    case Cancelled => {}
  }

  predicate Offered(from: Status, to: Status) {
    to in OfferedNext(from)
  }

  /** The conditional buttons offer exactly the transitions of the workflow table, each once. */
  lemma OfferedMatchesTable(s: Status)
    ensures forall t :: Offered(s, t) <==> t in WorkflowTable(s)
    ensures |OfferedNext(s)| == |WorkflowTable(s)|
  {
  }

  /** Delivered and cancelled orders are offered no action. */
  lemma TerminalStatuses()
    ensures OfferedNext(Delivered) == [] && OfferedNext(Cancelled) == []
  {
  }

  /** `updateOrderStatus` performs no legality check: a pending order can be written as delivered directly. */
  lemma UpdateSkipsWorkflow(o: Order)
    requires o.status == Pending
    ensures !Offered(o.status, Delivered)
    ensures WithStatus([o], o.id, Delivered) == [o.(status := Delivered)]
  {
  }

  /** A sequence of statuses in which each step follows an offered action. */
  predicate IsOfferedPath(p: seq<Status>) {
    forall i :: 0 < i < |p| ==> Offered(p[i - 1], p[i])
  }

  /** How far along the workflow a status is; every offered action increases it. */
  function Progress(s: Status): nat {
    match s
    case Pending => 0
    case Processing => 1
    case Shipped => 2
    case Delivered => 3
    case Cancelled => 3
  }

  /** Along an offered path, each step gains at least one unit of progress. */
  lemma {:induction false} PathGainsProgress(p: seq<Status>)
    requires |p| > 0 && IsOfferedPath(p)
    ensures Progress(p[|p| - 1]) >= Progress(p[0]) + |p| - 1
  {
    if |p| > 1 {
      var q := p[..|p| - 1];
      assert IsOfferedPath(q) by {
        assert forall i :: 0 <= i < |q| ==> q[i] == p[i];
      }
      PathGainsProgress(q);
      assert Offered(p[|p| - 2], p[|p| - 1]);
    }
  }

  /** Following offered actions, no path returns to pending and every path has at most three steps. */
  lemma OfferedPathsAreShort(p: seq<Status>)
    requires |p| > 0 && IsOfferedPath(p)
    ensures forall i :: 0 < i < |p| ==> p[i] != Pending
    ensures |p| <= 4
  {
    forall i | 0 < i < |p|
      ensures p[i] != Pending
    {
      assert Offered(p[i - 1], p[i]);
    }
    PathGainsProgress(p);
  }

  /** A status badge: background and text classes. */
  datatype Badge = Badge(bg: string, text: string)

  /** The status key used in the badge table. */
  function StatusKey(s: Status): string {
    match s
    case Pending => "pending"
    case Processing => "processing"
    case Shipped => "shipped"
    case Delivered => "delivered"
    case Cancelled => "cancelled"
  }

  const StatusColors: map<string, Badge> := map[
    "pending" := Badge("bg-yellow-100", "text-yellow-800"),
    "processing" := Badge("bg-blue-100", "text-blue-800"),
    "shipped" := Badge("bg-purple-100", "text-purple-800"),
    "delivered" := Badge("bg-green-100", "text-green-800"),
    "cancelled" := Badge("bg-red-100", "text-red-800")]

  /** The badge lookup of the status cell: total over the five statuses. */
  function BadgeFor(s: Status): (b: Badge)
    ensures StatusKey(s) in StatusColors && b == StatusColors[StatusKey(s)]
  {
    StatusColors[StatusKey(s)]
  }

  /** Every status has its own badge. */
  lemma BadgesDistinct(s: Status, t: Status)
    requires s != t
    ensures BadgeFor(s) != BadgeFor(t)
  {
  }

  /** The five sample orders the table starts with. */
  const SampleOrders := [
    Order("ORD-001", "John Doe", "2025-04-15", Delivered, 4597, 3),
    Order("ORD-002", "Jane Smith", "2025-04-20", Processing, 2998, 2),
    Order("ORD-003", "Robert Johnson", "2025-04-22", Shipped, 1999, 1),
    Order("ORD-004", "Emily Wilson", "2025-04-23", Pending, 7795, 5),
    Order("ORD-005", "Michael Brown", "2025-04-24", Cancelled, 1299, 1)]

  /** The orders page's table state. */
  class OrderTable {
    var orders: seq<Order>

    constructor ()
      ensures orders == SampleOrders
    {
      orders := SampleOrders;
    }

    /** `updateOrderStatus`: replace the table by the updated list. */
    method UpdateOrderStatus(orderId: string, newStatus: Status)
      modifies this
      ensures orders == WithStatus(old(orders), orderId, newStatus)
    {
      orders := WithStatus(orders, orderId, newStatus);
    }

    /** The action buttons shown for the order at `index`. */
    function ActionsFor(index: nat): (next: seq<Status>)
      reads this
      requires index < |orders|
      ensures forall t :: t in next <==> t in WorkflowTable(orders[index].status)
    {
      OfferedNext(orders[index].status)
    }
  }
}
