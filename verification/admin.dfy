/** The live-orders board of the admin dashboard: the colour of each status, the
    optimistic status change that is rolled back when the server refuses it, the active
    orders counted on the tab, and the status columns. */
module OrderBoard {
  import opened Basics
  import opened Types

  const Orange := "bg-orange-100 text-orange-800 border-orange-300"
  const Yellow := "bg-yellow-100 text-yellow-800 border-yellow-300"
  const Blue := "bg-blue-100 text-blue-800 border-blue-300"
  const Purple := "bg-purple-100 text-purple-800 border-purple-300"
  const Green := "bg-green-100 text-green-800 border-green-300"
  const Red := "bg-red-100 text-red-800 border-red-300"

  /** `getStatusColor`: every status has a class, and only the error status falls through
      to red. */
  function StatusColor(s: OrderStatus): (r: string)
    ensures r in {Orange, Yellow, Blue, Purple, Green, Red}
    ensures r == Red <==> s == Failed
  {
    match s
    case AwaitingConfirmation => Orange
    case Pending => Yellow
    case Preparing => Blue
    case ReadyForPickup => Purple
    case Completed => Green
    case Failed => Red
  }

  /** Different statuses are never drawn in the same colour. */
  lemma StatusColorsDistinct(s: OrderStatus, t: OrderStatus)
    ensures StatusColor(s) == StatusColor(t) <==> s == t
  {
  }

  /** `ORDER_STATUSES`. */
  const Statuses: seq<OrderStatus> := [AwaitingConfirmation, Pending, Preparing, ReadyForPickup, Completed]

  /** `ORDER_STATUSES.filter(s => s !== '已完成')`: the columns of the board. */
  function Columns(statuses: seq<OrderStatus>): (r: seq<OrderStatus>)
    ensures forall s :: s in r <==> s in statuses && s != Completed
  {
    if statuses == [] then []
    else
      Columns(statuses[..|statuses| - 1]) +
      (if statuses[|statuses| - 1] != Completed then [statuses[|statuses| - 1]] else [])
  }

  /** The board shows one column for each status an order is still being worked on. */
  lemma BoardColumns()
    ensures Columns(Statuses) == [AwaitingConfirmation, Pending, Preparing, ReadyForPickup]
  {
    var s1 := [AwaitingConfirmation];
    var s2 := s1 + [Pending];
    var s3 := s2 + [Preparing];
    var s4 := s3 + [ReadyForPickup];
    assert s1[..0] == [] && s2[..1] == s1 && s3[..2] == s2 && s4[..3] == s3;
    assert (s4 + [Completed])[..4] == s4 && Statuses == s4 + [Completed];
    assert Columns(s1) == s1;
    assert Columns(s2) == s2;
    assert Columns(s3) == s3;
    assert Columns(s4) == s4;
  }

  /** `o.id === orderId ? { ...o, status } : o` over the whole list. */
  function WithStatus(orders: seq<Order>, id: string, status: OrderStatus): (r: seq<Order>)
    ensures |r| == |orders|
  {
    if orders == [] then []
    else
      var o := orders[|orders| - 1];
      WithStatus(orders[..|orders| - 1], id, status) + [if o.id == id then o.(status := status) else o]
  }

  /** The optimistic change touches only the status of the orders with that id; every other
      order, and every other field, stays as it was. */
  lemma {:induction false} WithStatusOrders(orders: seq<Order>, id: string, status: OrderStatus, i: int)
    requires 0 <= i < |orders|
    ensures WithStatus(orders, id, status)[i] ==
      if orders[i].id == id then orders[i].(status := status) else orders[i]
  {
    var n := |orders| - 1;
    if i < n {
      WithStatusOrders(orders[..n], id, status, i);
    }
  }

  /** Writing a status an order already has changes nothing. */
  lemma WithSameStatus(orders: seq<Order>, id: string, status: OrderStatus)
    requires forall o :: o in orders && o.id == id ==> o.status == status
    ensures WithStatus(orders, id, status) == orders
  {
    var r := WithStatus(orders, id, status);
    forall i | 0 <= i < |orders| ensures r[i] == orders[i] {
      WithStatusOrders(orders, id, status, i);
      assert orders[i] in orders;
    }
  }

  /** Still to be dealt with: neither 已完成 nor 錯誤. */
  predicate IsActive(s: OrderStatus)
  {
    s != Completed && s != Failed
  }

  /** `activeOrders`, the orders counted on the tab. */
  function ActiveOrders(orders: seq<Order>): (r: seq<Order>)
    ensures |r| <= |orders|
    ensures forall o :: o in r <==> o in orders && IsActive(o.status)
  {
    if orders == [] then []
    else
      var o := orders[|orders| - 1];
      ActiveOrders(orders[..|orders| - 1]) + (if IsActive(o.status) then [o] else [])
  }

  /** The orders listed in the column of `status` (the column then sorts them by time). */
  function ColumnOrders(orders: seq<Order>, status: OrderStatus): (r: seq<Order>)
    ensures forall o :: o in r <==> o in orders && o.status == status
  {
    if orders == [] then []
    else
      var o := orders[|orders| - 1];
      ColumnOrders(orders[..|orders| - 1], status) + (if o.status == status then [o] else [])
  }

  /** An order appears in the column of its own status and in no other, and it appears in
      some column exactly when it is active: completed and failed orders are on no column. */
  lemma OrderPlacement(orders: seq<Order>, o: Order, c: OrderStatus)
    requires o in orders
    ensures o in ColumnOrders(orders, c) <==> c == o.status
    ensures (exists s :: s in Columns(Statuses) && o in ColumnOrders(orders, s)) <==> IsActive(o.status)
  {
    BoardColumns();
    if IsActive(o.status) {
      assert o.status in Columns(Statuses);
      assert o in ColumnOrders(orders, o.status);
    }
  }

  /** The columns split the active orders: their lengths add up to the tab's count. */
  lemma {:induction false} ColumnsPartition(orders: seq<Order>)
    ensures |ColumnOrders(orders, AwaitingConfirmation)| + |ColumnOrders(orders, Pending)| +
      |ColumnOrders(orders, Preparing)| + |ColumnOrders(orders, ReadyForPickup)| ==
      |ActiveOrders(orders)|
  {
    if orders != [] {
      ColumnsPartition(orders[..|orders| - 1]);
    }
  }

  /** The board's order list. Alerts are the messages shown to the user. */
  class Board {
    var orders: seq<Order>
    var alerts: seq<string>

    constructor(orders: seq<Order>)
      ensures this.orders == orders && alerts == []
    {
      this.orders := orders;
      alerts := [];
    }

    /** `handleUpdateStatus`, with the server's answer arriving before anything else
        happens: the status is changed on the board at once; if the server then refuses
        (its message is `outcome`'s error) the saved list is put back and the failure is
        shown. */
    method UpdateStatus(orderId: string, status: OrderStatus, outcome: Result<(), string>)
      modifies this
      ensures outcome.Success? ==> orders == WithStatus(old(orders), orderId, status) && alerts == old(alerts)
      ensures outcome.Failure? ==>
        orders == old(orders) && alerts == old(alerts) + ["狀態更新失敗: " + outcome.error]
    {
      var saved := BeginUpdate(orderId, status);
      FinishUpdate(saved, outcome);
    }

    /** The click half of `handleUpdateStatus`: the list at click time is copied into
        `saved` and the status is changed on the board at once. */
    method BeginUpdate(orderId: string, status: OrderStatus) returns (saved: seq<Order>)
      modifies this
      ensures saved == old(orders)
      ensures orders == WithStatus(old(orders), orderId, status) && alerts == old(alerts)
    {
      saved := orders;
      orders := WithStatus(orders, orderId, status);
    }

    /** The half that runs once the server has answered: a refusal puts back the list
        copied at click time, whatever the board shows by then, and shows the failure. */
    method FinishUpdate(saved: seq<Order>, outcome: Result<(), string>)
      modifies this
      ensures outcome.Success? ==> orders == old(orders) && alerts == old(alerts)
      ensures outcome.Failure? ==>
        orders == saved && alerts == old(alerts) + ["狀態更新失敗: " + outcome.error]
    {
      if outcome.Failure? {
        orders := saved;
        alerts := alerts + ["狀態更新失敗: " + outcome.error];
      }
    }

    /** The number on the orders tab. */
    function ActiveCount(): (n: nat)
      reads this
      ensures n <= |orders|
    {
      |ActiveOrders(orders)|
    }
  }

  /** Two status clicks whose server calls overlap: the second is accepted, then the first
      is refused. The first click's rollback restores the list from before both clicks, so
      the accepted second change disappears from the board although the server keeps it. */
  method OverlappingClicksLoseUpdate(orders: seq<Order>, first: string, s1: OrderStatus,
                                     second: string, s2: OrderStatus, message: string)
    returns (board: Board)
    ensures board.orders == orders
    ensures WithStatus(orders, second, s2) != orders ==> board.orders != WithStatus(orders, second, s2)
    ensures board.alerts == ["狀態更新失敗: " + message]
  {
    board := new Board(orders);
    var saved1 := board.BeginUpdate(first, s1);
    var saved2 := board.BeginUpdate(second, s2);
    board.FinishUpdate(saved2, Success(()));
    board.FinishUpdate(saved1, Failure(message));
  }
}
