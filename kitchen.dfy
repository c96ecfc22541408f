/**
 * The kitchen's view of the orders (app/kitchen/router.py): the queue in
 * waiting order, the next order to cook, the two guarded transitions and
 * the daily counts.
 */
module Kitchen {
  import opened Wrappers
  import opened Domain
  import opened Query
  import opened Orders

  // ------------------------------------------------------------------ queue

  predicate SortedByCreation(s: seq<(int, Order)>) {
    forall i, j :: 0 <= i < j < |s| ==> s[i].1.createdAt <= s[j].1.createdAt
  }

  /** An order no later than the head of a sorted queue may go in front of it. */
  lemma ConsSorted(x: (int, Order), s: seq<(int, Order)>)
    requires SortedByCreation(s)
    requires s != [] ==> x.1.createdAt <= s[0].1.createdAt
    ensures SortedByCreation([x] + s)
  {
    var r := [x] + s;
    forall i, j | 0 <= i < j < |r|
      ensures r[i].1.createdAt <= r[j].1.createdAt
    {
      if i > 0 {
        assert r[i] == s[i - 1] && r[j] == s[j - 1];
      } else {
        assert r[j] == s[j - 1];
      }
    }
  }

  /** Places `x` after every leading element of `s` created no later than it. */
  function InsertByCreation(x: (int, Order), s: seq<(int, Order)>): (r: seq<(int, Order)>)
    ensures multiset(r) == multiset(s) + multiset{x}
    ensures |r| == |s| + 1
    decreases |s|
  {
    if s == [] then [x]
    else if x.1.createdAt < s[0].1.createdAt then [x] + s
    else
      assert s == [s[0]] + s[1..];
      [s[0]] + InsertByCreation(x, s[1..])
  }

  /** Inserting into a sorted queue keeps it sorted. */
  lemma {:induction false} InsertKeepsSorted(x: (int, Order), s: seq<(int, Order)>)
    requires SortedByCreation(s)
    ensures SortedByCreation(InsertByCreation(x, s))
    ensures InsertByCreation(x, s)[0] == x || (s != [] && InsertByCreation(x, s)[0] == s[0])
    decreases |s|
  {
    if s == [] {
    } else if x.1.createdAt < s[0].1.createdAt {
      ConsSorted(x, s);
    } else {
      var rest := InsertByCreation(x, s[1..]);
      InsertKeepsSorted(x, s[1..]);
      assert s[0].1.createdAt <= rest[0].1.createdAt;
      ConsSorted(s[0], rest);
    }
  }

  /** `order_by(created_at.asc())`: a sorted rearrangement of the rows. */
  function SortByCreation(s: seq<(int, Order)>): (r: seq<(int, Order)>)
    ensures SortedByCreation(r)
    ensures multiset(r) == multiset(s)
    decreases |s|
  {
    if s == [] then []
    else
      assert s == s[..|s| - 1] + [s[|s| - 1]];
      var sorted := SortByCreation(s[..|s| - 1]);
      InsertKeepsSorted(s[|s| - 1], sorted);
      InsertByCreation(s[|s| - 1], sorted)
  }

  /** get_kitchen_queue: the pending and in-preparation orders, oldest first. */
  function Queue(rows: seq<(int, Order)>): (r: seq<(int, Order)>)
    ensures SortedByCreation(r)
    ensures multiset(r) == multiset(KitchenOrders(rows))
  {
    SortByCreation(KitchenOrders(rows))
  }

  /** The queue holds exactly the orders the kitchen still has to work on. */
  lemma QueueMembers(rows: seq<(int, Order)>)
    ensures forall x :: x in Queue(rows) <==> x in rows && InKitchen(x.1.status)
  {
    var k := KitchenOrders(rows);
    forall x
      ensures x in Queue(rows) <==> x in rows && InKitchen(x.1.status)
    {
      assert x in Queue(rows) <==> x in multiset(Queue(rows));
      assert x in k <==> x in multiset(k);
      if x in rows && InKitchen(x.1.status) {
        var i :| 0 <= i < |rows| && rows[i] == x;
        assert rows[i] in k;
      }
      if x in k {
        var i :| 0 <= i < |k| && k[i] == x;
      }
    }
  }

  // ------------------------------------------------------------ next order

  /**
   * get_next_order: the pending order created first, the lowest id among
   * equals; NotFound when nothing is pending.
   */
  function NextOrder(rows: seq<(int, Order)>): (r: Result<(int, Order)>)
    ensures r.Err? <==> forall i :: 0 <= i < |rows| ==> rows[i].1.status != Pending
    ensures r.Err? ==> r.error == NotFound
    ensures r.Ok? ==> r.value in rows && r.value.1.status == Pending
    ensures r.Ok? ==> forall i :: 0 <= i < |rows| && rows[i].1.status == Pending ==>
      r.value.1.createdAt <= rows[i].1.createdAt
  {
    if rows == [] then Err(NotFound)
    else
      var rest := NextOrder(rows[1..]);
      assert forall i :: 1 <= i < |rows| ==> rows[i] == rows[1..][i - 1];
      if rows[0].1.status != Pending then rest
      else if rest.Ok? && rest.value.1.createdAt < rows[0].1.createdAt then rest
      else Ok(rows[0])
  }

  /**
   * In any queue sorted by creation that holds exactly the kitchen's rows,
   * the first pending entry is as old as the order `NextOrder` hands out.
   */
  lemma FirstPendingIsNext(rows: seq<(int, Order)>, queue: seq<(int, Order)>, q: int)
    requires SortedByCreation(queue)
    requires forall x :: x in queue <==> x in rows && InKitchen(x.1.status)
    requires 0 <= q < |queue| && queue[q].1.status == Pending
    requires forall j :: 0 <= j < q ==> queue[j].1.status != Pending
    ensures NextOrder(rows).Ok?
    ensures NextOrder(rows).value.1.createdAt == queue[q].1.createdAt
  {
    var head := queue[q];
    assert head in queue;
    var i :| 0 <= i < |rows| && rows[i] == head;
    var n := NextOrder(rows).value;
    assert n.1.createdAt <= rows[i].1.createdAt;
    assert n in queue;
    var p :| 0 <= p < |queue| && queue[p] == n;
    assert q <= p;
  }

  /** The order `next` hands out is as old as the first pending order of the queue. */
  lemma NextIsHeadOfPendingQueue(rows: seq<(int, Order)>, q: int)
    requires 0 <= q < |Queue(rows)| && Queue(rows)[q].1.status == Pending
    requires forall j :: 0 <= j < q ==> Queue(rows)[j].1.status != Pending
    ensures NextOrder(rows).Ok?
    ensures NextOrder(rows).value.1.createdAt == Queue(rows)[q].1.createdAt
  {
    QueueMembers(rows);
    FirstPendingIsNext(rows, Queue(rows), q);
  }

  // ------------------------------------------------------------ transitions

  /** start_order_preparation: only a pending order may start. */
  function Start(o: Order): (r: Result<Order>)
    ensures r.Ok? <==> o.status == Pending
    ensures r.Err? ==> r.error == BadRequest
    ensures r.Ok? ==> r.value.status == InPreparation && r.value.(status := o.status) == o
  {
    if o.status != Pending then Err(BadRequest) else Ok(o.(status := InPreparation))
  }

  /** complete_order: only an order in preparation may complete. */
  function Complete(o: Order): (r: Result<Order>)
    ensures r.Ok? <==> o.status == InPreparation
    ensures r.Err? ==> r.error == BadRequest
    ensures r.Ok? ==> r.value.status == Ready && r.value.(status := o.status) == o
  {
    if o.status != InPreparation then Err(BadRequest) else Ok(o.(status := Ready))
  }

  /** Position of a status along the kitchen's path pending, in preparation, ready. */
  function Stage(s: OrderStatus): nat {
    match s
    case Pending => 0
    case InPreparation => 1
    case Ready => 2
    case Delivered => 3
    case Cancelled => 3
  }

  /** The guarded transitions only ever move an order one step forward. */
  lemma TransitionsMoveForward(o: Order)
    ensures Start(o).Ok? ==> Stage(Start(o).value.status) == Stage(o.status) + 1
    ensures Complete(o).Ok? ==> Stage(Complete(o).value.status) == Stage(o.status) + 1
  {
  }

  /** Starting an order twice fails the second time. */
  lemma StartTwiceFails(o: Order)
    requires Start(o).Ok?
    ensures Start(Start(o).value) == Err(BadRequest)
  {
  }

  /** A pending order cannot be completed without being started. */
  lemma CompleteBeforeStartFails(o: Order)
    requires o.status == Pending
    ensures Complete(o) == Err(BadRequest)
  {
  }

  /** Start then complete takes a pending order to ready and changes nothing else. */
  lemma StartThenComplete(o: Order)
    requires o.status == Pending
    ensures Start(o).Ok? && Complete(Start(o).value).Ok?
    ensures Complete(Start(o).value).value == o.(status := Ready)
  {
  }

  // ------------------------------------------------------------------ stats

  const SecondsPerDay: int := 24 * 60 * 60

  /** Midnight (UTC) of the day `now` falls in. */
  function TodayStart(now: int): (t: int)
    ensures t <= now < t + SecondsPerDay
    ensures t % SecondsPerDay == 0
  {
    now - now % SecondsPerDay
  }

  /** The counts get_kitchen_stats reports; the average preparation time is in minutes (it is 0 whenever stats succeed). */
  datatype KitchenStats = KitchenStats(
    totalOrders: nat,
    pendingOrders: nat,
    inPreparation: nat,
    completedOrders: nat,
    avgPreparationMinutes: int)

  predicate CreatedToday(x: (int, Order), now: int) {
    x.1.createdAt >= TodayStart(now)
  }

  predicate ReadyToday(x: (int, Order), now: int) {
    CreatedToday(x, now) && x.1.status == Ready
  }

  function TodayP(now: int): ((int, Order)) -> bool {
    x => CreatedToday(x, now)
  }

  function StatusTodayP(now: int, s: OrderStatus): ((int, Order)) -> bool {
    x => CreatedToday(x, now) && x.1.status == s
  }

  /**
   * get_kitchen_stats. The counts are over orders created since midnight.
   * The average reads an `updated_at` the order record does not have, so
   * the handler fails with a server error as soon as one order created
   * today is ready; otherwise the average is 0.
   */
  function Stats(rows: seq<(int, Order)>, now: int): (r: Result<KitchenStats>)
    ensures r.Err? <==> exists i :: 0 <= i < |rows| && ReadyToday(rows[i], now)
    ensures r.Err? ==> r.error == InternalError
    ensures r.Ok? ==> r.value.completedOrders == 0 && r.value.avgPreparationMinutes == 0
    ensures r.Ok? ==> r.value.totalOrders == |Filter(rows, TodayP(now))|
    ensures r.Ok? ==> r.value.pendingOrders == |Filter(rows, StatusTodayP(now, Pending))|
    ensures r.Ok? ==> r.value.inPreparation == |Filter(rows, StatusTodayP(now, InPreparation))|
  {
    var completed := Count(rows, StatusTodayP(now, Ready));
    CountPositive(rows, StatusTodayP(now, Ready));
    CountFilter(rows, TodayP(now));
    CountFilter(rows, StatusTodayP(now, Pending));
    CountFilter(rows, StatusTodayP(now, InPreparation));
    if completed > 0 then Err(InternalError)
    else
      Ok(KitchenStats(
        Count(rows, TodayP(now)),
        Count(rows, StatusTodayP(now, Pending)),
        Count(rows, StatusTodayP(now, InPreparation)),
        completed,
        0))
  }

  /** The per-status counts never exceed the day's total. */
  lemma StatsCountsBounded(rows: seq<(int, Order)>, now: int)
    requires Stats(rows, now).Ok?
    ensures var s := Stats(rows, now).value;
      s.pendingOrders + s.inPreparation + s.completedOrders <= s.totalOrders
  {
    var pending := StatusTodayP(now, Pending);
    var cooking := StatusTodayP(now, InPreparation);
    var either := (x: (int, Order)) => pending(x) || cooking(x);
    CountDisjoint(rows, pending, cooking, either);
    CountMono(rows, either, TodayP(now));
  }
}
