/** One pass of `run_keeper` over the order table, as a run of the keeper protocol. */
module KeeperPass {
  import opened Keeper
  import Lists

  /** A list of due orders in id order, cut off only by the limit. */
  ghost predicate DueList(orders: Orders, due: seq<OrderId>, now: int, limit: nat) {
    && |due| <= limit && (forall i :: 0 <= i < |due| ==> Due(orders, due[i], now))
    && (forall i, j :: 0 <= i < j < |due| ==> due[i].n < due[j].n)
    && (forall id :: Due(orders, id, now) && id !in due ==>
          |due| == limit && forall i :: 0 <= i < |due| ==> due[i].n < id.n)
  }

  /** The same, read off the rows. */
  lemma DueListIs(orders: Orders, due: seq<OrderId>, now: int, limit: nat)
    requires DueList(orders, due, now, limit)
    ensures forall id :: id in due ==>
              id in orders && orders[id].buy && orders[id].status == Signed && orders[id].deadline > now
    ensures forall i, j :: 0 <= i < j < |due| ==> due[i].n < due[j].n
    ensures forall id :: id in orders && orders[id].buy && orders[id].status == Signed && orders[id].deadline > now && id !in due ==>
              |due| == limit && forall i :: 0 <= i < |due| ==> due[i].n < id.n
  {
    forall id | id in orders && orders[id].buy && orders[id].status == Signed && orders[id].deadline > now ensures Due(orders, id, now) {}
  }

  function FirstDue(orders: Orders, ids: seq<int>, now: int, limit: nat): (due: seq<OrderId>)
    ensures |due| <= limit
  {
    if |ids| == 0 then []
    else
      var before, id := FirstDue(orders, ids[..|ids| - 1], now, limit), OrderId(ids[|ids| - 1]);
      if |before| < limit && Due(orders, id, now) then before + [id] else before
  }

  /** Restricted to the ids scanned so far. */
  ghost predicate Scanned(orders: Orders, ids: seq<int>, due: seq<OrderId>, now: int, limit: nat) {
    && (forall i :: 0 <= i < |due| ==> Due(orders, due[i], now) && due[i].n in ids)
    && (forall i, j :: 0 <= i < j < |due| ==> due[i].n < due[j].n)
    && (forall m :: 0 <= m < |ids| && Due(orders, OrderId(ids[m]), now) && OrderId(ids[m]) !in due ==>
          |due| == limit && forall i :: 0 <= i < |due| ==> due[i].n < ids[m])
  }

  lemma {:induction false} FirstDueIsScanned(orders: Orders, ids: seq<int>, now: int, limit: nat)
    requires Lists.Ascending(ids)
    ensures Scanned(orders, ids, FirstDue(orders, ids, now, limit), now, limit)
  {
    hide *;
    if |ids| == 0 {
      NothingScanned(orders, ids, now, limit);
    } else {
      var before, n := ids[..|ids| - 1], ids[|ids| - 1];
      AscendingLast(ids);
      FirstDueIsScanned(orders, before, now, limit);
      ScannedStep(orders, before, FirstDue(orders, before, now, limit), n, now, limit);
      assert before + [n] == ids;
      FirstDueStep(orders, ids, now, limit);
    }
  }

  lemma NothingScanned(orders: Orders, ids: seq<int>, now: int, limit: nat)
    requires |ids| == 0
    ensures Scanned(orders, ids, FirstDue(orders, ids, now, limit), now, limit)
  {
  }

  lemma AscendingLast(ids: seq<int>)
    requires Lists.Ascending(ids) && |ids| > 0
    ensures var before := ids[..|ids| - 1];
            Lists.Ascending(before) && forall m :: 0 <= m < |before| ==> before[m] < ids[|ids| - 1]
  {
  }

  lemma FirstDueStep(orders: Orders, ids: seq<int>, now: int, limit: nat)
    requires |ids| > 0
    ensures var before, id := FirstDue(orders, ids[..|ids| - 1], now, limit), OrderId(ids[|ids| - 1]);
            FirstDue(orders, ids, now, limit) == if |before| < limit && Due(orders, id, now) then before + [id] else before
  {
    hide Due;
  }

  lemma ScannedStep(orders: Orders, ids: seq<int>, due: seq<OrderId>, n: int, now: int, limit: nat)
    requires Scanned(orders, ids, due, now, limit) && |due| <= limit && forall m :: 0 <= m < |ids| ==> ids[m] < n
    ensures var due' := if |due| < limit && Due(orders, OrderId(n), now) then due + [OrderId(n)] else due;
            Scanned(orders, ids + [n], due', now, limit)
  {
    hide Due;
    var more := ids + [n];
    assert more[|ids|] == n;
    forall m | 0 <= m < |ids| ensures more[m] == ids[m] && ids[m] in more {}
    forall i | 0 <= i < |due| ensures due[i].n < n {
      var m :| 0 <= m < |ids| && ids[m] == due[i].n;
    }
    if |due| < limit && Due(orders, OrderId(n), now) {
      ScannedTaken(orders, ids, due, n, now, limit);
    }
  }

  lemma ScannedTaken(orders: Orders, ids: seq<int>, due: seq<OrderId>, n: int, now: int, limit: nat)
    requires Scanned(orders, ids, due, now, limit) && |due| < limit && forall i :: 0 <= i < |due| ==> due[i].n < n
    requires Due(orders, OrderId(n), now)
    ensures Scanned(orders, ids + [n], due + [OrderId(n)], now, limit)
  {
    hide Due;
    var more, due' := ids + [n], due + [OrderId(n)];
    assert more[|ids|] == n && due'[|due|] == OrderId(n);
    forall i | 0 <= i < |due| ensures due'[i] == due[i] && due[i].n in more && due[i] in due' {
      var m :| 0 <= m < |ids| && ids[m] == due[i].n;
      assert more[m] == due[i].n;
    }
  }

  lemma FirstDueIsDueList(orders: Orders, ids: seq<int>, now: int, limit: nat)
    requires Lists.Ascending(ids) && forall n :: n in ids <==> n in set id | id in orders :: id.n
    ensures DueList(orders, FirstDue(orders, ids, now, limit), now, limit)
  {
    FirstDueIsScanned(orders, ids, now, limit);
    hide FirstDue;
    var due := FirstDue(orders, ids, now, limit);
    forall id | Due(orders, id, now) && id !in due ensures |due| == limit && forall i :: 0 <= i < |due| ==> due[i].n < id.n {
      assert id in orders;
      assert id.n in ids;
      var m :| 0 <= m < |ids| && ids[m] == id.n;
      assert OrderId(ids[m]) == id;
    }
  }

  class OrderStore {
    var orders: Orders

    constructor ()
      ensures orders == map[]
    {
      orders := map[];
    }

    /** `orders_due("buy", now, limit)`: the due orders with the smallest ids, in id order. */
    method OrdersDue(now: int, limit: nat) returns (due: seq<OrderId>)
      ensures DueList(orders, due, now, limit)
      ensures forall id :: id in due ==>
                id in orders && orders[id].buy && orders[id].status == Signed && orders[id].deadline > now
      ensures forall i, j :: 0 <= i < j < |due| ==> due[i].n < due[j].n
      ensures forall id :: id in orders && orders[id].buy && orders[id].status == Signed && orders[id].deadline > now && id !in due ==>
                |due| == limit && forall i :: 0 <= i < |due| ==> due[i].n < id.n
    {
      var ids := set id | id in orders :: id.n;
      var sorted := Lists.Sorted(ids);
      Lists.SortedIsAscending(ids);
      hide Lists.Sorted, Due, DueList;
      due := [];
      for i := 0 to |sorted|
        invariant due == FirstDue(orders, sorted[..i], now, limit)
      {
        assert sorted[..i + 1][..i] == sorted[..i];
        if |due| < limit && Due(orders, OrderId(sorted[i]), now) {
          due := due + [OrderId(sorted[i])];
        }
      }
      assert sorted[..|sorted|] == sorted;
      FirstDueIsDueList(orders, sorted, now, limit);
      DueListIs(orders, due, now, limit);
    }

    /** `claim_order`: 'signed' -> 'submitting' in one statement. */
    method ClaimOrder(id: OrderId) returns (claimed: bool)
      modifies this
      ensures claimed == Is(old(orders), id, Signed)
      ensures orders == if claimed then WithStatus(old(orders), id, Submitting) else old(orders)
    {
      claimed := Is(orders, id, Signed);
      if claimed {
        orders := orders[id := orders[id].(status := Submitting)];
      }
    }

    method SetStatus(id: OrderId, status: Status)
      modifies this
      ensures orders == WithStatus(old(orders), id, status)
    {
      if id in orders {
        orders := orders[id := orders[id].(status := status)];
      }
    }

    /** `cancel_preorder`, by the owner and only while armed, signed or submitting. */
    method Cancel(id: OrderId, owner: string) returns (cancelled: bool)
      modifies this
      ensures cancelled <==> && id in old(orders) && old(orders)[id].owner == owner
                             && old(orders)[id].status != Executed && old(orders)[id].status != Cancelled
      ensures orders == if cancelled then WithStatus(old(orders), id, Cancelled) else old(orders)
    {
      cancelled := Cancellable(orders, id, owner);
      if cancelled {
        orders := orders[id := orders[id].(status := Cancelled)];
      }
    }
  }

  // ----- one pass

  /** How the try block of one claimed order goes. */
  datatype Fate = Submits | SubmitRaises | MarkRaises | LoggerRaises

  function StepsFor(k: KeeperId, fate: Fate): seq<Step> {
    match fate
    case Submits => [SubmitOk(k), Mark(k), Finish(k)]
    case SubmitRaises => [SubmitFail(k)]
    case MarkRaises => [SubmitOk(k), MarkFail(k)]
    case LoggerRaises => [SubmitOk(k), Mark(k), LogFail(k)]
  }

  /** A keeper between two orders. */
  predicate Ready(w: World, k: KeeperId, queue: seq<OrderId>) {
    PhaseOf(w, k) == Idle && QueueOf(w, k) == queue
  }

  function AfterTry(orders: Orders, id: OrderId, fate: Fate): Orders {
    WithStatus(orders, id, if fate == Submits then Executed else Signed)
  }

  lemma {:induction false} RunConcat(w: World, a: seq<Step>, b: seq<Step>)
    ensures Run(w, a + b) == Run(Run(w, a), b)
  {
    hide Next, Enabled;
    if |b| == 0 {
      assert a + b == a;
    } else {
      assert (a + b)[..|a + b| - 1] == a + b[..|b| - 1];
      RunConcat(w, a, b[..|b| - 1]);
    }
  }

  lemma StatusTwice(orders: Orders, id: OrderId, a: Status, b: Status)
    ensures WithStatus(WithStatus(orders, id, a), id, b) == WithStatus(orders, id, b)
  {
  }

  /** Successful submissions of a fate. */
  function Successes(fate: Fate): nat {
    if fate == SubmitRaises then 0 else 1
  }

  ghost predicate Tried(w: World, k: KeeperId, id: OrderId, queue: seq<OrderId>, fate: Fate, w': World) {
    && Ready(w', k, queue) && w'.orders == AfterTry(w.orders, id, fate)
    && forall o :: Count(w'.landed, o) == Count(w.landed, o) + if o == id then Successes(fate) else 0
  }

  lemma TwoSteps(w: World, s: Step, t: Step)
    requires Enabled(w, s) && Enabled(Next(w, s), t)
    ensures Run(w, [s, t]) == Next(Next(w, s), t)
  {
    hide Run, Next, Enabled;
    RunSingle(w, s);
    RunMore(w, [s], t);
    assert [s] + [t] == [s, t];
  }

  lemma MarkBlock(w: World, k: KeeperId, id: OrderId, queue: seq<OrderId>)
    requires PhaseOf(w, k) == Claimed(id) && QueueOf(w, k) == queue
    ensures var w2 := Run(w, [SubmitOk(k), Mark(k)]);
            && PhaseOf(w2, k) == Marked(id) && QueueOf(w2, k) == queue && w2.orders == WithStatus(w.orders, id, Executed)
            && forall o :: Count(w2.landed, o) == Count(w.landed, o) + if o == id then 1 else 0
  {
    TwoSteps(w, SubmitOk(k), Mark(k));
    hide Run, WithStatus;
  }

  lemma TryRaised(w: World, k: KeeperId, id: OrderId, queue: seq<OrderId>)
    requires PhaseOf(w, k) == Claimed(id) && QueueOf(w, k) == queue
    ensures Tried(w, k, id, queue, SubmitRaises, Run(w, [SubmitFail(k)]))
  {
    RunSingle(w, SubmitFail(k));
    hide Run, WithStatus, Count, Bump;
  }

  lemma UnmarkedStep(w: World, k: KeeperId, id: OrderId, queue: seq<OrderId>)
    requires PhaseOf(w, k) == Landed(id) && QueueOf(w, k) == queue
    ensures Enabled(w, MarkFail(k))
    ensures var w' := Next(w, MarkFail(k));
            Ready(w', k, queue) && w'.orders == WithStatus(w.orders, id, Signed) && w'.landed == w.landed
  {
    hide WithStatus, Count, Bump;
  }

  lemma LandedStep(w: World, k: KeeperId, id: OrderId, queue: seq<OrderId>)
    requires PhaseOf(w, k) == Claimed(id) && QueueOf(w, k) == queue
    ensures Enabled(w, SubmitOk(k))
    ensures var w' := Next(w, SubmitOk(k));
            && PhaseOf(w', k) == Landed(id) && QueueOf(w', k) == queue && w'.orders == w.orders
            && forall o :: Count(w'.landed, o) == Count(w.landed, o) + if o == id then 1 else 0
  {
  }

  lemma TryUnmarked(w: World, k: KeeperId, id: OrderId, queue: seq<OrderId>)
    requires PhaseOf(w, k) == Claimed(id) && QueueOf(w, k) == queue
    ensures Tried(w, k, id, queue, MarkRaises, Run(w, [SubmitOk(k), MarkFail(k)]))
  {
    hide Run, Next, Enabled, WithStatus, Count, Ready;
    LandedStep(w, k, id, queue);
    UnmarkedStep(Next(w, SubmitOk(k)), k, id, queue);
    TwoSteps(w, SubmitOk(k), MarkFail(k));
  }

  lemma TryMarked(w: World, k: KeeperId, id: OrderId, queue: seq<OrderId>, fate: Fate, last: Step)
    requires PhaseOf(w, k) == Claimed(id) && QueueOf(w, k) == queue
    requires (fate == Submits && last == Finish(k)) || (fate == LoggerRaises && last == LogFail(k))
    ensures Tried(w, k, id, queue, fate, Run(w, [SubmitOk(k), Mark(k)] + [last]))
  {
    hide Run, Next, Enabled, WithStatus, Count, Ready;
    MarkBlock(w, k, id, queue);
    LastStep(Run(w, [SubmitOk(k), Mark(k)]), k, id, queue, fate, last);
    RunMore(w, [SubmitOk(k), Mark(k)], last);
    StatusTwice(w.orders, id, Executed, Signed);
  }

  /** The try block in the protocol: a submission that holds is executed, any
      exception puts the order back to 'signed'. */
  lemma TryBlock(w: World, k: KeeperId, id: OrderId, queue: seq<OrderId>, fate: Fate)
    requires PhaseOf(w, k) == Claimed(id) && QueueOf(w, k) == queue
    ensures Tried(w, k, id, queue, fate, Run(w, StepsFor(k, fate)))
  {
    hide Run, Tried;
    match fate
    case SubmitRaises => TryRaised(w, k, id, queue);
    case MarkRaises => TryUnmarked(w, k, id, queue);
    case _ =>
      var last := if fate == Submits then Finish(k) else LogFail(k);
      TryMarked(w, k, id, queue, fate, last);
      assert [SubmitOk(k), Mark(k)] + [last] == StepsFor(k, fate);
  }

  lemma LastStep(w: World, k: KeeperId, id: OrderId, queue: seq<OrderId>, fate: Fate, last: Step)
    requires PhaseOf(w, k) == Marked(id) && QueueOf(w, k) == queue
    requires last == if fate == Submits then Finish(k) else LogFail(k)
    ensures Enabled(w, last)
    ensures var w' := Next(w, last);
            && Ready(w', k, queue) && w'.landed == w.landed
            && w'.orders == if fate == Submits then w.orders else WithStatus(w.orders, id, Signed)
  {
    hide WithStatus, Count;
  }

  lemma ClaimInProtocol(w: World, k: KeeperId, id: OrderId, rest: seq<OrderId>)
    requires Ready(w, k, [id] + rest)
    ensures Run(w, [Claim(k)]).landed == w.landed
    ensures var w' := Run(w, [Claim(k)]);
            if Is(w.orders, id, Signed)
            then PhaseOf(w', k) == Claimed(id) && QueueOf(w', k) == rest && w'.orders == WithStatus(w.orders, id, Submitting)
            else Ready(w', k, rest) && w'.orders == w.orders
  {
    hide Run, WithStatus;
    RunSingle(w, Claim(k));
    assert ([id] + rest)[1..] == rest;
  }

  lemma PollInProtocol(w: World, k: KeeperId, due: seq<OrderId>, now: int)
    requires Ready(w, k, []) && forall i :: 0 <= i < |due| ==> Due(w.orders, due[i], now)
    ensures Ready(Run(w, [Poll(k, due, now)]), k, due) && Run(w, [Poll(k, due, now)]).orders == w.orders
    ensures Run(w, [Poll(k, due, now)]).landed == w.landed
  {
    hide Run, Due;
    RunSingle(w, Poll(k, due, now));
  }

  function FateOf(fates: map<OrderId, Fate>, id: OrderId): Fate {
    if id in fates then fates[id] else Submits
  }

  // ----- what a pass comes to

  /** The steps of the orders of a pass: each is claimed and tried. */
  function OrderSteps(due: seq<OrderId>, fates: map<OrderId, Fate>, k: KeeperId): seq<Step> {
    if |due| == 0 then []
    else OrderSteps(due[..|due| - 1], fates, k) + ([Claim(k)] + StepsFor(k, FateOf(fates, due[|due| - 1])))
  }

  function PassSteps(due: seq<OrderId>, fates: map<OrderId, Fate>, k: KeeperId, now: int): seq<Step> {
    [Poll(k, due, now)] + OrderSteps(due, fates, k)
  }

  /** The order table a pass leaves: of the due orders exactly those whose try block
      ended well are executed, the others are signed again; no other row moves. */
  function AfterPass(orders: Orders, due: seq<OrderId>, fates: map<OrderId, Fate>): Orders {
    map id | id in orders ::
      if id in due then orders[id].(status := if FateOf(fates, id) == Submits then Executed else Signed) else orders[id]
  }

  function Tally(due: seq<OrderId>, fates: map<OrderId, Fate>, which: set<Fate>): nat {
    if |due| == 0 then 0
    else Tally(due[..|due| - 1], fates, which) + if FateOf(fates, due[|due| - 1]) in which then 1 else 0
  }

  lemma AfterMore(orders: Orders, due: seq<OrderId>, id: OrderId, fates: map<OrderId, Fate>)
    requires Is(orders, id, Signed) && id !in due
    ensures Is(AfterPass(orders, due, fates), id, Signed)
    ensures AfterTry(AfterPass(orders, due, fates), id, FateOf(fates, id)) == AfterPass(orders, due + [id], fates)
  {
    hide FateOf;
    var now := AfterPass(orders, due, fates);
    var after, more := AfterTry(now, id, FateOf(fates, id)), AfterPass(orders, due + [id], fates);
    forall o | o in orders ensures after[o] == more[o] {
      assert o in due + [id] <==> o in due || o == id;
    }
    assert after.Keys == orders.Keys && more.Keys == orders.Keys;
    assert after == more;
  }

  /** `claim_order` followed by the try block. */
  lemma OrderInProtocol(w: World, k: KeeperId, id: OrderId, rest: seq<OrderId>, fate: Fate)
    requires Ready(w, k, [id] + rest) && Is(w.orders, id, Signed)
    ensures Tried(w, k, id, rest, fate, Run(w, [Claim(k)] + StepsFor(k, fate)))
  {
    hide Run, StepsFor, Is, Ready;
    ClaimInProtocol(w, k, id, rest);
    RunConcat(w, [Claim(k)], StepsFor(k, fate));
    var w1 := Run(w, [Claim(k)]);
    TryBlock(w1, k, id, rest, fate);
    AfterClaim(w.orders, id, fate);
  }

  lemma AfterClaim(orders: Orders, id: OrderId, fate: Fate)
    ensures AfterTry(WithStatus(orders, id, Submitting), id, fate) == AfterTry(orders, id, fate)
  {
  }

  predicate Distinct(due: seq<OrderId>) {
    forall i, j :: 0 <= i < j < |due| ==> due[i] != due[j]
  }

  /** After the orders of `past` the keeper is ready for `rest`, and each order of
      `past` has been submitted once more unless its submission raised. */
  ghost predicate Passed(w: World, k: KeeperId, past: seq<OrderId>, rest: seq<OrderId>, fates: map<OrderId, Fate>, w': World) {
    && Ready(w', k, rest) && w'.orders == AfterPass(w.orders, past, fates)
    && forall o :: Count(w'.landed, o) == Count(w.landed, o) + if o in past then Successes(FateOf(fates, o)) else 0
  }

  lemma PassedMore(w: World, k: KeeperId, past: seq<OrderId>, id: OrderId, rest: seq<OrderId>, fates: map<OrderId, Fate>,
                   w1: World, w2: World)
    requires Passed(w, k, past, [id] + rest, fates, w1) && Tried(w1, k, id, rest, FateOf(fates, id), w2)
    requires Is(w.orders, id, Signed) && id !in past
    ensures Passed(w, k, past + [id], rest, fates, w2)
  {
    hide AfterPass, AfterTry, FateOf, Count, Is, Ready;
    AfterMore(w.orders, past, id, fates);
    assert forall o :: o in past + [id] <==> o in past || o == id;
  }

  lemma {:induction false} OrdersInProtocol(w: World, k: KeeperId, past: seq<OrderId>, rest: seq<OrderId>, fates: map<OrderId, Fate>)
    requires Ready(w, k, past + rest) && Distinct(past) && forall i :: 0 <= i < |past| ==> Is(w.orders, past[i], Signed)
    ensures Passed(w, k, past, rest, fates, Run(w, OrderSteps(past, fates, k)))
  {
    if |past| == 0 {
      NothingPassed(w, k, past, rest, fates);
    } else {
      var before, id := past[..|past| - 1], past[|past| - 1];
      assert past + rest == before + ([id] + rest) && past == before + [id];
      assert id !in before && Is(w.orders, id, Signed);
      OrdersInProtocol(w, k, before, [id] + rest, fates);
      hide Run, StepsFor, Is, Ready, AfterPass, Tried;
      var w1 := Run(w, OrderSteps(before, fates, k));
      AfterMore(w.orders, before, id, fates);
      OrderInProtocol(w1, k, id, rest, FateOf(fates, id));
      RunConcat(w, OrderSteps(before, fates, k), [Claim(k)] + StepsFor(k, FateOf(fates, id)));
      PassedMore(w, k, before, id, rest, fates, w1, Run(w1, [Claim(k)] + StepsFor(k, FateOf(fates, id))));
    }
  }

  lemma NothingPassed(w: World, k: KeeperId, past: seq<OrderId>, rest: seq<OrderId>, fates: map<OrderId, Fate>)
    requires Ready(w, k, past + rest) && |past| == 0
    ensures Passed(w, k, past, rest, fates, Run(w, OrderSteps(past, fates, k)))
  {
    assert past + rest == rest;
    assert AfterPass(w.orders, past, fates) == w.orders;
    RunNone(w);
    hide Run;
    assert OrderSteps(past, fates, k) == [];
  }

  /** A pass with nobody else in between: the protocol run of its steps leaves the
      table of AfterPass and has sent exactly the due orders whose submission did not
      raise, each once. */
  lemma PassInProtocol(w: World, k: KeeperId, due: seq<OrderId>, now: int, fates: map<OrderId, Fate>)
    requires Ready(w, k, []) && Distinct(due) && forall i :: 0 <= i < |due| ==> Due(w.orders, due[i], now)
    ensures Passed(w, k, due, [], fates, Run(w, PassSteps(due, fates, k, now)))
  {
    hide Run, Ready, OrderSteps;
    PollInProtocol(w, k, due, now);
    var w1 := Run(w, [Poll(k, due, now)]);
    assert due + [] == due;
    OrdersInProtocol(w1, k, due, [], fates);
    RunConcat(w, [Poll(k, due, now)], OrderSteps(due, fates, k));
  }

  /** An order of a pass is due again exactly when its try block raised and its
      deadline lies ahead. */
  lemma DueAgainIff(orders: Orders, due: seq<OrderId>, now: int, fates: map<OrderId, Fate>, id: OrderId, later: int)
    requires id in due && Due(orders, id, now)
    ensures Due(AfterPass(orders, due, fates), id, later) <==> FateOf(fates, id) != Submits && orders[id].deadline > later
  {
  }

  /** The next pass, unless its limit cuts it off, serves an order of this one exactly
      when its try block raised and its deadline still lies ahead. */
  lemma RetriedIff(orders: Orders, due: seq<OrderId>, now: int, fates: map<OrderId, Fate>, again: seq<OrderId>, later: int,
                   limit: nat, id: OrderId)
    requires id in due && Due(orders, id, now)
    requires DueList(AfterPass(orders, due, fates), again, later, limit) && |again| < limit
    ensures id in again <==> FateOf(fates, id) != Submits && orders[id].deadline > later
  {
    DueAgainIff(orders, due, now, fates, id, later);
    hide AfterPass, FateOf, Due;
  }

  predicate Harmless(fate: Fate) {
    fate == Submits || fate == SubmitRaises
  }

  /** A pass is free of faults in the protocol's sense exactly when nothing raises
      after a submission; a submission that raises is no fault. */
  lemma {:induction false} FaultlessOrdersIff(due: seq<OrderId>, fates: map<OrderId, Fate>, k: KeeperId)
    ensures Faultless(OrderSteps(due, fates, k)) <==> forall i :: 0 <= i < |due| ==> Harmless(FateOf(fates, due[i]))
  {
    if |due| > 0 {
      var before, id := due[..|due| - 1], due[|due| - 1];
      FaultlessOrdersIff(before, fates, k);
      FaultlessFate(k, FateOf(fates, id));
      hide Faultless, FateOf, Harmless;
      FaultlessConcat(OrderSteps(before, fates, k), [Claim(k)] + StepsFor(k, FateOf(fates, id)));
      assert before + [id] == due;
    }
  }

  lemma FaultlessFate(k: KeeperId, fate: Fate)
    ensures Faultless([Claim(k)] + StepsFor(k, fate)) <==> Harmless(fate)
  {
    var steps := [Claim(k)] + StepsFor(k, fate);
    if fate == MarkRaises { assert Fault(steps[2]); }
    if fate == LoggerRaises { assert Fault(steps[3]); }
  }

  lemma FaultlessConcat(a: seq<Step>, b: seq<Step>)
    ensures Faultless(a + b) <==> Faultless(a) && Faultless(b)
  {
    hide Fault;
    if Faultless(a + b) {
      forall i | 0 <= i < |a| ensures !Fault(a[i]) { assert (a + b)[i] == a[i]; }
      forall i | 0 <= i < |b| ensures !Fault(b[i]) { assert (a + b)[|a| + i] == b[i]; }
    }
  }

  /** Passes of any keepers one after the other. */
  datatype PassOf = PassOf(k: KeeperId, due: seq<OrderId>, now: int, fates: map<OrderId, Fate>)

  function AllSteps(passes: seq<PassOf>): seq<Step> {
    if |passes| == 0 then []
    else
      var p := passes[|passes| - 1];
      AllSteps(passes[..|passes| - 1]) + PassSteps(p.due, p.fates, p.k, p.now)
  }

  ghost predicate AllHarmless(passes: seq<PassOf>) {
    forall i, j :: 0 <= i < |passes| && 0 <= j < |passes[i].due| ==> Harmless(FateOf(passes[i].fates, passes[i].due[j]))
  }

  lemma {:induction false} HarmlessIsFaultless(passes: seq<PassOf>)
    requires AllHarmless(passes)
    ensures Faultless(AllSteps(passes))
  {
    if |passes| > 0 {
      var p := passes[|passes| - 1];
      HarmlessIsFaultless(passes[..|passes| - 1]);
      assert passes[|passes| - 1] == p;
      FaultlessOrdersIff(p.due, p.fates, p.k);
      hide Harmless, FateOf, OrderSteps;
      FaultlessConcat([Poll(p.k, p.due, p.now)], OrderSteps(p.due, p.fates, p.k));
      FaultlessConcat(AllSteps(passes[..|passes| - 1]), PassSteps(p.due, p.fates, p.k, p.now));
    }
  }

  /** Passes that fail and try again: as long as only submissions raise, no order is
      sent twice, whatever happened before and however often it is retried. */
  lemma PassesSendOnce(steps: seq<Step>, passes: seq<PassOf>, id: OrderId)
    requires Faultless(steps) && AllHarmless(passes)
    ensures Count(Run(START, steps + AllSteps(passes)).landed, id) <= 1
  {
    HarmlessIsFaultless(passes);
    FaultlessConcat(steps, AllSteps(passes));
    AtMostOnce(steps + AllSteps(passes), id);
  }

  // ----- what is sent

  /** A call of `submit`: the order, the status of its row at that moment, and whether
      the call succeeds. */
  datatype Submission = Submission(id: OrderId, status: Status, landed: bool)

  /** The submissions of a pass: the due orders in order, each once, each while its row
      is 'submitting'. */
  function SubmissionsOf(due: seq<OrderId>, fates: map<OrderId, Fate>): seq<Submission> {
    seq(|due|, i requires 0 <= i < |due| => Submission(due[i], Submitting, FateOf(fates, due[i]) != SubmitRaises))
  }

  predicate IsSubmission(s: Step) {
    s.SubmitOk? || s.SubmitFail?
  }

  function Submitted(w: World, s: Step): seq<Submission> {
    if IsSubmission(s) && Enabled(w, s) && PhaseOf(w, s.k).id in w.orders
    then [Submission(PhaseOf(w, s.k).id, w.orders[PhaseOf(w, s.k).id].status, s.SubmitOk?)]
    else []
  }

  /** The submissions made in a run of the protocol. */
  function SubmissionsIn(w: World, steps: seq<Step>): seq<Submission> {
    if |steps| == 0 then []
    else SubmissionsIn(w, steps[..|steps| - 1]) + Submitted(Run(w, steps[..|steps| - 1]), steps[|steps| - 1])
  }

  lemma {:induction false} SubmissionsConcat(w: World, a: seq<Step>, b: seq<Step>)
    ensures SubmissionsIn(w, a + b) == SubmissionsIn(w, a) + SubmissionsIn(Run(w, a), b)
  {
    hide Submitted, Run;
    if |b| == 0 {
      assert a + b == a;
    } else {
      assert (a + b)[..|a + b| - 1] == a + b[..|b| - 1];
      SubmissionsConcat(w, a, b[..|b| - 1]);
      RunConcat(w, a, b[..|b| - 1]);
    }
  }

  lemma {:induction false} NoSubmissions(w: World, steps: seq<Step>)
    requires forall i :: 0 <= i < |steps| ==> !IsSubmission(steps[i])
    ensures SubmissionsIn(w, steps) == []
  {
    hide Run, Enabled;
    if |steps| > 0 { NoSubmissions(w, steps[..|steps| - 1]); }
  }

  lemma OneSubmission(w: World, s: Step)
    ensures SubmissionsIn(w, [s]) == Submitted(w, s)
  {
    hide Submitted;
    RunNone(w);
    assert [s][..0] == [];
  }

  /** The try block of a claimed order submits it and nothing else. */
  lemma TrySubmits(w: World, k: KeeperId, id: OrderId, fate: Fate)
    requires PhaseOf(w, k) == Claimed(id) && Is(w.orders, id, Submitting)
    ensures SubmissionsIn(w, StepsFor(k, fate)) == [Submission(id, Submitting, fate != SubmitRaises)]
  {
    hide Run, SubmissionsIn;
    var steps := StepsFor(k, fate);
    var first, rest := steps[0], steps[1..];
    assert [first] + rest == steps;
    OneSubmission(w, first);
    SubmissionsConcat(w, [first], rest);
    NoSubmissions(Run(w, [first]), rest);
  }

  lemma ClaimedIsSubmitting(orders: Orders, id: OrderId)
    requires Is(orders, id, Signed)
    ensures Is(WithStatus(orders, id, Submitting), id, Submitting)
  {
  }

  lemma OrderSubmits(w: World, k: KeeperId, id: OrderId, rest: seq<OrderId>, fate: Fate)
    requires Ready(w, k, [id] + rest) && Is(w.orders, id, Signed)
    ensures SubmissionsIn(w, [Claim(k)] + StepsFor(k, fate)) == [Submission(id, Submitting, fate != SubmitRaises)]
  {
    hide Run, StepsFor, Is, Ready, WithStatus, SubmissionsIn;
    ClaimInProtocol(w, k, id, rest);
    ClaimedIsSubmitting(w.orders, id);
    SubmissionsConcat(w, [Claim(k)], StepsFor(k, fate));
    NoSubmissions(w, [Claim(k)]);
    TrySubmits(Run(w, [Claim(k)]), k, id, fate);
  }

  lemma SubmissionsMore(due: seq<OrderId>, id: OrderId, fates: map<OrderId, Fate>)
    ensures SubmissionsOf(due + [id], fates) == SubmissionsOf(due, fates) + [Submission(id, Submitting, FateOf(fates, id) != SubmitRaises)]
  {
  }

  lemma {:induction false} OrdersSubmit(w: World, k: KeeperId, past: seq<OrderId>, rest: seq<OrderId>, fates: map<OrderId, Fate>)
    requires Ready(w, k, past + rest) && Distinct(past) && forall i :: 0 <= i < |past| ==> Is(w.orders, past[i], Signed)
    ensures SubmissionsIn(w, OrderSteps(past, fates, k)) == SubmissionsOf(past, fates)
  {
    if |past| > 0 {
      var before, id := past[..|past| - 1], past[|past| - 1];
      assert past + rest == before + ([id] + rest) && past == before + [id];
      assert id !in before && Is(w.orders, id, Signed);
      OrdersSubmit(w, k, before, [id] + rest, fates);
      OrdersInProtocol(w, k, before, [id] + rest, fates);
      hide Run, StepsFor, Is, Ready, AfterPass, SubmissionsIn, SubmissionsOf, FateOf;
      var w1 := Run(w, OrderSteps(before, fates, k));
      AfterMore(w.orders, before, id, fates);
      OrderSubmits(w1, k, id, rest, FateOf(fates, id));
      SubmissionsConcat(w, OrderSteps(before, fates, k), [Claim(k)] + StepsFor(k, FateOf(fates, id)));
      SubmissionsMore(before, id, fates);
    }
  }

  /** In the protocol a pass sends its due orders in order, each once, each while its
      row is 'submitting'. */
  lemma PassSubmits(w: World, k: KeeperId, due: seq<OrderId>, now: int, fates: map<OrderId, Fate>)
    requires Ready(w, k, []) && Distinct(due) && forall i :: 0 <= i < |due| ==> Due(w.orders, due[i], now)
    ensures SubmissionsIn(w, PassSteps(due, fates, k, now)) == SubmissionsOf(due, fates)
  {
    hide Run, Ready, OrderSteps, SubmissionsIn, SubmissionsOf;
    PollInProtocol(w, k, due, now);
    assert due + [] == due;
    OrdersSubmit(Run(w, [Poll(k, due, now)]), k, due, [], fates);
    SubmissionsConcat(w, [Poll(k, due, now)], OrderSteps(due, fates, k));
    NoSubmissions(w, [Poll(k, due, now)]);
  }

  // ----- run_keeper

  lemma DueListIsDistinct(orders: Orders, due: seq<OrderId>, now: int, limit: nat)
    requires DueList(orders, due, now, limit)
    ensures Distinct(due) && forall i :: 0 <= i < |due| ==> Due(orders, due[i], now)
  {
    hide Due;
  }

  lemma AfterNone(orders: Orders, due: seq<OrderId>, fates: map<OrderId, Fate>)
    ensures AfterPass(orders, due[..0], fates) == orders
  {
  }

  lemma TallyMore(due: seq<OrderId>, i: nat, fates: map<OrderId, Fate>, which: set<Fate>)
    requires i < |due|
    ensures Tally(due[..i + 1], fates, which) == Tally(due[..i], fates, which) + if FateOf(fates, due[i]) in which then 1 else 0
  {
    hide FateOf;
    assert due[..i + 1][..i] == due[..i];
  }

  const COUNTED: set<Fate> := {Submits, LoggerRaises}

  const FAILED: set<Fate> := {SubmitRaises, MarkRaises, LoggerRaises}

  /** How the calls of each order's try block go, and what has been submitted. */
  class Submitter {
    const fates: map<OrderId, Fate>
    var sent: seq<Submission>

    constructor (fates: map<OrderId, Fate>)
      ensures this.fates == fates && sent == []
    {
      this.fates, sent := fates, [];
    }

    method Submit(store: OrderStore, id: OrderId) returns (raised: bool)
      requires id in store.orders
      modifies this
      ensures raised == (FateOf(fates, id) == SubmitRaises)
      ensures sent == old(sent) + [Submission(id, store.orders[id].status, !raised)]
    {
      raised := FateOf(fates, id) == SubmitRaises;
      sent := sent + [Submission(id, store.orders[id].status, !raised)];
    }
  }

  /** The state a pass leaves is that of the run of its steps in the protocol, and so
      are its submissions. */
  ghost predicate IsRun(w: World, k: KeeperId, steps: seq<Step>, orders: Orders, sent: seq<Submission>) {
    Run(w, steps).orders == orders && Ready(Run(w, steps), k, []) && SubmissionsIn(w, steps) == sent
  }

  /** Every order sent was a signed buy whose deadline lies ahead. */
  ghost predicate OnlyDueSent(orders: Orders, sent: seq<Submission>, now: int) {
    forall s :: s in sent ==>
      s.id in orders && orders[s.id].buy && orders[s.id].status == Signed && orders[s.id].deadline > now
  }

  /** Every other row is as it was. */
  ghost predicate OthersKept(orders: Orders, after: Orders, now: int) {
    forall id :: id in orders && !(orders[id].buy && orders[id].status == Signed && orders[id].deadline > now) ==>
      id in after && after[id] == orders[id]
  }

  /** Every such order was sent. */
  ghost predicate AllDueSent(orders: Orders, sent: seq<Submission>, now: int) {
    forall id :: id in orders && orders[id].buy && orders[id].status == Signed && orders[id].deadline > now ==>
      exists s :: s in sent && s.id == id
  }

  lemma SentIsDue(orders: Orders, due: seq<OrderId>, fates: map<OrderId, Fate>, now: int, limit: nat)
    requires DueList(orders, due, now, limit)
    ensures OnlyDueSent(orders, SubmissionsOf(due, fates), now)
    ensures OthersKept(orders, AfterPass(orders, due, fates), now)
    ensures |due| < limit ==> AllDueSent(orders, SubmissionsOf(due, fates), now)
  {
    DueListIs(orders, due, now, limit);
    hide DueList, FateOf;
    var sent := SubmissionsOf(due, fates);
    forall i | 0 <= i < |due| ensures sent[i].id == due[i] && due[i] in due && sent[i] in sent {}
    if |due| < limit {
      forall id | id in orders && orders[id].buy && orders[id].status == Signed && orders[id].deadline > now
        ensures exists s :: s in sent && s.id == id
      {
        assert id in due;
        var i :| 0 <= i < |due| && due[i] == id;
        assert sent[i] in sent;
      }
    }
  }

  /** `run_keeper`, configured: over the due orders of the table, it submits each once,
      leaves AfterPass and counts the outcomes, as its steps in the protocol do. */
  method RunKeeper(store: OrderStore, submitter: Submitter, now: int, limit: nat)
    returns (submitted: nat, failed: nat, ghost due: seq<OrderId>)
    modifies store, submitter
    ensures DueList(old(store.orders), due, now, limit)
    ensures store.orders == AfterPass(old(store.orders), due, submitter.fates)
    ensures submitter.sent == old(submitter.sent) + SubmissionsOf(due, submitter.fates)
    ensures submitted == Tally(due, submitter.fates, COUNTED) && failed == Tally(due, submitter.fates, FAILED)
    ensures OnlyDueSent(old(store.orders), submitter.sent[|old(submitter.sent)|..], now)
    ensures OthersKept(old(store.orders), store.orders, now)
    ensures |submitter.sent| < |old(submitter.sent)| + limit ==>
              AllDueSent(old(store.orders), submitter.sent[|old(submitter.sent)|..], now)
    ensures forall w: World, k: KeeperId :: w.orders == old(store.orders) && Ready(w, k, []) ==>
              IsRun(w, k, PassSteps(due, submitter.fates, k, now), store.orders, submitter.sent[|old(submitter.sent)|..])
  {
    hide Run, Is, WithStatus, Ready, AfterTry, DueList, AfterPass, Tally, FateOf, Distinct, Passed, PassSteps, SubmissionsIn,
         SubmissionsOf, IsRun, OnlyDueSent, OthersKept, AllDueSent;
    ghost var orders, sent, fates := store.orders, submitter.sent, submitter.fates;
    submitted, failed := 0, 0;
    var rows := store.OrdersDue(now, limit);
    due := rows;
    DueListIsDistinct(orders, rows, now, limit);
    SentIsDue(orders, rows, fates, now, limit);
    SubmissionsCount(rows, fates);
    NothingServed(orders, rows, fates);
    for i := 0 to |rows|
      invariant store.orders == AfterPass(orders, rows[..i], fates)
      invariant submitter.sent == sent + SubmissionsOf(rows[..i], fates)
      invariant submitted == Tally(rows[..i], fates, COUNTED) && failed == Tally(rows[..i], fates, FAILED)
    {
      var id := rows[i];
      NextIsServed(orders, rows, i, fates, now);
      var claimed := store.ClaimOrder(id);
      if claimed {
        var marked, ok := Try(store, submitter, id);
        if marked { submitted := submitted + 1; }
        if !ok { failed := failed + 1; }
      }
    }
    assert rows[..|rows|] == rows;
    assert submitter.sent[|sent|..] == SubmissionsOf(rows, fates);
    forall w: World, k: KeeperId | w.orders == orders && Ready(w, k, [])
      ensures IsRun(w, k, PassSteps(rows, fates, k, now), store.orders, submitter.sent[|sent|..])
    {
      PassIsRun(w, k, rows, now, fates);
    }
  }

  lemma PassIsRun(w: World, k: KeeperId, due: seq<OrderId>, now: int, fates: map<OrderId, Fate>)
    requires Ready(w, k, []) && Distinct(due) && forall i :: 0 <= i < |due| ==> Due(w.orders, due[i], now)
    ensures IsRun(w, k, PassSteps(due, fates, k, now), AfterPass(w.orders, due, fates), SubmissionsOf(due, fates))
  {
    PassInProtocol(w, k, due, now, fates);
    PassSubmits(w, k, due, now, fates);
    hide Run, Ready, PassSteps, SubmissionsIn, SubmissionsOf, AfterPass, Due;
  }

  lemma SubmissionsCount(due: seq<OrderId>, fates: map<OrderId, Fate>)
    ensures |SubmissionsOf(due, fates)| == |due|
  {
  }

  lemma NothingServed(orders: Orders, due: seq<OrderId>, fates: map<OrderId, Fate>)
    ensures AfterPass(orders, due[..0], fates) == orders && SubmissionsOf(due[..0], fates) == []
    ensures Tally(due[..0], fates, COUNTED) == 0 && Tally(due[..0], fates, FAILED) == 0
  {
    AfterNone(orders, due, fates);
  }

  /** The i-th due order is still there to be claimed, and what serving it adds. */
  lemma NextIsServed(orders: Orders, due: seq<OrderId>, i: nat, fates: map<OrderId, Fate>, now: int)
    requires Distinct(due) && i < |due| && Due(orders, due[i], now)
    ensures var id, table := due[i], AfterPass(orders, due[..i], fates);
            var claimed, fate := WithStatus(table, id, Submitting), FateOf(fates, id);
            && Is(table, id, Signed) && Is(claimed, id, Submitting)
            && AfterTry(claimed, id, fate) == AfterPass(orders, due[..i + 1], fates)
            && SubmissionsOf(due[..i + 1], fates) == SubmissionsOf(due[..i], fates) + [Submission(id, Submitting, fate != SubmitRaises)]
            && Tally(due[..i + 1], fates, COUNTED) == Tally(due[..i], fates, COUNTED) + (if fate in COUNTED then 1 else 0)
            && Tally(due[..i + 1], fates, FAILED) == Tally(due[..i], fates, FAILED) + (if fate in FAILED then 1 else 0)
  {
    hide Is, WithStatus, AfterTry, AfterPass, Tally, FateOf, SubmissionsOf;
    NotYet(due, i);
    DueIsSigned(orders, due[i], now);
    AfterMore(orders, due[..i], due[i], fates);
    ClaimedIsSubmitting(AfterPass(orders, due[..i], fates), due[i]);
    AfterClaim(AfterPass(orders, due[..i], fates), due[i], FateOf(fates, due[i]));
    SubmissionsMore(due[..i], due[i], fates);
    TallyMore(due, i, fates, COUNTED);
    TallyMore(due, i, fates, FAILED);
  }

  lemma NotYet(due: seq<OrderId>, i: nat)
    requires Distinct(due) && i < |due|
    ensures due[i] !in due[..i] && due[..i + 1] == due[..i] + [due[i]]
  {
  }

  lemma DueIsSigned(orders: Orders, id: OrderId, now: int)
    requires Due(orders, id, now)
    ensures Is(orders, id, Signed)
  {
  }

  /** The `try` block and its `except` branch for one claimed order. */
  method Try(store: OrderStore, submitter: Submitter, id: OrderId) returns (marked: bool, ok: bool)
    requires Is(store.orders, id, Submitting)
    modifies store, submitter
    ensures store.orders == AfterTry(old(store.orders), id, FateOf(submitter.fates, id))
    ensures submitter.sent
         == old(submitter.sent) + [Submission(id, Submitting, FateOf(submitter.fates, id) != SubmitRaises)]
    ensures marked <==> FateOf(submitter.fates, id) in COUNTED
    ensures !ok <==> FateOf(submitter.fates, id) in FAILED
  {
    var fate := FateOf(submitter.fates, id);
    hide FateOf;
    StatusTwice(store.orders, id, Executed, Signed);
    marked, ok := false, false;
    var raised := submitter.Submit(store, id);
    if !raised && fate != MarkRaises {
      store.SetStatus(id, Executed);
      marked := true;
      ok := fate != LoggerRaises;
    }
    if !ok { store.SetStatus(id, Signed); }
  }
}
