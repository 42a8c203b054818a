/** The order-claim protocol of arc-intel/execution/keeper.py: any number of keepers, one committed statement a step. */
module Keeper {

  // ----- orders and their single-statement updates

  datatype Status = Armed | Signed | Submitting | Executed | Cancelled

  datatype Order = Order(buy: bool, owner: string, deadline: int, status: Status)

  datatype OrderId = OrderId(n: int)

  datatype KeeperId = KeeperId(n: int)

  type Orders = map<OrderId, Order>

  function WithStatus(orders: Orders, id: OrderId, status: Status): Orders {
    if id in orders then orders[id := orders[id].(status := status)] else orders
  }

  predicate Is(orders: Orders, id: OrderId, status: Status) {
    id in orders && orders[id].status == status
  }

  /** Rows `orders_due("buy", now)` selects. */
  predicate Due(orders: Orders, id: OrderId, now: int) {
    Is(orders, id, Signed) && orders[id].buy && orders[id].deadline > now
  }

  /** Rows `cancel_preorder` updates. */
  predicate Cancellable(orders: Orders, id: OrderId, owner: string) {
    id in orders && orders[id].owner == owner && orders[id].status in {Armed, Signed, Submitting}
  }

  // ----- the protocol

  /** Where a keeper stands with the order at hand: claimed, submitted successfully,
      marked executed. */
  datatype Phase = Idle | Claimed(id: OrderId) | Landed(id: OrderId) | Marked(id: OrderId)

  datatype Keeper = Keeper(queue: seq<OrderId>, phase: Phase)

  /** `landed` counts the successful submissions of an order, `faults` the exceptions
      raised between a successful submission and the end of its `try` block. */
  datatype World = World(orders: Orders, keepers: map<KeeperId, Keeper>, landed: map<OrderId, nat>, faults: map<OrderId, nat>)

  datatype Step =
    | Create(id: OrderId, order: Order)
    | Sign(id: OrderId)
    | Cancel(id: OrderId, owner: string)
    | Poll(k: KeeperId, due: seq<OrderId>, now: int)
    | Claim(k: KeeperId)
    | SubmitOk(k: KeeperId)
    | SubmitFail(k: KeeperId)
    | Mark(k: KeeperId)
    | MarkFail(k: KeeperId)
    | Finish(k: KeeperId)
    | LogFail(k: KeeperId)
    | Crash(k: KeeperId)

  function Count(m: map<OrderId, nat>, id: OrderId): nat {
    if id in m then m[id] else 0
  }

  function Bump(m: map<OrderId, nat>, id: OrderId): map<OrderId, nat> {
    m[id := Count(m, id) + 1]
  }

  function PhaseOf(w: World, k: KeeperId): Phase {
    if k in w.keepers then w.keepers[k].phase else Idle
  }

  function QueueOf(w: World, k: KeeperId): seq<OrderId> {
    if k in w.keepers then w.keepers[k].queue else []
  }

  function Move(w: World, k: KeeperId, phase: Phase): World {
    w.(keepers := w.keepers[k := Keeper(QueueOf(w, k), phase)])
  }

  /** May the step happen here? Signatures are attached to armed orders only. */
  predicate Enabled(w: World, s: Step) {
    match s
    case Create(id, order) => id !in w.orders && order.status == Armed
    case Sign(id) => Is(w.orders, id, Armed)
    case Cancel(id, owner) => Cancellable(w.orders, id, owner)
    case Poll(k, due, now) => PhaseOf(w, k).Idle? && QueueOf(w, k) == [] && forall i :: 0 <= i < |due| ==> Due(w.orders, due[i], now)
    case Claim(k) => PhaseOf(w, k).Idle? && |QueueOf(w, k)| > 0
    case SubmitOk(k) => PhaseOf(w, k).Claimed?
    case SubmitFail(k) => PhaseOf(w, k).Claimed?
    case Mark(k) => PhaseOf(w, k).Landed?
    case MarkFail(k) => PhaseOf(w, k).Landed?
    case Finish(k) => PhaseOf(w, k).Marked?
    case LogFail(k) => PhaseOf(w, k).Marked?
    case Crash(k) => true
  }

  /** Back to 'signed' and on to the next order, as the `except` branch does. */
  function GiveBack(w: World, k: KeeperId, id: OrderId): World {
    Move(w.(orders := WithStatus(w.orders, id, Signed)), k, Idle)
  }

  function Next(w: World, s: Step): World
    requires Enabled(w, s)
  {
    match s
    case Create(id, order) => w.(orders := w.orders[id := order])
    case Sign(id) => w.(orders := WithStatus(w.orders, id, Signed))
    case Cancel(id, owner) => w.(orders := WithStatus(w.orders, id, Cancelled))
    case Poll(k, due, now) => w.(keepers := w.keepers[k := Keeper(due, Idle)])
    case Claim(k) =>
      var id, rest := QueueOf(w, k)[0], QueueOf(w, k)[1..];
      if Is(w.orders, id, Signed)
      then w.(orders := WithStatus(w.orders, id, Submitting), keepers := w.keepers[k := Keeper(rest, Claimed(id))])
      else w.(keepers := w.keepers[k := Keeper(rest, Idle)])
    case SubmitOk(k) => Move(w.(landed := Bump(w.landed, PhaseOf(w, k).id)), k, Landed(PhaseOf(w, k).id))
    case SubmitFail(k) => GiveBack(w, k, PhaseOf(w, k).id)
    case Mark(k) => Move(w.(orders := WithStatus(w.orders, PhaseOf(w, k).id, Executed)), k, Marked(PhaseOf(w, k).id))
    case MarkFail(k) => GiveBack(w.(faults := Bump(w.faults, PhaseOf(w, k).id)), k, PhaseOf(w, k).id)
    case Finish(k) => Move(w, k, Idle)
    case LogFail(k) => GiveBack(w.(faults := Bump(w.faults, PhaseOf(w, k).id)), k, PhaseOf(w, k).id)
    case Crash(k) => w.(keepers := w.keepers[k := Keeper([], Idle)])
  }

  /** A run; a step that cannot happen changes nothing. */
  function Run(w: World, steps: seq<Step>): World {
    if |steps| == 0 then w
    else
      var before, s := Run(w, steps[..|steps| - 1]), steps[|steps| - 1];
      if Enabled(before, s) then Next(before, s) else before
  }

  const START := World(map[], map[], map[], map[])

  // ----- the invariant

  predicate Holds(p: Phase, id: OrderId) {
    !p.Idle? && p.id == id
  }

  /** At most one keeper holds an order, and while it is held its status belongs to
      that keeper: nobody else can claim, sign or execute it. */
  ghost predicate Exclusive(w: World) {
    && (forall k, j, id :: Holds(PhaseOf(w, k), id) && Holds(PhaseOf(w, j), id) ==> k == j)
    && (forall k, id :: Holds(PhaseOf(w, k), id) ==>
          id in w.orders
          && if PhaseOf(w, k).Marked? then w.orders[id].status == Executed
             else w.orders[id].status in {Submitting, Cancelled})
  }

  /** An order that can still be submitted has no unexcused success. */
  ghost predicate Counted(w: World) {
    && (forall id :: Count(w.landed, id) <= Count(w.faults, id) + 1)
    && (forall id :: id !in w.orders || w.orders[id].status in {Armed, Signed} ==>
          Count(w.landed, id) <= Count(w.faults, id))
    && (forall k, id :: PhaseOf(w, k) == Claimed(id) ==> Count(w.landed, id) <= Count(w.faults, id))
  }

  ghost predicate Inv(w: World) {
    Exclusive(w) && Counted(w)
  }

  lemma StartIsFine()
    ensures Inv(START)
  {
  }

  /** The order the step's keeper holds, if it holds one. */
  function Grip(w: World, s: Step): Phase {
    if s.SubmitOk? || s.SubmitFail? || s.Mark? || s.MarkFail? || s.Finish? || s.LogFail? || s.Crash? then PhaseOf(w, s.k)
    else Idle
  }

  /** A hold after the step was there before, unless the step is a successful claim. */
  lemma HoldOrigin(w: World, s: Step, k: KeeperId, id: OrderId)
    requires Enabled(w, s) && Holds(PhaseOf(Next(w, s), k), id)
    ensures Holds(PhaseOf(w, k), id) || (s == Claim(k) && Is(w.orders, id, Signed) && PhaseOf(w, k).Idle?)
  {
    hide Count, Bump;
  }

  /** A step changes the status of no order but the one it names or its keeper holds. */
  lemma StatusElsewhere(w: World, s: Step, id: OrderId)
    requires Enabled(w, s) && id in w.orders && !Holds(Grip(w, s), id)
    requires !s.Sign? && !s.Cancel? && !s.Claim?
    ensures id in Next(w, s).orders && Next(w, s).orders[id] == w.orders[id]
  {
    hide Count, Bump;
  }

  lemma HeldStatus(w: World, s: Step, k: KeeperId, id: OrderId)
    requires Exclusive(w) && Enabled(w, s) && Holds(PhaseOf(Next(w, s), k), id)
    ensures var w' := Next(w, s);
            id in w'.orders
            && if PhaseOf(w', k).Marked? then w'.orders[id].status == Executed
               else w'.orders[id].status in {Submitting, Cancelled}
  {
    HoldOrigin(w, s, k, id);
    hide Count, Bump;
    if Holds(PhaseOf(w, k), id) && !s.Sign? && !s.Cancel? && !s.Claim? {
      if Holds(Grip(w, s), id) {
        assert s.k == k;
      } else {
        StatusElsewhere(w, s, id);
      }
    }
  }

  lemma ExclusiveStep(w: World, s: Step)
    requires Exclusive(w) && Enabled(w, s)
    ensures Exclusive(Next(w, s))
  {
    hide Next, Enabled, PhaseOf, Is;
    var w' := Next(w, s);
    forall k, id | Holds(PhaseOf(w', k), id)
      ensures id in w'.orders
           && if PhaseOf(w', k).Marked? then w'.orders[id].status == Executed
              else w'.orders[id].status in {Submitting, Cancelled}
    {
      HeldStatus(w, s, k, id);
    }
    forall k, j, id | Holds(PhaseOf(w', k), id) && Holds(PhaseOf(w', j), id) ensures k == j {
      HoldOrigin(w, s, k, id);
      HoldOrigin(w, s, j, id);
      if Is(w.orders, id, Signed) { SignedIsFree(w, id); }
    }
  }

  lemma SignedIsFree(w: World, id: OrderId)
    requires Exclusive(w) && Is(w.orders, id, Signed)
    ensures forall k :: !Holds(PhaseOf(w, k), id)
  {
    hide PhaseOf;
  }

  /** The count of one order after a step. */
  ghost predicate CountedFor(w: World, id: OrderId) {
    && Count(w.landed, id) <= Count(w.faults, id) + 1
    && (id !in w.orders || w.orders[id].status in {Armed, Signed} ==> Count(w.landed, id) <= Count(w.faults, id))
    && (forall k :: PhaseOf(w, k) == Claimed(id) ==> Count(w.landed, id) <= Count(w.faults, id))
  }

  lemma CountedStep(w: World, s: Step)
    requires Inv(w) && Enabled(w, s)
    ensures Counted(Next(w, s))
  {
    forall id ensures CountedFor(Next(w, s), id) {
      assert CountedFor(w, id) by { hide Next, Enabled; }
      CountedForStep(w, s, id);
    }
    hide Next, Enabled, Count;
    assert forall id {:trigger Count(Next(w, s).landed, id)} :: CountedFor(Next(w, s), id);
  }

  lemma CountedForStep(w: World, s: Step, id: OrderId)
    requires Exclusive(w) && CountedFor(w, id) && Enabled(w, s)
    ensures CountedFor(Next(w, s), id)
  {
    var w' := Next(w, s);
    if Holds(Grip(w, s), id) {
      assert PhaseOf(w, s.k) == Grip(w, s);
      forall k | PhaseOf(w', k) == Claimed(id) ensures Count(w'.landed, id) <= Count(w'.faults, id) {
        assert Holds(PhaseOf(w, k), id);
      }
    } else {
      if !s.Sign? && !s.Cancel? && !s.Claim? && id in w.orders { StatusElsewhere(w, s, id); }
      forall k | PhaseOf(w', k) == Claimed(id) ensures Count(w'.landed, id) <= Count(w'.faults, id) {
        HoldOrigin(w, s, k, id);
      }
    }
  }

  /** Every interleaving of any number of keepers, owners and crashes keeps the invariant. */
  lemma {:induction false} RunKeepsInv(w: World, steps: seq<Step>)
    requires Inv(w)
    ensures Inv(Run(w, steps))
  {
    if |steps| > 0 {
      var before, s := Run(w, steps[..|steps| - 1]), steps[|steps| - 1];
      RunKeepsInv(w, steps[..|steps| - 1]);
      hide Exclusive, Counted, Next, Enabled;
      if Enabled(before, s) {
        ExclusiveStep(before, s);
        CountedStep(before, s);
      }
    }
  }

  // ----- what it gives

  /** At most one submission of an order is in flight. */
  lemma OneInFlight(steps: seq<Step>, k: KeeperId, j: KeeperId, id: OrderId)
    requires var w := Run(START, steps); Holds(PhaseOf(w, k), id) && Holds(PhaseOf(w, j), id)
    ensures k == j
  {
    StartIsFine();
    RunKeepsInv(START, steps);
  }

  /** An order succeeds at most once more than exceptions followed its successes. */
  lemma SuccessesAreBounded(steps: seq<Step>, id: OrderId)
    ensures var w := Run(START, steps); Count(w.landed, id) <= Count(w.faults, id) + 1
  {
    StartIsFine();
    RunKeepsInv(START, steps);
  }

  predicate Fault(s: Step) {
    s.MarkFail? || s.LogFail?
  }

  predicate Faultless(steps: seq<Step>) {
    forall i :: 0 <= i < |steps| ==> !Fault(steps[i])
  }

  lemma {:induction false} FaultlessCountsNone(w: World, steps: seq<Step>, id: OrderId)
    requires Faultless(steps)
    ensures Count(Run(w, steps).faults, id) == Count(w.faults, id)
  {
    if |steps| > 0 {
      FaultlessCountsNone(w, steps[..|steps| - 1], id);
      assert !Fault(steps[|steps| - 1]);
      hide Enabled, WithStatus, Count, Is;
    }
  }

  /** The main law: when nothing raises after a successful submission, every order is
      submitted successfully at most once, however the keepers interleave. */
  lemma AtMostOnce(steps: seq<Step>, id: OrderId)
    requires Faultless(steps)
    ensures Count(Run(START, steps).landed, id) <= 1
  {
    SuccessesAreBounded(steps, id);
    FaultlessCountsNone(START, steps, id);
  }

  /** Nothing but such an exception leaves 'executed'. */
  lemma {:induction false} ExecutedIsTerminal(w: World, steps: seq<Step>, id: OrderId)
    requires Inv(w) && Is(w.orders, id, Executed) && Faultless(steps)
    ensures Is(Run(w, steps).orders, id, Executed)
  {
    if |steps| > 0 {
      var before, s := Run(w, steps[..|steps| - 1]), steps[|steps| - 1];
      ExecutedIsTerminal(w, steps[..|steps| - 1], id);
      RunKeepsInv(w, steps[..|steps| - 1]);
      assert !Fault(s);
      hide Counted, Count, Bump, Run;
      if Enabled(before, s) { ExecutedStays(before, s, id); }
    }
  }

  lemma ExecutedStays(w: World, s: Step, id: OrderId)
    requires Exclusive(w) && Is(w.orders, id, Executed) && Enabled(w, s) && !Fault(s)
    ensures Is(Next(w, s).orders, id, Executed)
  {
    hide Count, Bump;
  }

  lemma RunMore(w: World, steps: seq<Step>, s: Step)
    ensures Run(w, steps + [s]) == if Enabled(Run(w, steps), s) then Next(Run(w, steps), s) else Run(w, steps)
  {
    hide Enabled, Next;
    assert (steps + [s])[..|steps|] == steps;
  }

  lemma RunNone(w: World)
    ensures Run(w, []) == w
  {
  }

  lemma RunSingle(w: World, s: Step)
    requires Enabled(w, s)
    ensures Run(w, [s]) == Next(w, s)
  {
    hide Next, Enabled;
    RunMore(w, [], s);
    RunNone(w);
    assert [] + [s] == [s];
  }

  /** Cancelled and executed orders that no keeper holds are left alone. */
  ghost predicate Closed(w: World, id: OrderId, status: Status) {
    status in {Executed, Cancelled} && Is(w.orders, id, status) && forall k :: !Holds(PhaseOf(w, k), id)
  }

  lemma {:induction false} ClosedStays(w: World, steps: seq<Step>, id: OrderId, status: Status)
    requires Closed(w, id, status)
    ensures Closed(Run(w, steps), id, status)
  {
    if |steps| > 0 {
      var before, s := Run(w, steps[..|steps| - 1]), steps[|steps| - 1];
      ClosedStays(w, steps[..|steps| - 1], id, status);
      hide Next, Enabled, Closed;
      if Enabled(before, s) { ClosedStep(before, s, id, status); }
    }
  }

  lemma ClosedStep(w: World, s: Step, id: OrderId, status: Status)
    requires Enabled(w, s) && Closed(w, id, status)
    ensures Closed(Next(w, s), id, status)
  {
    hide Count, Bump;
    if !s.Sign? && !s.Cancel? && !s.Claim? { StatusElsewhere(w, s, id); }
    forall k ensures !Holds(PhaseOf(Next(w, s), k), id) {
      if Holds(PhaseOf(Next(w, s), k), id) { HoldOrigin(w, s, k, id); }
    }
  }

  /** An exception of the keeper that holds an order puts it back to 'signed'. */
  lemma HolderReopens(w: World, k: KeeperId, id: OrderId)
    requires Exclusive(w) && Holds(PhaseOf(w, k), id)
    ensures exists s :: Is(Run(w, [s]).orders, id, Signed)
  {
    hide Run, Count, Bump;
    var s := match PhaseOf(w, k)
             case Claimed(_) => SubmitFail(k)
             case Landed(_) => MarkFail(k)
             case _ => LogFail(k);
    RunSingle(w, s);
    assert Is(Next(w, s).orders, id, Signed);
  }

  lemma StaysIff(w: World, id: OrderId, status: Status)
    requires Inv(w) && status in {Executed, Cancelled} && Is(w.orders, id, status)
    ensures (forall steps :: Is(Run(w, steps).orders, id, status)) <==> forall k :: !Holds(PhaseOf(w, k), id)
  {
    hide Run, Exclusive, Counted, Holds;
    if k :| Holds(PhaseOf(w, k), id) {
      HolderReopens(w, k, id);
      var s :| Is(Run(w, [s]).orders, id, Signed);
      assert !Is(Run(w, [s]).orders, id, status);
    } else {
      forall steps ensures Is(Run(w, steps).orders, id, status) {
        ClosedStays(w, steps, id, status);
      }
    }
  }

  /** A cancelled order stays cancelled, whatever keepers and owners do, if and only if
      no keeper holds it: a failing submission undoes a cancel accepted meanwhile. */
  lemma CancelledStaysIff(w: World, id: OrderId)
    requires Inv(w) && Is(w.orders, id, Cancelled)
    ensures (forall steps :: Is(Run(w, steps).orders, id, Cancelled)) <==> forall k :: !Holds(PhaseOf(w, k), id)
  {
    StaysIff(w, id, Cancelled);
  }

  /** An executed order stays executed if and only if its keeper has let go of it. */
  lemma ExecutedStaysIff(w: World, id: OrderId)
    requires Inv(w) && Is(w.orders, id, Executed)
    ensures (forall steps :: Is(Run(w, steps).orders, id, Executed)) <==> forall k :: !Holds(PhaseOf(w, k), id)
  {
    StaysIff(w, id, Executed);
  }

  // ----- where the protocol stops short

  const O1 := OrderId(1)

  const K0 := KeeperId(0)

  const ORDER := Order(true, "o", 10, Armed)

  /** Order 1 signed, polled and claimed by keeper 0. */
  function ClaimedOnce(status: Status, landed: map<OrderId, nat>, faults: map<OrderId, nat>): World {
    World(map[O1 := ORDER.(status := status)], map[K0 := Keeper([], Claimed(O1))], landed, faults)
  }

  /** Order 1 signed and free, keeper 0 idle. */
  function Free(landed: map<OrderId, nat>, faults: map<OrderId, nat>, keepers: map<KeeperId, Keeper>): World {
    World(map[O1 := ORDER.(status := Signed)], keepers, landed, faults)
  }

  /** Polling and claiming the free order. */
  lemma PollAndClaim(steps: seq<Step>, landed: map<OrderId, nat>, faults: map<OrderId, nat>, keepers: map<KeeperId, Keeper>)
    requires Run(START, steps) == Free(landed, faults, keepers)
    requires keepers == map[] || keepers == map[K0 := Keeper([], Idle)]
    ensures Run(START, steps + [Poll(K0, [O1], 5)] + [Claim(K0)]) == ClaimedOnce(Submitting, landed, faults)
  {
    var w := Free(landed, faults, keepers);
    RunMore(START, steps, Poll(K0, [O1], 5));
    RunMore(START, steps + [Poll(K0, [O1], 5)], Claim(K0));
    hide Run;
    assert PhaseOf(w, K0) == Idle && QueueOf(w, K0) == [] && Due(w.orders, O1, 5);
    var w1 := Next(w, Poll(K0, [O1], 5));
    assert PhaseOf(w1, K0) == Idle && QueueOf(w1, K0) == [O1];
    assert [O1][1..] == [];
    var w2 := Next(w1, Claim(K0));
    assert w2.orders == map[O1 := ORDER.(status := Submitting)];
    assert w2.keepers == map[K0 := Keeper([], Claimed(O1))];
  }

  lemma ClaimIsReached()
    ensures exists steps :: Run(START, steps) == ClaimedOnce(Submitting, map[], map[])
  {
    RunMore(START, [], Create(O1, ORDER));
    RunMore(START, [] + [Create(O1, ORDER)], Sign(O1));
    var steps := [] + [Create(O1, ORDER)] + [Sign(O1)];
    assert Run(START, []) == START by { RunNone(START); }
    hide Run;
    var w1 := Next(START, Create(O1, ORDER));
    assert w1.orders == map[O1 := ORDER];
    assert Next(w1, Sign(O1)).orders == map[O1 := ORDER.(status := Signed)];
    PollAndClaim(steps, map[], map[], map[]);
  }

  /** Order 1 counted n times. */
  function Times(n: nat): map<OrderId, nat> {
    if n == 0 then map[] else map[O1 := n]
  }

  function Round(steps: seq<Step>): seq<Step> {
    steps + [SubmitOk(K0)] + [Mark(K0)] + [LogFail(K0)] + [Poll(K0, [O1], 5)] + [Claim(K0)]
  }

  lemma RoundCounts(steps: seq<Step>, n: nat)
    requires Run(START, steps) == ClaimedOnce(Submitting, Times(n), Times(n))
    ensures Run(START, Round(steps)) == ClaimedOnce(Submitting, Times(n + 1), Times(n + 1))
  {
    hide Run, Next, Enabled, Times, Free, ClaimedOnce;
    ThreeMore(steps, n);
    PollAndClaim(steps + [SubmitOk(K0)] + [Mark(K0)] + [LogFail(K0)], Times(n + 1), Times(n + 1), map[K0 := Keeper([], Idle)]);
  }

  /** n rounds of a submission, an exception after it, and a new claim. */
  lemma {:induction false} Rounds(n: nat)
    ensures exists steps :: Run(START, steps) == ClaimedOnce(Submitting, Times(n), Times(n))
  {
    hide Run, ClaimedOnce;
    if n == 0 {
      ClaimIsReached();
      assert Times(0) == map[];
    } else {
      Rounds(n - 1);
      hide Times, Round;
      var steps :| Run(START, steps) == ClaimedOnce(Submitting, Times(n - 1), Times(n - 1));
      RoundCounts(steps, n - 1);
      assert Run(START, Round(steps)) == ClaimedOnce(Submitting, Times(n), Times(n));
    }
  }

  lemma Follow(steps: seq<Step>, s: Step)
    requires Enabled(Run(START, steps), s)
    ensures Run(START, steps + [s]) == Next(Run(START, steps), s)
  {
    hide Next, Enabled;
    RunMore(START, steps, s);
  }

  lemma RoundLands(n: nat)
    ensures var w := ClaimedOnce(Submitting, Times(n), Times(n));
            var w1 := World(w.orders, map[K0 := Keeper([], Landed(O1))], Times(n + 1), Times(n));
            Enabled(w, SubmitOk(K0)) && Next(w, SubmitOk(K0)) == w1
  {
    assert Bump(Times(n), O1) == Times(n + 1);
  }

  lemma RoundMarked(n: nat)
    ensures var w1 := World(map[O1 := ORDER.(status := Submitting)], map[K0 := Keeper([], Landed(O1))], Times(n + 1), Times(n));
            var w2 := World(map[O1 := ORDER.(status := Executed)], map[K0 := Keeper([], Marked(O1))], Times(n + 1), Times(n));
            Enabled(w1, Mark(K0)) && Next(w1, Mark(K0)) == w2
  {
  }

  lemma RoundFails(n: nat)
    ensures var w2 := World(map[O1 := ORDER.(status := Executed)], map[K0 := Keeper([], Marked(O1))], Times(n + 1), Times(n));
            Enabled(w2, LogFail(K0)) && Next(w2, LogFail(K0)) == Free(Times(n + 1), Times(n + 1), map[K0 := Keeper([], Idle)])
  {
    assert Bump(Times(n), O1) == Times(n + 1);
    assert ORDER.(status := Executed).(status := Signed) == ORDER.(status := Signed);
  }

  lemma ThreeMore(steps: seq<Step>, n: nat)
    requires Run(START, steps) == ClaimedOnce(Submitting, Times(n), Times(n))
    ensures Run(START, steps + [SubmitOk(K0)] + [Mark(K0)] + [LogFail(K0)])
         == Free(Times(n + 1), Times(n + 1), map[K0 := Keeper([], Idle)])
  {
    hide Run, Next, Enabled;
    RoundLands(n);
    RoundMarked(n);
    RoundFails(n);
    Follow(steps, SubmitOk(K0));
    Follow(steps + [SubmitOk(K0)], Mark(K0));
    Follow(steps + [SubmitOk(K0)] + [Mark(K0)], LogFail(K0));
  }

  /** n exceptions after successful submissions send one order out n + 1 times. */
  lemma FaultsResubmit(n: nat)
    ensures exists steps :: Count(Run(START, steps).landed, O1) == n + 1 && Count(Run(START, steps).faults, O1) == n
  {
    Rounds(n);
    var steps :| Run(START, steps) == ClaimedOnce(Submitting, Times(n), Times(n));
    hide Run;
    RunMore(START, steps, SubmitOk(K0));
    assert Count(Run(START, steps + [SubmitOk(K0)]).landed, O1) == n + 1;
  }

  /** In every interleaving an order is submitted successfully at most m times under at
      most n exceptions raised after its submissions if and only if m exceeds n: once is
      certain exactly when nothing raises there. */
  lemma SuccessesWithinIff(n: nat, m: nat)
    ensures (forall steps, id :: Count(Run(START, steps).faults, id) <= n ==> Count(Run(START, steps).landed, id) <= m)
       <==> m > n
  {
    hide Run, Count;
    if m > n {
      forall steps, id ensures Count(Run(START, steps).landed, id) <= Count(Run(START, steps).faults, id) + 1 {
        SuccessesAreBounded(steps, id);
      }
    } else {
      FaultsResubmit(n);
    }
  }

  /** A cancel accepted while a keeper is submitting is undone when the submission
      fails: the order is due again. */
  lemma FailureUndoesCancel()
    ensures exists steps, s :: Is(Run(START, steps).orders, O1, Cancelled) && Due(Run(START, steps + [s]).orders, O1, 5)
  {
    ClaimIsReached();
    var steps :| Run(START, steps) == ClaimedOnce(Submitting, map[], map[]);
    hide Run;
    RunMore(START, steps, Cancel(O1, "o"));
    var s1 := steps + [Cancel(O1, "o")];
    assert Is(Run(START, s1).orders, O1, Cancelled);
    RunMore(START, s1, SubmitFail(K0));
    assert Due(Run(START, s1 + [SubmitFail(K0)]).orders, O1, 5);
  }
}
