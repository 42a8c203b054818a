/** The per-user call limiter of arc-intel/bot/sign_server.py and the send throttle of
    arc-intel/bot/throttle.py. */
module RateLimit {
  import opened Options

  // ----- _rate_ok

  const RATE_MAX: nat := 20
  const RATE_WINDOW: real := 60.0

  /** The times less than a window old at `now`. */
  function Fresh(times: seq<real>, now: real): (r: seq<real>)
    ensures |r| <= |times|
  {
    if |times| == 0 then []
    else
      var t := times[|times| - 1];
      Fresh(times[..|times| - 1], now) + (if now - t < RATE_WINDOW then [t] else [])
  }

  /** The times kept for each user. */
  type Rates = map<string, seq<real>>

  function HitsOf(rate: Rates, uid: string): seq<real> {
    if uid in rate then rate[uid] else []
  }

  class Limiter {
    var rate: Rates

    constructor ()
      ensures rate == map[]
    {
      rate := map[];
    }

    /** `_rate_ok`: prune, then accept and record, or reject. */
    method RateOk(uid: string, now: real) returns (ok: bool)
      modifies this
      ensures (rate, ok) == Handle(old(rate), Call(uid, now))
    {
      var hits := Pruned(HitsOf(rate, uid), now);
      if |hits| >= RATE_MAX {
        rate := rate[uid := hits];
        return false;
      }
      hits := hits + [now];
      rate := rate[uid := hits];
      ok := true;
    }
  }

  /** `[t for t in hits if now - t < RATE_WINDOW]`. */
  method Pruned(times: seq<real>, now: real) returns (r: seq<real>)
    ensures r == Fresh(times, now)
  {
    r := [];
    for i := 0 to |times|
      invariant r == Fresh(times[..i], now)
    {
      assert times[..i + 1][..i] == times[..i];
      if now - times[i] < RATE_WINDOW { r := r + [times[i]]; }
    }
    assert times[..|times|] == times;
  }

  /** One call: the list kept and the verdict. */
  function Visit(hits: seq<real>, now: real): (seq<real>, bool) {
    var kept := Fresh(hits, now);
    if |kept| >= RATE_MAX then (kept, false) else (kept + [now], true)
  }

  /** The list kept for one user after calls at the given times, and every time accepted. */
  function Calls(times: seq<real>): (seq<real>, seq<real>) {
    if |times| == 0 then ([], [])
    else
      var (hits, accepted) := Calls(times[..|times| - 1]);
      var now := times[|times| - 1];
      var (hits', ok) := Visit(hits, now);
      (hits', if ok then accepted + [now] else accepted)
  }

  predicate Rising(times: seq<real>) {
    forall i, j :: 0 <= i <= j < |times| ==> times[i] <= times[j]
  }

  predicate AllUpto(times: seq<real>, now: real) {
    forall i :: 0 <= i < |times| ==> times[i] <= now
  }

  /** Pruning twice is pruning at the later time. */
  lemma {:induction false} FreshTwice(times: seq<real>, before: real, now: real)
    requires before <= now
    ensures Fresh(Fresh(times, before), now) == Fresh(times, now)
  {
    if |times| > 0 {
      var init, t := times[..|times| - 1], times[|times| - 1];
      FreshTwice(init, before, now);
      var f := Fresh(init, before);
      if before - t < RATE_WINDOW {
        assert (f + [t])[..|f|] == f;
      } else {
        assert f + [] == f;
      }
    }
  }

  lemma FreshAppend(times: seq<real>, t: real, now: real)
    ensures Fresh(times + [t], now) == Fresh(times, now) + (if now - t < RATE_WINDOW then [t] else [])
  {
    assert (times + [t])[..|times|] == times;
  }

  /** How many of the times lie in the half-open interval [from, from + length). */
  function CountIn(times: seq<real>, from: real, length: real): nat {
    if |times| == 0 then 0
    else
      CountIn(times[..|times| - 1], from, length) + (if from <= times[|times| - 1] < from + length then 1 else 0)
  }

  lemma CountAppend(times: seq<real>, t: real, from: real, length: real)
    ensures CountIn(times + [t], from, length) == CountIn(times, from, length) + (if from <= t < from + length then 1 else 0)
  {
    assert (times + [t])[..|times|] == times;
  }

  /** Everything in a window that holds `now` is still fresh at `now`. */
  lemma {:induction false} WindowIsFresh(times: seq<real>, now: real, from: real)
    requires from <= now < from + RATE_WINDOW
    ensures CountIn(times, from, RATE_WINDOW) <= |Fresh(times, now)|
  {
    if |times| > 0 { WindowIsFresh(times[..|times| - 1], now, from); }
  }

  /** The limiter as one user's calls meet it. */
  lemma {:induction false} UserIsExact(times: seq<real>)
    requires Rising(times)
    ensures var (hits, accepted) := Calls(times);
            && |hits| <= RATE_MAX && (|times| > 0 ==> hits == Fresh(accepted, times[|times| - 1]))
            && (|times| > 0 ==> AllUpto(accepted, times[|times| - 1])) && (|times| == 0 ==> accepted == [])
            && forall from :: CountIn(accepted, from, RATE_WINDOW) <= RATE_MAX
  {
    if |times| > 0 {
      var before, now := times[..|times| - 1], times[|times| - 1];
      UserIsExact(before);
      var (hits, accepted) := Calls(before);
      hide Calls;
      if |before| > 0 {
        assert before[|before| - 1] == times[|times| - 2] <= now;
        FreshTwice(accepted, before[|before| - 1], now);
      }
      assert Fresh(hits, now) == Fresh(accepted, now);
      hide Fresh;
      FreshAppend(accepted, now, now);
      forall from ensures CountIn(accepted + [now], from, RATE_WINDOW) <= RATE_MAX || |Fresh(hits, now)| >= RATE_MAX {
        CountAppend(accepted, now, from, RATE_WINDOW);
        if from <= now < from + RATE_WINDOW { WindowIsFresh(accepted, now, from); }
      }
      CallsStep(times);
    }
  }

  lemma CallsStep(times: seq<real>)
    requires |times| > 0
    ensures var (hits, accepted) := Calls(times[..|times| - 1]);
            var (hits', ok) := Visit(hits, times[|times| - 1]);
            Calls(times) == (hits', if ok then accepted + [times[|times| - 1]] else accepted)
  {
    hide Visit;
  }

  lemma UserRejectedIff(times: seq<real>)
    requires Rising(times) && |times| > 0
    ensures var before, now := times[..|times| - 1], times[|times| - 1];
            Visit(Calls(before).0, now).1 <==> |Fresh(Calls(before).1, now)| < RATE_MAX
  {
    var before, now := times[..|times| - 1], times[|times| - 1];
    UserIsExact(before);
    var (hits, accepted) := Calls(before);
    hide Calls;
    if |before| > 0 {
      assert before[|before| - 1] == times[|times| - 2] <= now;
      FreshTwice(accepted, before[|before| - 1], now);
    }
  }

  // ----- calls of many users, in the order they come

  datatype Call = Call(uid: string, now: real)

  function Handle(rate: Rates, c: Call): (Rates, bool) {
    var (hits, ok) := Visit(HitsOf(rate, c.uid), c.now);
    (rate[c.uid := hits], ok)
  }

  /** The table after the calls, and the calls accepted. */
  function HandleAll(calls: seq<Call>): (Rates, seq<Call>) {
    if |calls| == 0 then (map[], [])
    else
      var (rate, accepted) := HandleAll(calls[..|calls| - 1]);
      var c := calls[|calls| - 1];
      var (rate', ok) := Handle(rate, c);
      (rate', if ok then accepted + [c] else accepted)
  }

  /** When a user's calls come. */
  function TimesOf(calls: seq<Call>, uid: string): seq<real> {
    if |calls| == 0 then []
    else
      TimesOf(calls[..|calls| - 1], uid) + (if calls[|calls| - 1].uid == uid then [calls[|calls| - 1].now] else [])
  }

  lemma TimesAppend(calls: seq<Call>, c: Call, uid: string)
    ensures TimesOf(calls + [c], uid) == TimesOf(calls, uid) + (if c.uid == uid then [c.now] else [])
  {
    assert (calls + [c])[..|calls|] == calls;
  }

  lemma CallsAppend(times: seq<real>, now: real)
    ensures var (hits, accepted) := Calls(times);
            var (hits', ok) := Visit(hits, now);
            Calls(times + [now]) == (hits', if ok then accepted + [now] else accepted)
  {
    assert (times + [now])[..|times|] == times;
    CallsStep(times + [now]);
    hide Calls;
  }

  lemma HandleStep(calls: seq<Call>, c: Call)
    ensures var (rate, accepted) := HandleAll(calls);
            var (hits, ok) := Visit(HitsOf(rate, c.uid), c.now);
            HandleAll(calls + [c]) == (rate[c.uid := hits], if ok then accepted + [c] else accepted)
  {
    hide Visit, HitsOf;
    assert (calls + [c])[..|calls|] == calls;
  }

  lemma HitsMoved(rate: Rates, uid: string, hits: seq<real>, u: string)
    ensures HitsOf(rate[uid := hits], u) == if u == uid then hits else HitsOf(rate, u)
  {
  }

  /** What a user's calls come to does not depend on the calls of the others. */
  ghost predicate Separate(calls: seq<Call>, uid: string) {
    var (rate, accepted) := HandleAll(calls);
    HitsOf(rate, uid) == Calls(TimesOf(calls, uid)).0 && TimesOf(accepted, uid) == Calls(TimesOf(calls, uid)).1
  }

  lemma OwnCall(calls: seq<Call>, c: Call)
    requires Separate(calls, c.uid)
    ensures Separate(calls + [c], c.uid)
  {
    hide HandleAll, TimesOf, HitsOf, Visit, Calls;
    var (rate, accepted) := HandleAll(calls);
    HandleStep(calls, c);
    HitsMoved(rate, c.uid, Visit(HitsOf(rate, c.uid), c.now).0, c.uid);
    TimesAppend(accepted, c, c.uid);
    TimesAppend(calls, c, c.uid);
    CallsAppend(TimesOf(calls, c.uid), c.now);
  }

  lemma OthersCall(calls: seq<Call>, c: Call, uid: string)
    requires Separate(calls, uid) && c.uid != uid
    ensures Separate(calls + [c], uid)
  {
    hide HandleAll, TimesOf, HitsOf, Visit, Calls;
    var (rate, accepted) := HandleAll(calls);
    HandleStep(calls, c);
    HitsMoved(rate, c.uid, Visit(HitsOf(rate, c.uid), c.now).0, uid);
    TimesAppend(accepted, c, uid);
    TimesAppend(calls, c, uid);
    assert TimesOf(accepted, uid) + [] == TimesOf(accepted, uid) && TimesOf(calls, uid) + [] == TimesOf(calls, uid);
  }

  lemma NoCalls(uid: string)
    ensures Separate([], uid)
  {
  }

  lemma {:induction false} UsersAreApart(calls: seq<Call>, uid: string)
    ensures Separate(calls, uid)
  {
    hide *;
    if |calls| == 0 {
      NoCalls(uid);
      assert calls == [];
    } else {
      var before, c := calls[..|calls| - 1], calls[|calls| - 1];
      UsersAreApart(before, uid);
      assert before + [c] == calls;
      if c.uid == uid { OwnCall(before, c); } else { OthersCall(before, c, uid); }
    }
  }

  predicate InTime(calls: seq<Call>) {
    forall i, j :: 0 <= i <= j < |calls| ==> calls[i].now <= calls[j].now
  }

  lemma {:induction false} TimesRise(calls: seq<Call>, uid: string)
    requires InTime(calls)
    ensures Rising(TimesOf(calls, uid)) && (|calls| > 0 ==> AllUpto(TimesOf(calls, uid), calls[|calls| - 1].now))
  {
    if |calls| > 0 {
      var before := calls[..|calls| - 1];
      TimesRise(before, uid);
      if |before| > 0 { assert before[|before| - 1].now <= calls[|calls| - 1].now; }
    }
  }

  /** Calls of any users in any order, on a clock that does not go back: no user has
      more than 20 accepted calls in any window of 60 seconds, nor more than 20 times
      in the table, which holds exactly those accepted within a window of the user's
      latest call. */
  lemma LimiterIsExact(calls: seq<Call>, uid: string)
    requires InTime(calls)
    ensures var (rate, accepted) := HandleAll(calls);
            && |HitsOf(rate, uid)| <= 20
            && (forall from :: CountIn(TimesOf(accepted, uid), from, 60.0) <= 20)
            && var times := TimesOf(calls, uid);
               |times| > 0 ==> HitsOf(rate, uid) == Fresh(TimesOf(accepted, uid), times[|times| - 1])
  {
    hide HandleAll, TimesOf, Calls, CountIn, Fresh, HitsOf;
    UsersAreApart(calls, uid);
    TimesRise(calls, uid);
    UserIsExact(TimesOf(calls, uid));
  }

  /** How many of the times lie after `since`. */
  function CountAfter(times: seq<real>, since: real): nat {
    if |times| == 0 then 0 else CountAfter(times[..|times| - 1], since) + if times[|times| - 1] > since then 1 else 0
  }

  lemma {:induction false} FreshCount(times: seq<real>, now: real)
    ensures |Fresh(times, now)| == CountAfter(times, now - 60.0)
  {
    if |times| > 0 { FreshCount(times[..|times| - 1], now); }
  }

  /** A call is rejected exactly when 20 accepted calls of its own user lie less than a
      window back. */
  lemma RejectedIff(calls: seq<Call>, c: Call)
    requires InTime(calls + [c])
    ensures Handle(HandleAll(calls).0, c).1 <==> CountAfter(TimesOf(HandleAll(calls).1, c.uid), c.now - 60.0) < 20
  {
    hide HandleAll, TimesOf, Calls, Fresh, Visit, HitsOf, CountAfter;
    UsersAreApart(calls, c.uid);
    TimesAppend(calls, c, c.uid);
    TimesRise(calls + [c], c.uid);
    var times := TimesOf(calls, c.uid);
    assert (times + [c.now])[..|times|] == times;
    UserRejectedIff(times + [c.now]);
    FreshCount(TimesOf(HandleAll(calls).1, c.uid), c.now);
  }

  // ----- Throttle

  type Delay = d: real | d >= 0.0

  /** `time_fn` and `sleep_fn`: some time passes at every call, of which the n-th lasts
      `drift(n)` longer than asked. */
  class Clock {
    const drift: nat -> Delay
    var calls: nat
    var now: real
    var slept: real

    constructor (drift: nat -> Delay, now: real)
      ensures this.drift == drift && this.now == now && slept == 0.0
    {
      this.drift, this.now, calls, slept := drift, now, 0, 0.0;
    }

    method Time() returns (t: real)
      modifies this
      ensures t == now == old(now) + drift(old(calls)) && slept == old(slept)
    {
      t := now + drift(calls);
      now, calls := t, calls + 1;
    }

    method Sleep(d: real)
      requires d > 0.0
      modifies this
      ensures now == old(now) + d + drift(old(calls)) && slept == old(slept) + d
    {
      now, calls, slept := now + d + drift(calls), calls + 1, slept + d;
    }
  }

  /** `last + gap - now`, None for -inf. */
  function Deficit(last: Option<real>, gap: real, now: real): Option<real> {
    if last == None then None else Some(last.value + gap - now)
  }

  function Larger(a: Option<real>, b: Option<real>): Option<real> {
    if a == None then b else if b == None || a.value >= b.value then a else b
  }

  /** A send may go out. */
  predicate Clear(last: Option<real>, gap: real, at: real) {
    last != None ==> at >= last.value + gap
  }

  datatype Send = Send(chat: int, at: real)

  /** Sends are `gmin` apart, and those of one chat `cmin` apart. */
  predicate Spaced(sends: seq<Send>, gmin: real, cmin: real) {
    forall i, j :: 0 <= i < j < |sends| ==>
      && sends[j].at >= sends[i].at + gmin
      && (sends[i].chat == sends[j].chat ==> sends[j].at >= sends[i].at + cmin)
  }

  function LastOfChat(sends: seq<Send>, chat: int): Option<real> {
    if |sends| == 0 then None
    else if sends[|sends| - 1].chat == chat then Some(sends[|sends| - 1].at)
    else LastOfChat(sends[..|sends| - 1], chat)
  }

  class Throttle {
    const gmin: real
    const cmin: real
    var lastGlobal: Option<real>
    var lastChat: map<int, real>
    ghost var sends: seq<Send>

    function LastOf(chat: int): Option<real>
      reads this
    {
      if chat in lastChat then Some(lastChat[chat]) else None
    }

    ghost predicate Valid()
      reads this
    {
      && gmin >= 0.0 && cmin >= 0.0 && Spaced(sends, gmin, cmin)
      && lastGlobal == (if |sends| == 0 then None else Some(sends[|sends| - 1].at))
      && forall chat :: LastOf(chat) == LastOfChat(sends, chat)
    }

    constructor (globalPerSec: real, perChatPerSec: real)
      ensures Valid() && sends == []
      ensures gmin == Gap(globalPerSec) && cmin == Gap(perChatPerSec)
    {
      gmin, cmin := Gap(globalPerSec), Gap(perChatPerSec);
      lastGlobal, lastChat, sends := None, map[], [];
    }

    method Record(chat: int, at: real)
      requires Valid() && Clear(lastGlobal, gmin, at) && Clear(LastOf(chat), cmin, at)
      modifies this
      ensures Valid() && sends == old(sends) + [Send(chat, at)]
    {
      SpacedMore(sends, gmin, cmin, chat, at);
      forall c ensures LastOfChat(sends + [Send(chat, at)], c) == if c == chat then Some(at) else LastOfChat(sends, c) {
        assert (sends + [Send(chat, at)])[..|sends|] == sends;
      }
      hide Spaced;
      lastGlobal := Some(at);
      lastChat := lastChat[chat := at];
      sends := sends + [Send(chat, at)];
    }

    /** `wait`: sends as soon as both gaps allow, having slept no longer than needed. */
    method Wait(clock: Clock, chat: int) returns (sent: real, ghost read: real)
      requires Valid()
      modifies this, clock
      ensures Valid() && sends == old(sends) + [Send(chat, sent)]
      ensures Clear(old(lastGlobal), gmin, sent) && Clear(old(LastOf(chat)), cmin, sent)
      ensures old(clock.now) <= read <= sent == clock.now
      ensures old(Clear(lastGlobal, gmin, read) && Clear(LastOf(chat), cmin, read)) ==> sent == read
      ensures forall at :: at >= read && Clear(old(lastGlobal), gmin, at) && Clear(old(LastOf(chat)), cmin, at)
                ==> clock.slept - old(clock.slept) <= at - read
    {
      hide Spaced, LastOfChat, Valid;
      sent := clock.Time();
      read := sent;
      var wait := Larger(Deficit(lastGlobal, gmin, sent), Deficit(LastOf(chat), cmin, sent));
      if wait != None && wait.value > 0.0 {
        clock.Sleep(wait.value);
        sent := clock.Time();
      }
      Record(chat, sent);
    }
  }

  /** Time between two sends at `perSec` sends a second; none without a limit. */
  function Gap(perSec: real): (gap: real)
    ensures gap >= 0.0 && (if perSec > 0.0 then gap * perSec == 1.0 else gap == 0.0)
  {
    if perSec > 0.0 then 1.0 / perSec else 0.0
  }

  lemma {:induction false} LastOfChatIsLatest(sends: seq<Send>, gmin: real, cmin: real, chat: int, i: nat)
    requires Spaced(sends, gmin, cmin) && cmin >= 0.0 && i < |sends| && sends[i].chat == chat
    ensures LastOfChat(sends, chat).Some? && LastOfChat(sends, chat).value >= sends[i].at
  {
    if sends[|sends| - 1].chat != chat { LastOfChatIsLatest(sends[..|sends| - 1], gmin, cmin, chat, i); }
  }

  /** A send far enough from the last one, and from its chat's last one, is far enough from all. */
  lemma SpacedMore(sends: seq<Send>, gmin: real, cmin: real, chat: int, at: real)
    requires Spaced(sends, gmin, cmin) && gmin >= 0.0 && cmin >= 0.0
    requires |sends| > 0 ==> at >= sends[|sends| - 1].at + gmin
    requires LastOfChat(sends, chat).Some? ==> at >= LastOfChat(sends, chat).value + cmin
    ensures Spaced(sends + [Send(chat, at)], gmin, cmin)
  {
    forall i | 0 <= i < |sends|
      ensures at >= sends[i].at + gmin && (sends[i].chat == chat ==> at >= sends[i].at + cmin)
    {
      if sends[i].chat == chat { LastOfChatIsLatest(sends, gmin, cmin, chat, i); }
    }
  }

  function Times(sends: seq<Send>): seq<real> {
    seq(|sends|, i requires 0 <= i < |sends| => sends[i].at)
  }

  predicate Apart(times: seq<real>, gap: real) {
    forall i :: 0 < i < |times| ==> times[i] >= times[i - 1] + gap
  }

  /** The n times of a window span at least n - 1 gaps. */
  lemma {:induction false} WindowSpans(times: seq<real>, gap: real, from: real, length: real)
    requires Apart(times, gap) && gap >= 0.0
    ensures var n := CountIn(times, from, length);
            n > 0 ==> |times| > 0 && from + (n - 1) as real * gap <= times[|times| - 1]
                      && (from + (n - 1) as real * gap < from + length)
  {
    if |times| > 0 {
      var init, t := times[..|times| - 1], times[|times| - 1];
      WindowSpans(init, gap, from, length);
      var n := CountIn(init, from, length);
      if n > 0 {
        assert (n - 1) as real * gap + gap == n as real * gap;
      }
    }
  }

  /** Any half-open window of length L holds at most floor(L / gmin) + 1 sends. */
  lemma WindowHolds(sends: seq<Send>, gmin: real, cmin: real, from: real, length: real)
    requires Spaced(sends, gmin, cmin) && gmin > 0.0 && length >= 0.0
    ensures CountIn(Times(sends), from, length) <= (length / gmin).Floor + 1
  {
    WindowSpans(Times(sends), gmin, from, length);
    var n := CountIn(Times(sends), from, length);
    hide CountIn;
    if n > 0 { QuotientExceeds((n - 1) as real, gmin, length); }
  }

  lemma QuotientExceeds(x: real, gap: real, length: real)
    requires gap > 0.0 && x * gap < length
    ensures x < length / gap
  {
    assert length / gap * gap == length;
    ProductRises(length / gap, x, gap);
  }

  lemma ProductRises(x: real, y: real, z: real)
    requires z > 0.0
    ensures x <= y ==> x * z <= y * z
  {
    if x <= y { assert (y - x) * z >= 0.0; }
  }
}
