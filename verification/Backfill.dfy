/** Resumable backfill of arc-intel/indexer/backfill.py: range splitting,
    bounded retries, gap rows and a cursor written once per chunk. */
module Backfill {
  import opened Text
  import opened Ingest

  // ----- errors

  datatype ErrorKind = RateLimit | ResultLimit | Other

  const RATE_LIMIT_HINTS: seq<string> := ["rate limit", "too many requests", "429", "403", "forbidden"]
  const RESULT_LIMIT_HINTS: seq<string> := ["max allowed range", "max results", "exceeds", "more than"]

  predicate Hinted(message: string, hints: seq<string>) {
    exists hint | hint in hints :: Contains(Lower(message), hint)
  }

  function ClassifyRpcError(message: string): ErrorKind {
    if Hinted(message, RATE_LIMIT_HINTS) then RateLimit
    else if Hinted(message, RESULT_LIMIT_HINTS) then ResultLimit
    else Other
  }

  lemma ContainsPart(a: string, needle: string, b: string)
    ensures Contains(Lower(a + needle + b), Lower(needle))
  {
    var whole := Lower(a + needle + b);
    var i := |a|;
    forall k | 0 <= k < |needle| ensures whole[i..i + |needle|][k] == Lower(needle)[k] {
      assert (a + needle + b)[i + k] == needle[k];
    }
    assert MatchesAt(whole, Lower(needle), i);
  }

  /** A rate-limit hint anywhere in a message, in any letter case, decides: whatever
      else the message says, the range is retried and not split. */
  lemma RateHintWins(a: string, hint: string, b: string)
    requires Lower(hint) in ["rate limit", "too many requests", "429", "403", "forbidden"]
    ensures ClassifyRpcError(a + hint + b) == RateLimit
  {
    ContainsPart(a, hint, b);
    hide Contains, Lower;
  }

  /** A result-limit hint decides exactly when no rate-limit hint stands beside it. */
  lemma ResultHintDecidesIff(a: string, hint: string, b: string)
    requires Lower(hint) in ["max allowed range", "max results", "exceeds", "more than"]
    ensures ClassifyRpcError(a + hint + b) == ResultLimit
       <==> forall rate :: rate in RATE_LIMIT_HINTS ==> !Contains(Lower(a + hint + b), rate)
  {
    ContainsPart(a, hint, b);
    hide Contains, Lower;
  }

  function Reason(kind: ErrorKind): string {
    match kind
    case RateLimit => "rate_limit"
    case ResultLimit => "result_limit"
    case Other => "other"
  }

  /** The recorded reason names the class of the error. */
  lemma ReasonsDiffer(a: ErrorKind, b: ErrorKind)
    ensures Reason(a) == Reason(b) <==> a == b
    ensures Reason(a) == "rate_limit" <==> a == RateLimit
    ensures Reason(a) == "result_limit" <==> a == ResultLimit
    ensures Reason(a) == "other" <==> a == Other
  {
    assert |"rate_limit"| == 10 && |"result_limit"| == 12 && |"other"| == 5;
  }

  // ----- the node

  /** What one call does: serve the range, or raise an error with some message. */
  datatype Reply = Served | Raised(message: string)

  /** The reply asks for a smaller range. */
  predicate TooMany(reply: Reply) {
    reply.Raised? && ClassifyRpcError(reply.message) == ResultLimit
  }

  type Chain = (Topic, int) -> seq<Log>

  /** The logs of blocks a..b in block order. */
  function LogsOf(chain: Chain, topic: Topic, a: int, b: int): seq<Log>
    decreases b - a
  {
    if a > b then [] else LogsOf(chain, topic, a, b - 1) + chain(topic, b)
  }

  lemma {:induction false} LogsOfBlock(chain: Chain, topic: Topic, a: int, b: int, k: int, log: Log)
    requires a <= k <= b && log in chain(topic, k)
    ensures log in LogsOf(chain, topic, a, b)
    decreases b - a
  {
    if k < b { LogsOfBlock(chain, topic, a, b - 1, k, log); }
  }

  lemma {:induction false} LogsOfOnly(chain: Chain, topic: Topic, a: int, b: int, log: Log)
    requires log in LogsOf(chain, topic, a, b)
    ensures exists k :: a <= k <= b && log in chain(topic, k)
    decreases b - a
  {
    if log !in chain(topic, b) { LogsOfOnly(chain, topic, a, b - 1, log); }
  }

  /** One call: the logs of a topic over blocks lo..hi. */
  datatype Ask = Ask(topic: Topic, lo: int, hi: int)

  /** The RPC node: each call is answered as the script says, and a served call
      returns exactly the logs of its range. */
  class Source {
    const chain: Chain
    const script: nat -> Reply
    var calls: nat
    ghost var asked: seq<Ask>

    /** Every call made so far is on record. */
    ghost predicate Valid()
      reads this
    {
      |asked| == calls
    }

    constructor (chain: Chain, script: nat -> Reply)
      ensures Valid() && calls == 0 && this.chain == chain && this.script == script
    {
      this.chain := chain;
      this.script := script;
      calls, asked := 0, [];
    }

    method Logs(topic: Topic, a: int, b: int) returns (reply: Reply, logs: seq<Log>)
      requires Valid()
      modifies this
      ensures Valid() && asked == old(asked) + [Ask(topic, a, b)] && reply == script(old(calls))
      ensures logs == if reply.Served? then LogsOf(chain, topic, a, b) else []
    {
      reply := script(calls);
      calls, asked := calls + 1, asked + [Ask(topic, a, b)];
      logs := if reply.Served? then LogsOf(chain, topic, a, b) else [];
    }
  }

  class Storage {
    var db: Db

    constructor (db: Db)
      ensures this.db == db
    {
      this.db := db;
    }

    method InsertGap(gap: Gap, attempts: nat)
      modifies this
      ensures db == Apply(old(db), PutGap(gap, attempts))
    {
      if gap !in db.gaps { db := db.(gaps := db.gaps[gap := attempts]); }
    }

    method InsertRowsOf(topic: Topic, logs: seq<Log>)
      modifies this
      ensures db == Apply(old(db), PutRows(topic, logs))
    {
      var rows := db.rows;
      for i := 0 to |logs|
        invariant rows == InsertRows(db.rows, topic, logs[..i]) && db == old(db)
      {
        assert logs[..i + 1][..i] == logs[..i];
        var k := (topic, KeyOf(topic, logs[i]));
        if Decodes(topic, logs[i]) && k !in rows { rows := rows[k := logs[i]]; }
      }
      assert logs[..|logs|] == logs;
      db := db.(rows := rows);
    }

    method SetCursor(job: string, block: int)
      modifies this
      ensures db == Apply(old(db), PutCursor(job, block))
    {
      db := db.(cursor := db.cursor[job := block]);
    }
  }

  // ----- tilings

  /** How a subrange ended after a number of attempts. */
  datatype Outcome = Fetched(attempts: nat) | GivenUp(kind: ErrorKind, attempts: nat)

  datatype Part = Part(lo: int, hi: int, outcome: Outcome)
  {
    predicate Served() { outcome.Fetched? }
  }

  /** Consecutive, non-empty subranges from a to b. */
  predicate Tiles(parts: seq<Part>, a: int, b: int) {
    && |parts| > 0 && parts[0].lo == a && parts[|parts| - 1].hi == b
    && (forall i :: 0 <= i < |parts| ==> parts[i].lo <= parts[i].hi)
    && forall i :: 0 <= i < |parts| - 1 ==> parts[i].hi + 1 == parts[i + 1].lo
  }

  /** The logs of the served parts, in order. */
  function ServedLogs(chain: Chain, topic: Topic, parts: seq<Part>): seq<Log> {
    if |parts| == 0 then []
    else
      var p := parts[|parts| - 1];
      ServedLogs(chain, topic, parts[..|parts| - 1]) + (if p.Served() then LogsOf(chain, topic, p.lo, p.hi) else [])
  }

  /** The commits t are one gap row for each part that was not served, in order. */
  predicate GapRows(parts: seq<Part>, job: string, t: seq<Commit>) {
    if |parts| == 0 then t == []
    else
      var p := parts[|parts| - 1];
      if p.Served() then GapRows(parts[..|parts| - 1], job, t)
      else
        && |t| > 0 && t[|t| - 1] == PutGap(Gap(job, p.lo, p.hi, Reason(p.outcome.kind)), p.outcome.attempts)
        && GapRows(parts[..|parts| - 1], job, t[..|t| - 1])
  }

  lemma {:induction false} ServedLogsConcat(chain: Chain, topic: Topic, p: seq<Part>, q: seq<Part>)
    ensures ServedLogs(chain, topic, p + q) == ServedLogs(chain, topic, p) + ServedLogs(chain, topic, q)
  {
    if |q| == 0 {
      assert p + q == p;
    } else {
      assert (p + q)[..|p + q| - 1] == p + q[..|q| - 1];
      ServedLogsConcat(chain, topic, p, q[..|q| - 1]);
    }
  }

  lemma {:induction false} GapRowsConcat(p: seq<Part>, q: seq<Part>, job: string, s: seq<Commit>, t: seq<Commit>)
    requires GapRows(p, job, s) && GapRows(q, job, t)
    ensures GapRows(p + q, job, s + t)
  {
    if |q| == 0 {
      assert p + q == p && s + t == s;
    } else {
      assert (p + q)[..|p + q| - 1] == p + q[..|q| - 1];
      if q[|q| - 1].Served() {
        GapRowsConcat(p, q[..|q| - 1], job, s, t);
      } else {
        assert (s + t)[..|s + t| - 1] == s + t[..|t| - 1];
        GapRowsConcat(p, q[..|q| - 1], job, s, t[..|t| - 1]);
      }
    }
  }

  lemma TilesConcat(p: seq<Part>, q: seq<Part>, a: int, mid: int, b: int)
    requires Tiles(p, a, mid) && Tiles(q, mid + 1, b)
    ensures Tiles(p + q, a, b)
  {
    var r := p + q;
    forall i | 0 <= i < |r| - 1 ensures r[i].hi + 1 == r[i + 1].lo {
      if i < |p| - 1 {
        assert r[i] == p[i] && r[i + 1] == p[i + 1];
      } else if i >= |p| {
        assert r[i] == q[i - |p|] && r[i + 1] == q[i - |p| + 1];
      }
    }
  }

  lemma {:induction false} TileOf(parts: seq<Part>, a: int, b: int, k: int)
    requires Tiles(parts, a, b) && a <= k <= b
    ensures exists i :: 0 <= i < |parts| && parts[i].lo <= k <= parts[i].hi
  {
    var n := |parts| - 1;
    if k < parts[n].lo {
      assert n > 0;
      assert parts[n - 1].hi + 1 == parts[n].lo;
      TileOf(parts[..n], a, parts[n - 1].hi, k);
      var i :| 0 <= i < n && parts[..n][i].lo <= k <= parts[..n][i].hi;
      assert parts[i].lo <= k <= parts[i].hi;
    }
  }

  // ----- _fetch_topic_logs

  /** Calls needed at most for n blocks: 2n - 1 ranges, each tried maxRetries + 1 times. */
  function CallBudget(n: nat, maxRetries: nat): int {
    (2 * n - 1) * (maxRetries + 1)
  }

  lemma BudgetSplits(l: nat, r: nat, maxRetries: nat)
    ensures CallBudget(l, maxRetries) + CallBudget(r, maxRetries) + (maxRetries + 1) == CallBudget(l + r, maxRetries)
  {
  }

  lemma BudgetGrows(n: nat, maxRetries: nat)
    requires n >= 1
    ensures CallBudget(n, maxRetries) >= maxRetries + 1
  {
  }

  /** Both halves of a split are non-empty and smaller, for every range that is
      split, exactly when min_size is at least 1; otherwise a one-block range
      splits into itself. */
  lemma SplitShrinksIffMinSizePositive(minSize: int)
    ensures (forall a: int, b: int {:trigger Mid(a, b)} :: a <= b && b - a + 1 > minSize ==> a <= Mid(a, b) < b) <==> minSize >= 1
  {
    if minSize < 1 {
      assert Mid(0, 0) == 0;
    }
  }

  function Mid(a: int, b: int): int {
    (a + b) / 2
  }

  // ----- what the calls were for

  /** Calls n .. n + attempts - 1 asked for the range, and all but the last met an
      error that calls for a retry. */
  ghost predicate Tried(script: nat -> Reply, asked: seq<Ask>, ask: Ask, n: nat, attempts: nat) {
    && attempts >= 1 && n + attempts <= |asked|
    && (forall i :: n <= i < n + attempts ==> asked[i] == ask)
    && forall i :: n <= i < n + attempts - 1 ==> script(i).Raised? && !TooMany(script(i))
  }

  /** The last of these calls ended the range as the part says. */
  ghost predicate Ended(script: nat -> Reply, p: Part, n: nat, minSize: int, maxRetries: nat) {
    var last := n + p.outcome.attempts - 1;
    && p.outcome.attempts >= 1 && p.outcome.attempts <= maxRetries + 1
    && match p.outcome
       case Fetched(_) => script(last).Served?
       case GivenUp(kind, attempts) =>
         && script(last).Raised? && kind == ClassifyRpcError(script(last).message)
         && if kind == ResultLimit then p.hi - p.lo + 1 <= minSize else attempts == maxRetries + 1
  }

  /** A part has calls from `from` on that account for it. */
  ghost predicate Justified(script: nat -> Reply, asked: seq<Ask>, from: nat, topic: Topic, p: Part, minSize: int, maxRetries: nat) {
    exists n :: from <= n && Tried(script, asked, Ask(topic, p.lo, p.hi), n, p.outcome.attempts)
                && Ended(script, p, n, minSize, maxRetries)
  }

  /** A reply the node served is one of the served parts. */
  ghost predicate Used(ask: Ask, topic: Topic, parts: seq<Part>) {
    exists i :: 0 <= i < |parts| && parts[i].Served() && ask == Ask(topic, parts[i].lo, parts[i].hi)
  }

  ghost predicate IsPart(ask: Ask, topic: Topic, parts: seq<Part>) {
    exists i :: 0 <= i < |parts| && ask == Ask(topic, parts[i].lo, parts[i].hi)
  }

  /** The node called the range too large, and it was large enough to split. */
  ghost predicate Split(script: nat -> Reply, asked: seq<Ask>, from: nat, ask: Ask, minSize: int) {
    exists n :: from <= n < |asked| && asked[n] == ask && TooMany(script(n)) && ask.hi - ask.lo + 1 > minSize
  }

  /** Every part is justified by its calls, every served reply from `from` on is used,
      and every range asked for is a part or was split for being too large. */
  ghost predicate Accounts(script: nat -> Reply, asked: seq<Ask>, from: nat, topic: Topic, parts: seq<Part>,
                           minSize: int, maxRetries: nat)
  {
    && (forall i :: 0 <= i < |parts| ==> Justified(script, asked, from, topic, parts[i], minSize, maxRetries))
    && (forall n :: from <= n < |asked| && script(n).Served? ==> Used(asked[n], topic, parts))
    && (forall n :: from <= n < |asked| ==> IsPart(asked[n], topic, parts) || Split(script, asked, from, asked[n], minSize))
  }

  /** Later calls do not take a justification away. */
  lemma JustifiedStays(script: nat -> Reply, asked: seq<Ask>, asked': seq<Ask>, from: nat, from': nat, topic: Topic, p: Part,
                       minSize: int, maxRetries: nat)
    requires asked <= asked' && from' <= from && Justified(script, asked, from, topic, p, minSize, maxRetries)
    ensures Justified(script, asked', from', topic, p, minSize, maxRetries)
  {
    hide Ended;
    var n :| from <= n && Tried(script, asked, Ask(topic, p.lo, p.hi), n, p.outcome.attempts) && Ended(script, p, n, minSize, maxRetries);
    assert Tried(script, asked', Ask(topic, p.lo, p.hi), n, p.outcome.attempts);
  }

  lemma UsedInEither(ask: Ask, topic: Topic, p: seq<Part>, q: seq<Part>)
    ensures Used(ask, topic, p) || Used(ask, topic, q) ==> Used(ask, topic, p + q)
  {
    if Used(ask, topic, p) {
      var i :| 0 <= i < |p| && p[i].Served() && ask == Ask(topic, p[i].lo, p[i].hi);
      assert (p + q)[i] == p[i];
    }
    if Used(ask, topic, q) {
      var i :| 0 <= i < |q| && q[i].Served() && ask == Ask(topic, q[i].lo, q[i].hi);
      assert (p + q)[|p| + i] == q[i];
    }
  }

  lemma PartOfEither(ask: Ask, topic: Topic, p: seq<Part>, q: seq<Part>)
    ensures IsPart(ask, topic, p) || IsPart(ask, topic, q) ==> IsPart(ask, topic, p + q)
  {
    if IsPart(ask, topic, p) {
      var i :| 0 <= i < |p| && ask == Ask(topic, p[i].lo, p[i].hi);
      assert (p + q)[i] == p[i];
    }
    if IsPart(ask, topic, q) {
      var i :| 0 <= i < |q| && ask == Ask(topic, q[i].lo, q[i].hi);
      assert (p + q)[|p| + i] == q[i];
    }
  }

  lemma SplitStays(script: nat -> Reply, asked: seq<Ask>, asked': seq<Ask>, from: nat, from': nat, ask: Ask, minSize: int)
    requires asked <= asked' && from' <= from && Split(script, asked, from, ask, minSize)
    ensures Split(script, asked', from', ask, minSize)
  {
    hide TooMany;
    var n :| from <= n < |asked| && asked[n] == ask && TooMany(script(n)) && ask.hi - ask.lo + 1 > minSize;
    assert asked'[n] == ask;
  }

  /** Where a range of the joined calls comes from. */
  lemma RangesJoin(script: nat -> Reply, asked: seq<Ask>, left: seq<Ask>, right: seq<Ask>, from: nat, ask: Ask, topic: Topic,
                   p: seq<Part>, q: seq<Part>, minSize: int, maxRetries: nat, n: nat)
    requires from < |asked| && asked <= left <= right && from <= n < |right|
    requires forall i :: from <= i < |asked| ==> asked[i] == ask
    requires TooMany(script(|asked| - 1)) && ask.hi - ask.lo + 1 > minSize
    requires Accounts(script, left, |asked|, topic, p, minSize, maxRetries)
    requires Accounts(script, right, |left|, topic, q, minSize, maxRetries)
    ensures IsPart(right[n], topic, p + q) || Split(script, right, from, right[n], minSize)
  {
    hide Justified, Used, IsPart, TooMany;
    PartOfEither(right[n], topic, p, q);
    if n < |asked| {
      assert right[n] == asked[n] && right[|asked| - 1] == asked[|asked| - 1];
    } else if n < |left| {
      assert right[n] == left[n];
      if !IsPart(left[n], topic, p) { SplitStays(script, left, right, |asked|, from, left[n], minSize); }
    } else if !IsPart(right[n], topic, q) {
      SplitStays(script, right, right, |left|, from, right[n], minSize);
    }
  }

  /** The calls of a split range: none of the first ones was served, the rest belong to
      the halves. */
  lemma AccountsJoin(script: nat -> Reply, asked: seq<Ask>, left: seq<Ask>, right: seq<Ask>, from: nat, ask: Ask,
                     topic: Topic, p: seq<Part>, q: seq<Part>, minSize: int, maxRetries: nat)
    requires from < |asked| && asked <= left <= right
    requires forall n :: from <= n < |asked| ==> script(n).Raised? && asked[n] == ask
    requires TooMany(script(|asked| - 1)) && ask.hi - ask.lo + 1 > minSize
    requires Accounts(script, left, |asked|, topic, p, minSize, maxRetries)
    requires Accounts(script, right, |left|, topic, q, minSize, maxRetries)
    ensures Accounts(script, right, from, topic, p + q, minSize, maxRetries)
  {
    forall n | from <= n < |right| ensures IsPart(right[n], topic, p + q) || Split(script, right, from, right[n], minSize) {
      RangesJoin(script, asked, left, right, from, ask, topic, p, q, minSize, maxRetries, n);
    }
    hide Justified, Used, IsPart, Split, TooMany;
    forall i | 0 <= i < |p + q| ensures Justified(script, right, from, topic, (p + q)[i], minSize, maxRetries) {
      if i < |p| {
        JustifiedStays(script, left, right, |asked|, from, topic, p[i], minSize, maxRetries);
      } else {
        JustifiedStays(script, right, right, |left|, from, topic, q[i - |p|], minSize, maxRetries);
      }
    }
    forall n | from <= n < |right| && script(n).Served? ensures Used(right[n], topic, p + q) {
      UsedInEither(right[n], topic, p, q);
      if n < |left| { assert right[n] == left[n]; }
    }
  }

  /** A range that ended in one piece. */
  lemma AccountsWhole(script: nat -> Reply, asked: seq<Ask>, from: nat, topic: Topic, p: Part, minSize: int, maxRetries: nat)
    requires from + p.outcome.attempts == |asked| && Tried(script, asked, Ask(topic, p.lo, p.hi), from, p.outcome.attempts)
    requires Ended(script, p, from, minSize, maxRetries)
    ensures Accounts(script, asked, from, topic, [p], minSize, maxRetries)
  {
    assert Justified(script, asked, from, topic, p, minSize, maxRetries);
    hide Justified;
    assert [p][0] == p;
    forall n | from <= n < |asked| ensures asked[n] == Ask(topic, p.lo, p.hi) && IsPart(asked[n], topic, [p]) {}
    forall n | from <= n < |asked| && script(n).Served? ensures Used(asked[n], topic, [p]) {}
  }

  lemma {:induction false} TilesRise(parts: seq<Part>, a: int, b: int, i: nat, j: nat)
    requires Tiles(parts, a, b) && i <= j < |parts|
    ensures parts[i].lo <= parts[j].lo && parts[i].hi <= parts[j].hi && (i < j ==> parts[i].hi < parts[j].lo)
    decreases j
  {
    if i < j {
      TilesRise(parts, a, b, i, j - 1);
      assert parts[j - 1].hi + 1 == parts[j].lo;
    }
  }

  lemma OnlyPart(parts: seq<Part>, a: int, b: int, i: nat)
    requires Tiles(parts, a, b) && i < |parts| && parts[i].lo == a && parts[i].hi == b
    ensures |parts| == 1
  {
    TilesRise(parts, a, b, 0, i);
    TilesRise(parts, a, b, i, |parts| - 1);
  }

  lemma FirstReplyServes(script: nat -> Reply, asked: seq<Ask>, from: nat, topic: Topic, p: Part, minSize: int, maxRetries: nat)
    requires forall n :: script(n).Served?
    requires Justified(script, asked, from, topic, p, minSize, maxRetries)
    ensures p.outcome == Fetched(1)
  {
    hide TooMany;
    var n :| from <= n && Tried(script, asked, Ask(topic, p.lo, p.hi), n, p.outcome.attempts) && Ended(script, p, n, minSize, maxRetries);
    assert script(n).Served? && script(n + p.outcome.attempts - 1).Served?;
  }

  lemma NoGapRows(p: Part, job: string, t: seq<Commit>)
    requires p.Served() && GapRows([p], job, t)
    ensures t == []
  {
    assert [p][..0] == [];
  }

  /** When the node serves every call, the range comes back whole from the first one
      and no gap is written. */
  lemma AllServedIsWhole(script: nat -> Reply, asked: seq<Ask>, from: nat, topic: Topic, a: int, b: int, parts: seq<Part>,
                         job: string, t: seq<Commit>, minSize: int, maxRetries: nat)
    requires forall n :: script(n).Served?
    requires from < |asked| && asked[from] == Ask(topic, a, b) && Tiles(parts, a, b) && GapRows(parts, job, t)
    requires Accounts(script, asked, from, topic, parts, minSize, maxRetries)
    ensures parts == [Part(a, b, Fetched(1))] && t == []
  {
    hide Justified, GapRows, Tiles, IsPart, Split;
    assert script(from).Served?;
    assert Used(asked[from], topic, parts);
    var i :| 0 <= i < |parts| && parts[i].Served() && asked[from] == Ask(topic, parts[i].lo, parts[i].hi);
    OnlyPart(parts, a, b, i);
    FirstReplyServes(script, asked, from, topic, parts[i], minSize, maxRetries);
    assert parts == [parts[i]];
    NoGapRows(parts[i], job, t);
  }

  /** The retries of the loop so far: all on the range, all met an error to retry. */
  ghost predicate Retrying(script: nat -> Reply, asked: seq<Ask>, ask: Ask, from: nat, attempt: nat) {
    && |asked| == from + attempt
    && forall i :: from <= i < |asked| ==> asked[i] == ask && script(i).Raised? && !TooMany(script(i))
  }

  lemma RetryStep(script: nat -> Reply, asked: seq<Ask>, ask: Ask, from: nat, attempt: nat)
    requires Retrying(script, asked, ask, from, attempt)
    ensures Tried(script, asked + [ask], ask, from, attempt + 1)
    ensures script(|asked|).Raised? && !TooMany(script(|asked|)) ==> Retrying(script, asked + [ask], ask, from, attempt + 1)
    ensures script(|asked|).Raised? ==>
              forall n :: from <= n < |asked + [ask]| ==> script(n).Raised? && (asked + [ask])[n] == ask
  {
    hide TooMany;
  }

  method FetchTopicLogs(source: Source, topic: Topic, a: int, b: int, job: string, storage: Storage,
                        minSize: int, maxRetries: nat)
    returns (logs: seq<Log>, ghost parts: seq<Part>, ghost t: seq<Commit>)
    requires a <= b && minSize >= 1 && source.Valid()
    modifies source, storage
    ensures source.Valid() && old(source.asked) + [Ask(topic, a, b)] <= source.asked
    ensures Tiles(parts, a, b) && GapRows(parts, job, t)
    ensures logs == ServedLogs(source.chain, topic, parts)
    ensures Accounts(source.script, source.asked, old(source.calls), topic, parts, minSize, maxRetries)
    ensures storage.db == Replay(old(storage.db), t)
    ensures (forall n :: !TooMany(source.script(n))) ==> |parts| == 1
    ensures source.calls <= old(source.calls) + CallBudget(b - a + 1, maxRetries)
    decreases b - a
  {
    hide Hinted, Tiles, GapRows, ServedLogs, Replay, CallBudget, Accounts, Tried, Retrying, Ended;
    var attempt := 0;
    ghost var from, ask := source.calls, Ask(topic, a, b);
    WholePart(source.chain, topic, a, b, job, storage.db);
    BudgetGrows(b - a + 1, maxRetries);
    NoRetries(source.script, source.asked, ask);
    while true
      invariant attempt <= maxRetries && source.Valid() && source.calls == from + attempt
      invariant Retrying(source.script, source.asked, ask, from, attempt)
      invariant old(source.asked) <= source.asked && (attempt > 0 ==> old(source.asked) + [ask] <= source.asked)
      invariant storage.db == old(storage.db)
      decreases maxRetries - attempt
    {
      ghost var before := source.asked;
      RetryStep(source.script, before, ask, from, attempt);
      var reply, served := source.Logs(topic, a, b);
      if reply.Served? {
        parts, t := [Part(a, b, Fetched(attempt + 1))], [];
        FetchedEnds(source.script, source.asked, from, topic, a, b, attempt + 1, minSize, maxRetries);
        return served, parts, t;
      }
      var kind := ClassifyRpcError(reply.message);
      if kind == ResultLimit {
        if b - a + 1 <= minSize {
          GivenUpEnds(source.script, source.asked, from, topic, a, b, ResultLimit, attempt + 1, minSize, maxRetries);
          parts, t := GapOut(storage, job, a, b, ResultLimit, attempt + 1);
          return [], parts, t;
        }
        ghost var tried := source.asked;
        var mid := (a + b) / 2;
        var left, p, s := FetchTopicLogs(source, topic, a, mid, job, storage, minSize, maxRetries);
        ghost var halfway := source.asked;
        var right, q, u := FetchTopicLogs(source, topic, mid + 1, b, job, storage, minSize, maxRetries);
        TilesConcat(p, q, a, mid, b);
        GapRowsConcat(p, q, job, s, u);
        ServedLogsConcat(source.chain, topic, p, q);
        ReplayConcat(old(storage.db), s, u);
        BudgetSplits(mid - a + 1, b - mid, maxRetries);
        AccountsJoin(source.script, tried, halfway, source.asked, from, ask, topic, p, q, minSize, maxRetries);
        return left + right, p + q, s + u;
      }
      if attempt >= maxRetries {
        GivenUpEnds(source.script, source.asked, from, topic, a, b, kind, attempt + 1, minSize, maxRetries);
        parts, t := GapOut(storage, job, a, b, kind, attempt + 1);
        return [], parts, t;
      }
      attempt := attempt + 1;
    }
  }

  lemma NoRetries(script: nat -> Reply, asked: seq<Ask>, ask: Ask)
    ensures Retrying(script, asked, ask, |asked|, 0)
  {
  }

  lemma FetchedEnds(script: nat -> Reply, asked: seq<Ask>, from: nat, topic: Topic, a: int, b: int, attempts: nat,
                    minSize: int, maxRetries: nat)
    requires 1 <= attempts <= maxRetries + 1 && from + attempts == |asked| && script(|asked| - 1).Served?
    requires Tried(script, asked, Ask(topic, a, b), from, attempts)
    ensures Accounts(script, asked, from, topic, [Part(a, b, Fetched(attempts))], minSize, maxRetries)
  {
    hide Tried, Accounts;
    AccountsWhole(script, asked, from, topic, Part(a, b, Fetched(attempts)), minSize, maxRetries);
  }

  lemma GivenUpEnds(script: nat -> Reply, asked: seq<Ask>, from: nat, topic: Topic, a: int, b: int, kind: ErrorKind, attempts: nat,
                    minSize: int, maxRetries: nat)
    requires 1 <= attempts <= maxRetries + 1 && from + attempts == |asked|
    requires script(|asked| - 1).Raised? && kind == ClassifyRpcError(script(|asked| - 1).message)
    requires if kind == ResultLimit then b - a + 1 <= minSize else attempts == maxRetries + 1
    requires Tried(script, asked, Ask(topic, a, b), from, attempts)
    ensures Accounts(script, asked, from, topic, [Part(a, b, GivenUp(kind, attempts))], minSize, maxRetries)
  {
    hide Tried, Accounts, Hinted;
    AccountsWhole(script, asked, from, topic, Part(a, b, GivenUp(kind, attempts)), minSize, maxRetries);
  }

  /** A range in one piece tiles itself; a served one has no gap row. */
  lemma WholePart(chain: Chain, topic: Topic, a: int, b: int, job: string, db: Db)
    requires a <= b
    ensures forall n :: Tiles([Part(a, b, Fetched(n))], a, b) && GapRows([Part(a, b, Fetched(n))], job, [])
    ensures forall n :: ServedLogs(chain, topic, [Part(a, b, Fetched(n))]) == LogsOf(chain, topic, a, b)
    ensures Replay(db, []) == db
  {
    hide LogsOf;
    forall n: nat
      ensures Tiles([Part(a, b, Fetched(n))], a, b) && GapRows([Part(a, b, Fetched(n))], job, [])
      ensures ServedLogs(chain, topic, [Part(a, b, Fetched(n))]) == LogsOf(chain, topic, a, b)
    {
      assert [Part(a, b, Fetched(n))][..0] == [];
    }
  }

  /** `storage.insert_gap(...)` followed by `return []`. */
  method GapOut(storage: Storage, job: string, a: int, b: int, kind: ErrorKind, attempts: nat)
    returns (ghost parts: seq<Part>, ghost t: seq<Commit>)
    requires a <= b
    modifies storage
    ensures parts == [Part(a, b, GivenUp(kind, attempts))] && t == [PutGap(Gap(job, a, b, Reason(kind)), attempts)]
    ensures Tiles(parts, a, b) && GapRows(parts, job, t)
    ensures forall chain, topic :: ServedLogs(chain, topic, parts) == []
    ensures storage.db == Replay(old(storage.db), t)
  {
    storage.InsertGap(Gap(job, a, b, Reason(kind)), attempts);
    parts, t := [Part(a, b, GivenUp(kind, attempts))], [PutGap(Gap(job, a, b, Reason(kind)), attempts)];
    assert parts[..0] == [] && t[..0] == [];
  }

  // ----- what a database must satisfy between runs

  /** Every decodable log of the block is stored under its key, or a gap row of the job spans the block. */
  ghost predicate Covered(chain: Chain, db: Db, job: string, topic: Topic, k: int) {
    || (exists g :: g in db.gaps && g.job == job && g.fromBlock <= k <= g.toBlock)
    || forall log :: log in chain(topic, k) && Decodes(topic, log) ==> (topic, KeyOf(topic, log)) in db.rows
  }

  /** Nothing is stored but decodable logs of the chain, each under its own key. */
  ghost predicate OnlyChainRows(chain: Chain, db: Db) {
    forall e :: e in db.rows ==>
      Decodes(e.0, db.rows[e]) && e.1 == KeyOf(e.0, db.rows[e]) && exists k :: db.rows[e] in chain(e.0, k)
  }

  /** From the start block up to the cursor, all three topics are accounted for. */
  ghost predicate Accounted(chain: Chain, db: Db, job: string, start: int) {
    && OnlyChainRows(chain, db)
    && (job in db.cursor ==> forall topic, k :: start <= k <= db.cursor[job] ==> Covered(chain, db, job, topic, k))
  }

  /** The block a run resumes at: one past the cursor, or the start block. */
  function ResumeBlock(db: Db, job: string, start: int): int {
    if job in db.cursor then db.cursor[job] + 1 else start
  }

  /** What one process does with the node: how calls are answered, its limits, and
      the calls it has made from `from` on. */
  datatype Session = Session(script: nat -> Reply, minSize: int, maxRetries: nat, from: nat, asked: seq<Ask>)

  /** One `_fetch_topic_logs`: its parts, its gap rows, and its calls from..upto-1. */
  datatype Fetch = Fetch(parts: seq<Part>, gaps: seq<Commit>, from: nat, upto: nat)

  ghost predicate Fetches(v: Session, job: string, topic: Topic, a: int, b: int, f: Fetch) {
    && Tiles(f.parts, a, b) && GapRows(f.parts, job, f.gaps) && f.from <= f.upto <= |v.asked|
    && Accounts(v.script, v.asked[..f.upto], f.from, topic, f.parts, v.minSize, v.maxRetries)
  }

  /** The commits of one chunk a..b: gap rows, three batches, the cursor. Its calls are
      those of the session, and are all made for its three fetches. */
  ghost predicate ChunkTrace(chain: Chain, v: Session, job: string, a: int, b: int, t: seq<Commit>) {
    exists f0, f1, f2 :: ChunkParts(chain, v, job, a, b, t, f0, f1, f2)
  }

  ghost predicate ChunkParts(chain: Chain, v: Session, job: string, a: int, b: int, t: seq<Commit>,
                             f0: Fetch, f1: Fetch, f2: Fetch)
  {
    && Fetches(v, job, Initialize, a, b, f0) && Fetches(v, job, Swap, a, b, f1) && Fetches(v, job, Donate, a, b, f2)
    && v.from == f0.from && f0.upto == f1.from && f1.upto == f2.from && f2.upto == |v.asked|
    && t == f0.gaps + f1.gaps + f2.gaps
            + [PutRows(Initialize, ServedLogs(chain, Initialize, f0.parts)),
               PutRows(Swap, ServedLogs(chain, Swap, f1.parts)),
               PutRows(Donate, ServedLogs(chain, Donate, f2.parts)),
               PutCursor(job, b)]
  }

  /** The commits of the chunks that tile blocks first..next-1, in order. */
  ghost predicate Progress(chain: Chain, v: Session, job: string, first: int, next: int, t: seq<Commit>)
    decreases next - first
  {
    if next <= first then next == first && t == [] && v.from == |v.asked|
    else exists mid, n, s, u :: first <= mid < next && LastChunk(chain, v, job, mid, next, n, t, s, u)
                             && Progress(chain, v.(asked := v.asked[..n]), job, first, mid, s)
  }

  ghost predicate LastChunk(chain: Chain, v: Session, job: string, mid: int, next: int, n: int,
                            t: seq<Commit>, s: seq<Commit>, u: seq<Commit>)
  {
    t == s + u && v.from <= n <= |v.asked| && ChunkTrace(chain, v.(from := n), job, mid, next - 1, u)
  }

  /** The commits of one complete run over first..end. */
  ghost predicate RunTrace(chain: Chain, v: Session, job: string, first: int, end: int, t: seq<Commit>) {
    Progress(chain, v, job, first, if end < first then first else end + 1, t)
  }

  // ----- backfill_v4_run

  ghost function SessionOf(source: Source, minSize: int, maxRetries: nat, from: nat): Session
    reads source
  {
    Session(source.script, minSize, maxRetries, from, source.asked)
  }

  method BackfillRun(storage: Storage, source: Source, start: int, end: int, chunk: int, minSize: int,
                     job: string, maxRetries: nat)
    returns (ghost t: seq<Commit>)
    requires chunk >= 1 && minSize >= 1 && source.Valid()
    modifies storage, source
    ensures source.Valid() && old(source.asked) <= source.asked
    ensures storage.db == Replay(old(storage.db), t)
    ensures RunTrace(source.chain, SessionOf(source, minSize, maxRetries, old(source.calls)), job,
                     ResumeBlock(old(storage.db), job, start), end, t)
  {
    hide Apply, Replay, ChunkTrace, Progress;
    var cur := if job in storage.db.cursor then storage.db.cursor[job] + 1 else start;
    var a := cur;
    t := [];
    ghost var from := source.calls;
    ReplayNothing(storage.db);
    NoProgress(source.chain, SessionOf(source, minSize, maxRetries, from), job, cur);
    while a <= end
      invariant cur <= a && (a <= end + 1 || a == cur)
      invariant source.Valid() && from <= source.calls && storage.db == Replay(old(storage.db), t)
      invariant old(source.asked) <= source.asked
      invariant Progress(source.chain, SessionOf(source, minSize, maxRetries, from), job, cur, a, t)
    {
      var b := if a + chunk - 1 < end then a + chunk - 1 else end;
      ghost var before, v := source.asked, SessionOf(source, minSize, maxRetries, from);
      ghost var u := BackfillChunk(storage, source, a, b, minSize, job, maxRetries);
      ReplayConcat(old(storage.db), t, u);
      assert v == SessionOf(source, minSize, maxRetries, from).(asked := source.asked[..|before|]);
      MoreProgress(source.chain, SessionOf(source, minSize, maxRetries, from), job, cur, a, b, |before|, t, u);
      t := t + u;
      a := b + 1;
    }
  }

  lemma NoProgress(chain: Chain, v: Session, job: string, first: int)
    requires v.from == |v.asked|
    ensures Progress(chain, v, job, first, first, [])
  {
  }

  lemma MoreProgress(chain: Chain, v: Session, job: string, first: int, a: int, b: int, n: nat, t: seq<Commit>, u: seq<Commit>)
    requires first <= a <= b && v.from <= n <= |v.asked|
    requires Progress(chain, v.(asked := v.asked[..n]), job, first, a, t)
    requires ChunkTrace(chain, v.(from := n), job, a, b, u)
    ensures Progress(chain, v, job, first, b + 1, t + u)
  {
    hide ChunkTrace;
    assert LastChunk(chain, v, job, a, b + 1, n, t + u, t, u);
  }

  lemma ReplayNothing(db: Db)
    ensures Replay(db, []) == db
  {
  }

  /** The loop body: three fetches, three batches, the cursor. */
  method BackfillChunk(storage: Storage, source: Source, a: int, b: int, minSize: int, job: string, maxRetries: nat)
    returns (ghost t: seq<Commit>)
    requires a <= b && minSize >= 1 && source.Valid()
    modifies storage, source
    ensures source.Valid() && old(source.asked) <= source.asked
    ensures storage.db == Replay(old(storage.db), t)
    ensures ChunkTrace(source.chain, SessionOf(source, minSize, maxRetries, old(source.calls)), job, a, b, t)
  {
    hide Apply, Tiles, GapRows, ServedLogs, Accounts, ChunkTrace;
    ghost var db0 := storage.db;
    ghost var n0 := source.calls;
    var pools, p0, t0 := FetchTopicLogs(source, Initialize, a, b, job, storage, minSize, maxRetries);
    ghost var asked1 := source.asked;
    var swaps, p1, t1 := FetchTopicLogs(source, Swap, a, b, job, storage, minSize, maxRetries);
    ghost var asked2 := source.asked;
    var donates, p2, t2 := FetchTopicLogs(source, Donate, a, b, job, storage, minSize, maxRetries);
    ReplayConcat(db0, t0, t1);
    ReplayConcat(db0, t0 + t1, t2);
    storage.InsertRowsOf(Initialize, pools);
    storage.InsertRowsOf(Swap, swaps);
    storage.InsertRowsOf(Donate, donates);
    storage.SetCursor(job, b);
    ghost var last := [PutRows(Initialize, pools), PutRows(Swap, swaps), PutRows(Donate, donates), PutCursor(job, b)];
    ReplayFour(Replay(db0, t0 + t1 + t2), last);
    ReplayConcat(db0, t0 + t1 + t2, last);
    t := t0 + t1 + t2 + last;
    ThreeFetches(source.chain, SessionOf(source, minSize, maxRetries, n0), job, a, b, t, asked1, asked2, p0, p1, p2, t0, t1, t2);
  }

  lemma ThreeFetches(chain: Chain, v: Session, job: string, a: int, b: int, t: seq<Commit>, asked1: seq<Ask>, asked2: seq<Ask>,
                     p0: seq<Part>, p1: seq<Part>, p2: seq<Part>, t0: seq<Commit>, t1: seq<Commit>, t2: seq<Commit>)
    requires v.from <= |asked1| && asked1 <= asked2 <= v.asked
    requires Tiles(p0, a, b) && Tiles(p1, a, b) && Tiles(p2, a, b)
    requires GapRows(p0, job, t0) && GapRows(p1, job, t1) && GapRows(p2, job, t2)
    requires Accounts(v.script, asked1, v.from, Initialize, p0, v.minSize, v.maxRetries)
    requires Accounts(v.script, asked2, |asked1|, Swap, p1, v.minSize, v.maxRetries)
    requires Accounts(v.script, v.asked, |asked2|, Donate, p2, v.minSize, v.maxRetries)
    requires t == t0 + t1 + t2
                  + [PutRows(Initialize, ServedLogs(chain, Initialize, p0)), PutRows(Swap, ServedLogs(chain, Swap, p1)),
                     PutRows(Donate, ServedLogs(chain, Donate, p2)), PutCursor(job, b)]
    ensures ChunkTrace(chain, v, job, a, b, t)
  {
    hide Tiles, GapRows, ServedLogs, Accounts;
    var f0, f1 := Fetch(p0, t0, v.from, |asked1|), Fetch(p1, t1, |asked1|, |asked2|);
    var f2 := Fetch(p2, t2, |asked2|, |v.asked|);
    assert v.asked[..|asked1|] == asked1 && v.asked[..|asked2|] == asked2 && v.asked[..|v.asked|] == v.asked;
    assert ChunkParts(chain, v, job, a, b, t, f0, f1, f2);
  }

  lemma ReplayFour(db: Db, t: seq<Commit>)
    requires |t| == 4
    ensures Replay(db, t) == Apply(Apply(Apply(Apply(db, t[0]), t[1]), t[2]), t[3])
  {
    hide Apply;
    ReplayThree(db, t[..3]);
  }

  // ----- every crash leaves an accounted database

  /** Commits that never move the cursor and store only what the chain holds. */
  ghost predicate Harmless(chain: Chain, c: Commit) {
    match c
    case PutGap(_, _) => true
    case PutRows(topic, logs) => forall log :: log in logs ==> exists k :: log in chain(topic, k)
    case PutCursor(_, _) => false
  }

  ghost predicate Extends(db: Db, db': Db) {
    && (forall e :: e in db.rows ==> e in db'.rows && db'.rows[e] == db.rows[e])
    && (forall g :: g in db.gaps ==> g in db'.gaps)
    && db'.cursor == db.cursor
  }

  lemma CoveredStays(chain: Chain, db: Db, db': Db, job: string, topic: Topic, k: int)
    requires Covered(chain, db, job, topic, k) && Extends(db, db')
    ensures Covered(chain, db', job, topic, k)
  {
  }

  lemma HarmlessStep(chain: Chain, db: Db, job: string, start: int, c: Commit)
    requires Accounted(chain, db, job, start) && Harmless(chain, c)
    ensures Accounted(chain, Apply(db, c), job, start) && Extends(db, Apply(db, c))
  {
    var db' := Apply(db, c);
    if c.PutRows? {
      InsertRowsContents(db.rows, c.topic, c.logs);
      hide InsertRows, Decodes, KeyOf;
      forall e | e in db'.rows
        ensures Decodes(e.0, db'.rows[e]) && e.1 == KeyOf(e.0, db'.rows[e]) && exists k :: db'.rows[e] in chain(e.0, k)
      {
        if e !in db.rows {
          var i :| 0 <= i < |c.logs| && Decodes(c.topic, c.logs[i]) && e == (c.topic, KeyOf(c.topic, c.logs[i])) && db'.rows[e] == c.logs[i];
          assert c.logs[i] in c.logs;
        }
      }
    }
    hide Covered;
    assert Extends(db, db');
    if job in db'.cursor {
      forall topic, k | start <= k <= db'.cursor[job] ensures Covered(chain, db', job, topic, k) {
        CoveredStays(chain, db, db', job, topic, k);
      }
    }
  }

  lemma {:induction false} HarmlessRun(chain: Chain, db: Db, job: string, start: int, t: seq<Commit>)
    requires Accounted(chain, db, job, start) && forall i :: 0 <= i < |t| ==> Harmless(chain, t[i])
    ensures Accounted(chain, Replay(db, t), job, start) && Extends(db, Replay(db, t))
  {
    if |t| > 0 {
      hide Accounted, Harmless, Apply;
      HarmlessRun(chain, db, job, start, t[..|t| - 1]);
      HarmlessStep(chain, Replay(db, t[..|t| - 1]), job, start, t[|t| - 1]);
    }
  }

  /** After every prefix of the commits the database is accounted for and the cursor has not moved back. */
  ghost predicate SafeThroughout(chain: Chain, db: Db, job: string, start: int, t: seq<Commit>) {
    forall n :: 0 <= n <= |t| ==> SafeAfter(chain, db, Replay(db, t[..n]), job, start)
  }

  ghost predicate SafeAfter(chain: Chain, db: Db, db': Db, job: string, start: int) {
    Accounted(chain, db', job, start) && ResumeBlock(db', job, start) >= ResumeBlock(db, job, start)
  }

  lemma SafeConcat(chain: Chain, db: Db, job: string, start: int, s: seq<Commit>, u: seq<Commit>)
    requires SafeThroughout(chain, db, job, start, s)
    requires SafeThroughout(chain, Replay(db, s), job, start, u)
    ensures SafeThroughout(chain, db, job, start, s + u)
  {
    hide Accounted, Replay, ResumeBlock;
    assert s[..|s|] == s;
    forall n | 0 <= n <= |s + u| ensures SafeAfter(chain, db, Replay(db, (s + u)[..n]), job, start) {
      if n <= |s| {
        assert (s + u)[..n] == s[..n];
      } else {
        assert (s + u)[..n] == s + u[..n - |s|];
        ReplayConcat(db, s, u[..n - |s|]);
      }
    }
  }

  lemma HarmlessIsSafe(chain: Chain, db: Db, job: string, start: int, t: seq<Commit>)
    requires Accounted(chain, db, job, start) && forall i :: 0 <= i < |t| ==> Harmless(chain, t[i])
    ensures SafeThroughout(chain, db, job, start, t)
  {
    hide Accounted, Harmless, Replay;
    forall n | 0 <= n <= |t| ensures SafeAfter(chain, db, Replay(db, t[..n]), job, start) {
      HarmlessRun(chain, db, job, start, t[..n]);
    }
  }

  // ----- a chunk accounts for its blocks

  lemma {:induction false} GapRowsAreHarmless(chain: Chain, parts: seq<Part>, job: string, t: seq<Commit>)
    requires GapRows(parts, job, t)
    ensures forall i :: 0 <= i < |t| ==> t[i].PutGap? && Harmless(chain, t[i])
  {
    if |parts| > 0 {
      if parts[|parts| - 1].Served() {
        GapRowsAreHarmless(chain, parts[..|parts| - 1], job, t);
      } else {
        GapRowsAreHarmless(chain, parts[..|parts| - 1], job, t[..|t| - 1]);
        assert forall i :: 0 <= i < |t| - 1 ==> t[..|t| - 1][i] == t[i];
      }
    }
  }

  ghost predicate Recorded(db: Db, job: string, p: Part) {
    exists g :: g in db.gaps && g.job == job && g.fromBlock == p.lo && g.toBlock == p.hi
  }

  /** Every part that was not served has its gap row. */
  lemma {:induction false} GapRowsRecorded(db: Db, parts: seq<Part>, job: string, t: seq<Commit>)
    requires GapRows(parts, job, t)
    ensures forall i :: 0 <= i < |parts| && !parts[i].Served() ==> Recorded(Replay(db, t), job, parts[i])
  {
    if |parts| > 0 {
      var n := |parts| - 1;
      if parts[n].Served() {
        GapRowsRecorded(db, parts[..n], job, t);
        assert forall i :: 0 <= i < n ==> parts[..n][i] == parts[i];
      } else {
        var m := |t| - 1;
        GapRowsRecorded(db, parts[..n], job, t[..m]);
        var db' := Replay(db, t);
        assert t[m].gap in db'.gaps;
        assert Recorded(db', job, parts[n]);
        forall i | 0 <= i < n && !parts[i].Served() ensures Recorded(db', job, parts[i]) {
          assert parts[..n][i] == parts[i];
          var g :| g in Replay(db, t[..m]).gaps && g.job == job && g.fromBlock == parts[i].lo && g.toBlock == parts[i].hi;
          assert g in db'.gaps;
        }
      }
    }
  }

  lemma {:induction false} ServedLogsHold(chain: Chain, topic: Topic, parts: seq<Part>, i: nat, k: int, log: Log)
    requires i < |parts| && parts[i].Served() && parts[i].lo <= k <= parts[i].hi && log in chain(topic, k)
    ensures log in ServedLogs(chain, topic, parts)
  {
    var n := |parts| - 1;
    if i == n {
      LogsOfBlock(chain, topic, parts[n].lo, parts[n].hi, k, log);
    } else {
      ServedLogsHold(chain, topic, parts[..n], i, k, log);
    }
  }

  lemma {:induction false} ServedLogsOnly(chain: Chain, topic: Topic, parts: seq<Part>, log: Log)
    requires log in ServedLogs(chain, topic, parts)
    ensures exists k :: log in chain(topic, k)
  {
    var n := |parts| - 1;
    if log in ServedLogs(chain, topic, parts[..n]) {
      ServedLogsOnly(chain, topic, parts[..n], log);
    } else {
      LogsOfOnly(chain, topic, parts[n].lo, parts[n].hi, log);
    }
  }

  lemma PutServedIsHarmless(chain: Chain, topic: Topic, parts: seq<Part>)
    ensures Harmless(chain, PutRows(topic, ServedLogs(chain, topic, parts)))
  {
    hide ServedLogs;
    forall log | log in ServedLogs(chain, topic, parts) ensures exists k :: log in chain(topic, k) {
      ServedLogsOnly(chain, topic, parts, log);
    }
  }

  /** Once the gap rows of a tiling and the batch of its served logs are in, each block is covered. */
  lemma TopicCovered(chain: Chain, db: Db, job: string, topic: Topic, a: int, b: int, parts: seq<Part>, k: int)
    requires Tiles(parts, a, b) && a <= k <= b
    requires forall i :: 0 <= i < |parts| && !parts[i].Served() ==> Recorded(db, job, parts[i])
    requires forall log :: log in ServedLogs(chain, topic, parts) && Decodes(topic, log) ==> (topic, KeyOf(topic, log)) in db.rows
    ensures Covered(chain, db, job, topic, k)
  {
    hide ServedLogs, Decodes, KeyOf;
    TileOf(parts, a, b, k);
    var i :| 0 <= i < |parts| && parts[i].lo <= k <= parts[i].hi;
    if parts[i].Served() {
      forall log | log in chain(topic, k) && Decodes(topic, log) ensures (topic, KeyOf(topic, log)) in db.rows {
        ServedLogsHold(chain, topic, parts, i, k, log);
      }
    } else {
      assert Recorded(db, job, parts[i]);
    }
  }

  lemma ExtendsStep(chain: Chain, db: Db, c: Commit)
    requires Harmless(chain, c)
    ensures Extends(db, Apply(db, c))
  {
    if c.PutRows? { InsertRowsContents(db.rows, c.topic, c.logs); }
  }

  lemma {:induction false} ExtendsRun(chain: Chain, db: Db, t: seq<Commit>)
    requires forall i :: 0 <= i < |t| ==> Harmless(chain, t[i])
    ensures Extends(db, Replay(db, t))
  {
    if |t| > 0 {
      hide Harmless, Apply;
      ExtendsRun(chain, db, t[..|t| - 1]);
      ExtendsStep(chain, Replay(db, t[..|t| - 1]), t[|t| - 1]);
    }
  }

  ghost predicate AllRecorded(db: Db, job: string, parts: seq<Part>) {
    forall i :: 0 <= i < |parts| && !parts[i].Served() ==> Recorded(db, job, parts[i])
  }

  ghost predicate AllStored(chain: Chain, db: Db, topic: Topic, parts: seq<Part>) {
    forall log :: log in ServedLogs(chain, topic, parts) && Decodes(topic, log) ==> (topic, KeyOf(topic, log)) in db.rows
  }

  lemma RecordedStays(db: Db, db': Db, job: string, parts: seq<Part>)
    requires AllRecorded(db, job, parts) && Extends(db, db')
    ensures AllRecorded(db', job, parts)
  {
  }

  lemma StoredStays(chain: Chain, db: Db, db': Db, topic: Topic, parts: seq<Part>)
    requires AllStored(chain, db, topic, parts) && Extends(db, db')
    ensures AllStored(chain, db', topic, parts)
  {
    hide ServedLogs, Decodes, KeyOf;
  }

  lemma PutRowsStores(chain: Chain, db: Db, topic: Topic, parts: seq<Part>)
    ensures AllStored(chain, Apply(db, PutRows(topic, ServedLogs(chain, topic, parts))), topic, parts)
  {
    hide ServedLogs, Decodes, KeyOf, InsertRows;
    var logs := ServedLogs(chain, topic, parts);
    InsertRowsContents(db.rows, topic, logs);
  }

  lemma ExtendsTransitive(d: Db, e: Db, f: Db)
    requires Extends(d, e) && Extends(e, f)
    ensures Extends(d, f)
  {
  }

  /** The three batches after all gap rows. */
  lemma BatchesStore(chain: Chain, d: Db, p0: seq<Part>, p1: seq<Part>, p2: seq<Part>)
    ensures var d0 := Apply(d, PutRows(Initialize, ServedLogs(chain, Initialize, p0)));
            var d1 := Apply(d0, PutRows(Swap, ServedLogs(chain, Swap, p1)));
            var d2 := Apply(d1, PutRows(Donate, ServedLogs(chain, Donate, p2)));
            && Extends(d, d2)
            && AllStored(chain, d2, Initialize, p0) && AllStored(chain, d2, Swap, p1) && AllStored(chain, d2, Donate, p2)
  {
    hide ServedLogs, Apply, Extends, AllStored, Harmless;
    var c0, c1, c2 := PutRows(Initialize, ServedLogs(chain, Initialize, p0)),
                      PutRows(Swap, ServedLogs(chain, Swap, p1)),
                      PutRows(Donate, ServedLogs(chain, Donate, p2));
    var d0 := Apply(d, c0);
    var d1 := Apply(d0, c1);
    var d2 := Apply(d1, c2);
    PutServedIsHarmless(chain, Initialize, p0);
    PutServedIsHarmless(chain, Swap, p1);
    PutServedIsHarmless(chain, Donate, p2);
    ExtendsStep(chain, d, c0);
    ExtendsStep(chain, d0, c1);
    ExtendsStep(chain, d1, c2);
    ExtendsTransitive(d, d0, d1);
    ExtendsTransitive(d, d1, d2);
    ExtendsTransitive(d0, d1, d2);
    PutRowsStores(chain, d, Initialize, p0);
    PutRowsStores(chain, d0, Swap, p1);
    PutRowsStores(chain, d1, Donate, p2);
    StoredStays(chain, d0, d2, Initialize, p0);
    StoredStays(chain, d1, d2, Swap, p1);
  }

  /** All gap rows of the three fetches. */
  lemma FetchesRecord(chain: Chain, d: Db, job: string, p0: seq<Part>, p1: seq<Part>, p2: seq<Part>,
                      t0: seq<Commit>, t1: seq<Commit>, t2: seq<Commit>)
    requires GapRows(p0, job, t0) && GapRows(p1, job, t1) && GapRows(p2, job, t2)
    ensures var d' := Replay(d, t0 + t1 + t2);
            AllRecorded(d', job, p0) && AllRecorded(d', job, p1) && AllRecorded(d', job, p2)
  {
    hide Replay, Extends, AllRecorded, Harmless, Recorded, GapRows;
    var d0 := Replay(d, t0);
    var d1 := Replay(d0, t1);
    var d2 := Replay(d1, t2);
    ReplayConcat(d, t0, t1);
    ReplayConcat(d, t0 + t1, t2);
    GapRowsAreHarmless(chain, p0, job, t0);
    GapRowsAreHarmless(chain, p1, job, t1);
    GapRowsAreHarmless(chain, p2, job, t2);
    ExtendsRun(chain, d0, t1);
    ExtendsRun(chain, d1, t2);
    ExtendsTransitive(d0, d1, d2);
    AllRecordedAfter(d, p0, job, t0);
    AllRecordedAfter(d0, p1, job, t1);
    AllRecordedAfter(d1, p2, job, t2);
    RecordedStays(d0, d2, job, p0);
    RecordedStays(d1, d2, job, p1);
  }

  lemma AllRecordedAfter(d: Db, parts: seq<Part>, job: string, t: seq<Commit>)
    requires GapRows(parts, job, t)
    ensures AllRecorded(Replay(d, t), job, parts)
  {
    GapRowsRecorded(d, parts, job, t);
  }

  /** Moving the cursor to b is justified when blocks a..b are covered. */
  lemma CursorStep(chain: Chain, d: Db, job: string, start: int, a: int, b: int)
    requires Accounted(chain, d, job, start) && a == ResumeBlock(d, job, start)
    requires forall topic, k :: a <= k <= b ==> Covered(chain, d, job, topic, k)
    ensures Accounted(chain, Apply(d, PutCursor(job, b)), job, start)
  {
    var d' := Apply(d, PutCursor(job, b));
    forall topic, k | start <= k <= b ensures Covered(chain, d', job, topic, k) {
      assert Covered(chain, d, job, topic, k);
    }
  }

  /** Gap rows of three tilings, then three batches: all harmless. */
  lemma BodyIsHarmless(chain: Chain, job: string, p0: seq<Part>, p1: seq<Part>, p2: seq<Part>,
                       t0: seq<Commit>, t1: seq<Commit>, t2: seq<Commit>, body: seq<Commit>)
    requires GapRows(p0, job, t0) && GapRows(p1, job, t1) && GapRows(p2, job, t2)
    requires body == t0 + t1 + t2 + [PutRows(Initialize, ServedLogs(chain, Initialize, p0)),
                                     PutRows(Swap, ServedLogs(chain, Swap, p1)),
                                     PutRows(Donate, ServedLogs(chain, Donate, p2))]
    ensures forall i :: 0 <= i < |body| ==> Harmless(chain, body[i])
  {
    hide GapRows, Harmless, ServedLogs;
    GapRowsAreHarmless(chain, p0, job, t0);
    GapRowsAreHarmless(chain, p1, job, t1);
    GapRowsAreHarmless(chain, p2, job, t2);
    PutServedIsHarmless(chain, Initialize, p0);
    PutServedIsHarmless(chain, Swap, p1);
    PutServedIsHarmless(chain, Donate, p2);
  }

  lemma BodyIsSafe(chain: Chain, db: Db, job: string, start: int, a: int, b: int, body: seq<Commit>,
                   p0: seq<Part>, p1: seq<Part>, p2: seq<Part>, t0: seq<Commit>, t1: seq<Commit>, t2: seq<Commit>)
    requires Accounted(chain, db, job, start) && a == ResumeBlock(db, job, start) && a <= b
    requires Tiles(p0, a, b) && Tiles(p1, a, b) && Tiles(p2, a, b)
    requires GapRows(p0, job, t0) && GapRows(p1, job, t1) && GapRows(p2, job, t2)
    requires body == t0 + t1 + t2 + [PutRows(Initialize, ServedLogs(chain, Initialize, p0)),
                                     PutRows(Swap, ServedLogs(chain, Swap, p1)),
                                     PutRows(Donate, ServedLogs(chain, Donate, p2))]
    ensures SafeThroughout(chain, db, job, start, body + [PutCursor(job, b)])
    ensures Replay(db, body + [PutCursor(job, b)]).cursor == db.cursor[job := b]
  {
    hide Tiles, GapRows, Accounted, SafeThroughout, Harmless, ServedLogs, Extends, Covered, Replay;
    BodyIsHarmless(chain, job, p0, p1, p2, t0, t1, t2, body);
    HarmlessIsSafe(chain, db, job, start, body);
    HarmlessRun(chain, db, job, start, body);
    var d := Replay(db, body);
    BodyCovers(chain, db, job, a, b, p0, p1, p2, t0, t1, t2);
    SameCursor(db, d);
    CursorStep(chain, d, job, start, a, b);
    OneMore(chain, db, job, start, body, PutCursor(job, b));
  }

  /** One chunk: safe after every commit, and the cursor ends at b. */
  lemma ChunkIsSafe(chain: Chain, v: Session, db: Db, job: string, start: int, a: int, b: int, t: seq<Commit>)
    requires Accounted(chain, db, job, start) && a == ResumeBlock(db, job, start)
    requires ChunkTrace(chain, v, job, a, b, t) && a <= b
    ensures SafeThroughout(chain, db, job, start, t)
    ensures Replay(db, t).cursor == db.cursor[job := b]
  {
    hide Fetches, Tiles, GapRows, Accounted, SafeThroughout, ServedLogs, Replay;
    var f0, f1, f2 :| ChunkParts(chain, v, job, a, b, t, f0, f1, f2);
    FetchTiles(v, job, Initialize, a, b, f0);
    FetchTiles(v, job, Swap, a, b, f1);
    FetchTiles(v, job, Donate, a, b, f2);
    var body := t[..|t| - 1];
    assert t == body + [PutCursor(job, b)];
    assert body == f0.gaps + f1.gaps + f2.gaps + [PutRows(Initialize, ServedLogs(chain, Initialize, f0.parts)),
                                                  PutRows(Swap, ServedLogs(chain, Swap, f1.parts)),
                                                  PutRows(Donate, ServedLogs(chain, Donate, f2.parts))];
    BodyIsSafe(chain, db, job, start, a, b, body, f0.parts, f1.parts, f2.parts, f0.gaps, f1.gaps, f2.gaps);
  }

  lemma FetchTiles(v: Session, job: string, topic: Topic, a: int, b: int, f: Fetch)
    requires Fetches(v, job, topic, a, b, f)
    ensures Tiles(f.parts, a, b) && GapRows(f.parts, job, f.gaps)
  {
    hide Accounts, Tiles, GapRows;
  }

  lemma SameCursor(db: Db, d: Db)
    requires Extends(db, d)
    ensures d.cursor == db.cursor
  {
  }

  lemma OneMore(chain: Chain, db: Db, job: string, start: int, body: seq<Commit>, c: Commit)
    requires SafeThroughout(chain, db, job, start, body)
    requires SafeAfter(chain, db, Apply(Replay(db, body), c), job, start)
    ensures SafeThroughout(chain, db, job, start, body + [c])
    ensures Replay(db, body + [c]) == Apply(Replay(db, body), c)
  {
    hide SafeAfter, Apply;
    var t := body + [c];
    assert t[..|t| - 1] == body;
    forall n | 0 <= n <= |t| ensures SafeAfter(chain, db, Replay(db, t[..n]), job, start) {
      if n <= |body| {
        assert t[..n] == body[..n];
      } else {
        assert t[..n] == t;
      }
    }
  }

  lemma BodyCovers(chain: Chain, db: Db, job: string, a: int, b: int, p0: seq<Part>, p1: seq<Part>, p2: seq<Part>,
                   t0: seq<Commit>, t1: seq<Commit>, t2: seq<Commit>)
    requires Tiles(p0, a, b) && Tiles(p1, a, b) && Tiles(p2, a, b)
    requires GapRows(p0, job, t0) && GapRows(p1, job, t1) && GapRows(p2, job, t2)
    ensures var body := t0 + t1 + t2 + [PutRows(Initialize, ServedLogs(chain, Initialize, p0)),
                                        PutRows(Swap, ServedLogs(chain, Swap, p1)),
                                        PutRows(Donate, ServedLogs(chain, Donate, p2))];
            forall topic, k :: a <= k <= b ==> Covered(chain, Replay(db, body), job, topic, k)
  {
    hide Tiles, GapRows, ServedLogs, Extends, Covered, AllRecorded, AllStored, Replay, Apply;
    var gaps := t0 + t1 + t2;
    var rows := [PutRows(Initialize, ServedLogs(chain, Initialize, p0)),
                 PutRows(Swap, ServedLogs(chain, Swap, p1)),
                 PutRows(Donate, ServedLogs(chain, Donate, p2))];
    var d := Replay(db, gaps);
    FetchesRecord(chain, db, job, p0, p1, p2, t0, t1, t2);
    BatchesStore(chain, d, p0, p1, p2);
    ReplayConcat(db, gaps, rows);
    ReplayThree(d, rows);
    var d' := Replay(d, rows);
    RecordedStays(d, d', job, p0);
    RecordedStays(d, d', job, p1);
    RecordedStays(d, d', job, p2);
    forall topic, k | a <= k <= b ensures Covered(chain, d', job, topic, k) {
      match topic {
        case Initialize => CoveredFromParts(chain, d', job, Initialize, a, b, p0, k);
        case Swap => CoveredFromParts(chain, d', job, Swap, a, b, p1, k);
        case Donate => CoveredFromParts(chain, d', job, Donate, a, b, p2, k);
      }
    }
  }

  lemma CoveredFromParts(chain: Chain, d: Db, job: string, topic: Topic, a: int, b: int, parts: seq<Part>, k: int)
    requires Tiles(parts, a, b) && a <= k <= b && AllRecorded(d, job, parts) && AllStored(chain, d, topic, parts)
    ensures Covered(chain, d, job, topic, k)
  {
    TopicCovered(chain, d, job, topic, a, b, parts, k);
  }

  lemma ReplayThree(db: Db, t: seq<Commit>)
    requires |t| == 3
    ensures Replay(db, t) == Apply(Apply(Apply(db, t[0]), t[1]), t[2])
  {
    hide Apply;
    ReplayNothing(db);
    assert t[..1][..0] == [] && t[..1][0] == t[0];
    assert Replay(db, t[..1]) == Apply(db, t[0]);
    assert t[..2][..1] == t[..1] && t[..2][1] == t[1];
    assert Replay(db, t[..2]) == Apply(Replay(db, t[..1]), t[1]);
  }

  // ----- whole runs, and any sequence of interrupted runs

  /** A run: safe after every commit, and it resumes at `next`. */
  lemma {:induction false} ProgressIsSafe(chain: Chain, v: Session, db: Db, job: string, start: int, first: int, next: int,
                                          t: seq<Commit>)
    requires Accounted(chain, db, job, start) && first == ResumeBlock(db, job, start)
    requires Progress(chain, v, job, first, next, t)
    ensures SafeThroughout(chain, db, job, start, t)
    ensures ResumeBlock(Replay(db, t), job, start) == next
    decreases next - first
  {
    hide Accounted, ChunkTrace, Apply;
    if next <= first {
      assert forall n :: 0 <= n <= |t| ==> t[..n] == [];
    } else {
      var mid, n, s, u :| first <= mid < next && LastChunk(chain, v, job, mid, next, n, t, s, u)
                       && Progress(chain, v.(asked := v.asked[..n]), job, first, mid, s);
      ProgressIsSafe(chain, v.(asked := v.asked[..n]), db, job, start, first, mid, s);
      assert s[..|s|] == s;
      ChunkIsSafe(chain, v.(from := n), Replay(db, s), job, start, mid, next - 1, u);
      SafeConcat(chain, db, job, start, s, u);
      ReplayConcat(db, s, u);
    }
  }

  // ----- what the node has to do with it

  /** The commit is the gap row of a part that the session's calls did not get. */
  ghost predicate GapOf(v: Session, job: string, c: Commit) {
    exists topic, p :: IsGapOf(v, job, c, topic, p)
  }

  ghost predicate IsGapOf(v: Session, job: string, c: Commit, topic: Topic, p: Part) {
    && !p.Served() && c == PutGap(Gap(job, p.lo, p.hi, Reason(p.outcome.kind)), p.outcome.attempts)
    && Justified(v.script, v.asked, v.from, topic, p, v.minSize, v.maxRetries)
  }

  ghost predicate GapsJustified(v: Session, job: string, t: seq<Commit>) {
    forall i :: 0 <= i < |t| && t[i].PutGap? ==> GapOf(v, job, t[i])
  }

  /** v has the calls of w among its own. */
  ghost predicate Includes(v: Session, w: Session) {
    v.script == w.script && v.minSize == w.minSize && v.maxRetries == w.maxRetries && v.from <= w.from && w.asked <= v.asked
  }

  lemma GapsStayJustified(v: Session, w: Session, job: string, t: seq<Commit>)
    requires Includes(v, w) && GapsJustified(w, job, t)
    ensures GapsJustified(v, job, t)
  {
    hide Justified;
    forall i | 0 <= i < |t| && t[i].PutGap? ensures GapOf(v, job, t[i]) {
      var topic, p :| IsGapOf(w, job, t[i], topic, p);
      JustifiedStays(w.script, w.asked, v.asked, w.from, v.from, topic, p, v.minSize, v.maxRetries);
      assert IsGapOf(v, job, t[i], topic, p);
    }
  }

  lemma GapsJustifiedConcat(v: Session, job: string, s: seq<Commit>, t: seq<Commit>)
    requires GapsJustified(v, job, s) && GapsJustified(v, job, t)
    ensures GapsJustified(v, job, s + t)
  {
    hide GapOf;
  }

  /** The gap rows of justified parts. */
  lemma {:induction false} PartsJustifyGaps(v: Session, job: string, topic: Topic, parts: seq<Part>, t: seq<Commit>)
    requires GapRows(parts, job, t)
    requires forall i :: 0 <= i < |parts| ==> Justified(v.script, v.asked, v.from, topic, parts[i], v.minSize, v.maxRetries)
    ensures GapsJustified(v, job, t)
  {
    hide Justified, Reason;
    if |parts| > 0 {
      var n, m := |parts| - 1, |t| - 1;
      if parts[n].Served() {
        PartsJustifyGaps(v, job, topic, parts[..n], t);
      } else {
        PartsJustifyGaps(v, job, topic, parts[..n], t[..m]);
        assert IsGapOf(v, job, t[m], topic, parts[n]);
        assert forall i :: 0 <= i < m ==> t[..m][i] == t[i];
      }
    }
  }

  lemma FetchGapsJustified(v: Session, job: string, topic: Topic, a: int, b: int, f: Fetch)
    requires Fetches(v, job, topic, a, b, f) && v.from <= f.from
    ensures GapsJustified(v, job, f.gaps)
  {
    hide GapRows, Tiles, Justified;
    var w := v.(from := f.from, asked := v.asked[..f.upto]);
    PartsJustifyGaps(w, job, topic, f.parts, f.gaps);
    GapsStayJustified(v, w, job, f.gaps);
  }

  lemma ChunkGapsJustified(chain: Chain, v: Session, job: string, a: int, b: int, t: seq<Commit>)
    requires ChunkTrace(chain, v, job, a, b, t)
    ensures GapsJustified(v, job, t)
  {
    hide Fetches, ServedLogs;
    var f0, f1, f2 :| ChunkParts(chain, v, job, a, b, t, f0, f1, f2);
    FetchOrder(v, job, Initialize, a, b, f0);
    FetchOrder(v, job, Swap, a, b, f1);
    FetchGapsJustified(v, job, Initialize, a, b, f0);
    FetchGapsJustified(v, job, Swap, a, b, f1);
    FetchGapsJustified(v, job, Donate, a, b, f2);
    var rest := [PutRows(Initialize, ServedLogs(chain, Initialize, f0.parts)), PutRows(Swap, ServedLogs(chain, Swap, f1.parts)),
                 PutRows(Donate, ServedLogs(chain, Donate, f2.parts)), PutCursor(job, b)];
    assert GapsJustified(v, job, rest);
    hide GapsJustified;
    GapsJustifiedConcat(v, job, f0.gaps, f1.gaps);
    GapsJustifiedConcat(v, job, f0.gaps + f1.gaps, f2.gaps);
    GapsJustifiedConcat(v, job, f0.gaps + f1.gaps + f2.gaps, rest);
  }

  lemma FetchOrder(v: Session, job: string, topic: Topic, a: int, b: int, f: Fetch)
    requires Fetches(v, job, topic, a, b, f)
    ensures f.from <= f.upto <= |v.asked|
  {
    hide Tiles, GapRows, Accounts;
  }

  /** Every gap row a run commits has calls of that run behind it: max_retries + 1 that
      failed, or a last one that called a small enough range too large. */
  lemma {:induction false} RunGapsAreJustified(chain: Chain, v: Session, job: string, first: int, next: int, t: seq<Commit>)
    requires Progress(chain, v, job, first, next, t)
    ensures GapsJustified(v, job, t)
    decreases next - first
  {
    hide ChunkTrace;
    if next > first {
      var mid, n, s, u :| first <= mid < next && LastChunk(chain, v, job, mid, next, n, t, s, u)
                       && Progress(chain, v.(asked := v.asked[..n]), job, first, mid, s);
      hide Progress, GapsJustified;
      RunGapsAreJustified(chain, v.(asked := v.asked[..n]), job, first, mid, s);
      ChunkGapsJustified(chain, v.(from := n), job, mid, next - 1, u);
      GapsStayJustified(v, v.(asked := v.asked[..n]), job, s);
      GapsStayJustified(v, v.(from := n), job, u);
      GapsJustifiedConcat(v, job, s, u);
    }
  }

  // ----- a node that serves every call

  ghost predicate Serves(v: Session) {
    forall n :: v.script(n).Served?
  }

  lemma ServedFetchIsWhole(v: Session, job: string, topic: Topic, a: int, b: int, f: Fetch)
    requires Serves(v) && Fetches(v, job, topic, a, b, f)
    ensures f.gaps == [] && forall i :: 0 <= i < |f.parts| ==> f.parts[i].Served()
  {
    hide GapRows, Tiles, Justified;
    forall i | 0 <= i < |f.parts| ensures f.parts[i].Served() {
      FirstReplyServes(v.script, v.asked[..f.upto], f.from, topic, f.parts[i], v.minSize, v.maxRetries);
    }
    ServedPartsHaveNoGaps(f.parts, job, f.gaps);
  }

  lemma {:induction false} ServedPartsHaveNoGaps(parts: seq<Part>, job: string, t: seq<Commit>)
    requires GapRows(parts, job, t) && forall i :: 0 <= i < |parts| ==> parts[i].Served()
    ensures t == []
  {
    if |parts| > 0 { ServedPartsHaveNoGaps(parts[..|parts| - 1], job, t); }
  }

  /** Every decodable log of blocks a..b has its key. */
  ghost predicate AllIn(chain: Chain, db: Db, a: int, b: int) {
    forall topic, k, log :: a <= k <= b && log in chain(topic, k) && Decodes(topic, log) ==> (topic, KeyOf(topic, log)) in db.rows
  }

  lemma RowsGrow(db: Db, c: Commit)
    ensures db.rows.Keys <= Apply(db, c).rows.Keys
  {
    if c.PutRows? { InsertRowsContents(db.rows, c.topic, c.logs); }
  }

  lemma {:induction false} RowsGrowOver(db: Db, t: seq<Commit>)
    ensures db.rows.Keys <= Replay(db, t).rows.Keys
  {
    if |t| > 0 {
      RowsGrowOver(db, t[..|t| - 1]);
      hide Apply;
      RowsGrow(Replay(db, t[..|t| - 1]), t[|t| - 1]);
    }
  }

  lemma AllInStays(chain: Chain, d: Db, d': Db, a: int, b: int)
    requires AllIn(chain, d, a, b) && d.rows.Keys <= d'.rows.Keys
    ensures AllIn(chain, d', a, b)
  {
    hide Decodes, KeyOf;
  }

  lemma AllInJoins(chain: Chain, d: Db, a: int, mid: int, b: int)
    requires AllIn(chain, d, a, mid - 1) && AllIn(chain, d, mid, b)
    ensures AllIn(chain, d, a, b)
  {
    hide Decodes, KeyOf;
  }

  lemma TopicIn(chain: Chain, d: Db, topic: Topic, a: int, b: int, parts: seq<Part>, k: int, log: Log)
    requires Tiles(parts, a, b) && AllStored(chain, d, topic, parts) && forall i :: 0 <= i < |parts| ==> parts[i].Served()
    requires a <= k <= b && log in chain(topic, k) && Decodes(topic, log)
    ensures (topic, KeyOf(topic, log)) in d.rows
  {
    hide ServedLogs, Decodes, KeyOf;
    TileOf(parts, a, b, k);
    var i :| 0 <= i < |parts| && parts[i].lo <= k <= parts[i].hi;
    ServedLogsHold(chain, topic, parts, i, k, log);
  }

  lemma ThreeTopicsIn(chain: Chain, d: Db, a: int, b: int, p0: seq<Part>, p1: seq<Part>, p2: seq<Part>)
    requires Tiles(p0, a, b) && Tiles(p1, a, b) && Tiles(p2, a, b)
    requires AllStored(chain, d, Initialize, p0) && AllStored(chain, d, Swap, p1) && AllStored(chain, d, Donate, p2)
    requires (forall i :: 0 <= i < |p0| ==> p0[i].Served()) && (forall i :: 0 <= i < |p1| ==> p1[i].Served())
    requires forall i :: 0 <= i < |p2| ==> p2[i].Served()
    ensures AllIn(chain, d, a, b)
  {
    hide ServedLogs, Decodes, KeyOf, Tiles, AllStored;
    forall topic, k, log | a <= k <= b && log in chain(topic, k) && Decodes(topic, log) ensures (topic, KeyOf(topic, log)) in d.rows {
      match topic
      case Initialize => TopicIn(chain, d, Initialize, a, b, p0, k, log);
      case Swap => TopicIn(chain, d, Swap, a, b, p1, k, log);
      case Donate => TopicIn(chain, d, Donate, a, b, p2, k, log);
    }
  }

  /** One chunk under such a node: no gap row, and every decodable log is stored. */
  lemma ServedChunk(chain: Chain, v: Session, db: Db, job: string, a: int, b: int, t: seq<Commit>)
    requires Serves(v) && ChunkTrace(chain, v, job, a, b, t)
    ensures (forall i :: 0 <= i < |t| ==> !t[i].PutGap?) && AllIn(chain, Replay(db, t), a, b)
  {
    hide ServedLogs, Accounts, GapRows, Serves, Tiles, AllStored, AllIn, Apply;
    var f0, f1, f2 :| ChunkParts(chain, v, job, a, b, t, f0, f1, f2);
    ServedFetchIsWhole(v, job, Initialize, a, b, f0);
    ServedFetchIsWhole(v, job, Swap, a, b, f1);
    ServedFetchIsWhole(v, job, Donate, a, b, f2);
    assert t == [PutRows(Initialize, ServedLogs(chain, Initialize, f0.parts)), PutRows(Swap, ServedLogs(chain, Swap, f1.parts)),
                 PutRows(Donate, ServedLogs(chain, Donate, f2.parts)), PutCursor(job, b)];
    BatchesStore(chain, db, f0.parts, f1.parts, f2.parts);
    hide Extends;
    ReplayThree(db, t[..3]);
    ThreeTopicsIn(chain, Replay(db, t[..3]), a, b, f0.parts, f1.parts, f2.parts);
    RowsGrow(Replay(db, t[..3]), t[3]);
    AllInStays(chain, Replay(db, t[..3]), Replay(db, t), a, b);
  }

  /** When the node serves every call, a run commits no gap row, and every decodable log
      from the block it resumes at to its last is stored. */
  lemma {:induction false} ServedRunStoresAll(chain: Chain, v: Session, db: Db, job: string, first: int, next: int, t: seq<Commit>)
    requires Serves(v) && Progress(chain, v, job, first, next, t)
    ensures (forall i :: 0 <= i < |t| ==> !t[i].PutGap?) && AllIn(chain, Replay(db, t), first, next - 1)
    decreases next - first
  {
    hide ChunkTrace, Decodes, KeyOf;
    if next > first {
      var mid, n, s, u :| first <= mid < next && LastChunk(chain, v, job, mid, next, n, t, s, u)
                       && Progress(chain, v.(asked := v.asked[..n]), job, first, mid, s);
      hide Progress, AllIn, Replay;
      ServedRunStoresAll(chain, v.(asked := v.asked[..n]), db, job, first, mid, s);
      ServedChunk(chain, v.(from := n), Replay(db, s), job, mid, next - 1, u);
      ReplayConcat(db, s, u);
      RowsGrowOver(Replay(db, s), u);
      AllInStays(chain, Replay(db, s), Replay(db, t), first, mid - 1);
      AllInJoins(chain, Replay(db, t), first, mid, next - 1);
    }
  }

  // ----- any sequence of interrupted runs

  /** One run as it may really go: some end block, its session, its commits, and how
      many of them took place before the process died (all of them when it did not). */
  datatype Life = Life(end: int, session: Session, trace: seq<Commit>, survived: nat)

  /** Each life resumes on the database the previous one left. */
  ghost predicate Lives(chain: Chain, job: string, start: int, db: Db, lives: seq<Life>) {
    if |lives| == 0 then true
    else
      var last := lives[|lives| - 1];
      var before := After(db, lives[..|lives| - 1]);
      && Lives(chain, job, start, db, lives[..|lives| - 1])
      && last.survived <= |last.trace|
      && RunTrace(chain, last.session, job, ResumeBlock(before, job, start), last.end, last.trace)
  }

  function After(db: Db, lives: seq<Life>): Db {
    if |lives| == 0 then db
    else
      var last := lives[|lives| - 1];
      Replay(After(db, lives[..|lives| - 1]), if last.survived <= |last.trace| then last.trace[..last.survived] else last.trace)
  }

  /** Over any number of runs, each killed anywhere: every block from the start
      to the cursor has its decodable rows stored or lies in a recorded gap, for
      all three topics, nothing else is stored, and the cursor never moves back. */
  lemma {:induction false} EveryHistoryIsAccounted(chain: Chain, job: string, start: int, db: Db, lives: seq<Life>)
    requires Accounted(chain, db, job, start) && Lives(chain, job, start, db, lives)
    ensures Accounted(chain, After(db, lives), job, start)
    ensures ResumeBlock(After(db, lives), job, start) >= ResumeBlock(db, job, start)
  {
    hide Accounted, ResumeBlock, Replay, Progress;
    if |lives| > 0 {
      var last := lives[|lives| - 1];
      var before := After(db, lives[..|lives| - 1]);
      var first := ResumeBlock(before, job, start);
      EveryHistoryIsAccounted(chain, job, start, db, lives[..|lives| - 1]);
      ProgressIsSafe(chain, last.session, before, job, start, first, if last.end < first then first else last.end + 1, last.trace);
      assert SafeAfter(chain, before, Replay(before, last.trace[..last.survived]), job, start);
    }
  }

  const EMPTY := Db(map[], map[], map[])

  /** An empty database is accounted for. */
  lemma FreshDbIsAccounted(chain: Chain, job: string, start: int)
    ensures Accounted(chain, EMPTY, job, start)
  {
  }

  /** The gap has calls of one of the lives behind it. */
  ghost predicate Explained(lives: seq<Life>, job: string, g: Gap, attempts: nat) {
    exists i :: 0 <= i < |lives| && GapOf(lives[i].session, job, PutGap(g, attempts))
  }

  lemma ExplainedLonger(lives: seq<Life>, n: nat, job: string, g: Gap, attempts: nat)
    requires n <= |lives| && Explained(lives[..n], job, g, attempts)
    ensures Explained(lives, job, g, attempts)
  {
    hide GapOf;
    var i :| 0 <= i < n && GapOf(lives[..n][i].session, job, PutGap(g, attempts));
    assert GapOf(lives[i].session, job, PutGap(g, attempts));
  }

  /** A gap row of a replayed database was there before or is one of the commits. */
  lemma {:induction false} GapOrigin(db: Db, t: seq<Commit>, g: Gap)
    requires g in Replay(db, t).gaps
    ensures (g in db.gaps && Replay(db, t).gaps[g] == db.gaps[g])
         || exists i :: 0 <= i < |t| && t[i] == PutGap(g, Replay(db, t).gaps[g])
  {
    if |t| > 0 {
      var before, c := t[..|t| - 1], t[|t| - 1];
      if g in Replay(db, before).gaps {
        GapOrigin(db, before, g);
        hide InsertRows;
        assert Replay(db, t).gaps[g] == Replay(db, before).gaps[g];
        assert forall i :: 0 <= i < |before| ==> before[i] == t[i];
      } else {
        assert c == PutGap(g, Replay(db, t).gaps[g]);
      }
    }
  }

  lemma LifeExplains(chain: Chain, life: Life, job: string, first: int, i: nat)
    requires RunTrace(chain, life.session, job, first, life.end, life.trace)
    requires i < |life.trace| && life.trace[i].PutGap?
    ensures GapOf(life.session, job, life.trace[i])
  {
    hide Progress, GapOf;
    RunGapsAreJustified(chain, life.session, job, first, if life.end < first then first else life.end + 1, life.trace);
  }

  /** From an empty database, over any runs, each killed anywhere: no gap row is ever
      found that some run's failed calls do not explain. */
  lemma {:induction false} EveryGapIsExplained(chain: Chain, job: string, start: int, lives: seq<Life>, g: Gap)
    requires Lives(chain, job, start, EMPTY, lives) && g in After(EMPTY, lives).gaps
    ensures Explained(lives, job, g, After(EMPTY, lives).gaps[g])
  {
    hide RunTrace, GapOf, Explained;
    if |lives| > 0 {
      var n := |lives| - 1;
      var last, before := lives[n], After(EMPTY, lives[..n]);
      var t := last.trace[..last.survived];
      var attempts := After(EMPTY, lives).gaps[g];
      GapOrigin(before, t, g);
      if i :| 0 <= i < |t| && t[i] == PutGap(g, attempts) {
        LifeExplains(chain, last, job, ResumeBlock(before, job, start), i);
        ExplainedBy(lives, n, job, g, attempts);
      } else {
        EveryGapIsExplained(chain, job, start, lives[..n], g);
        ExplainedLonger(lives, n, job, g, attempts);
      }
    }
  }

  lemma ExplainedBy(lives: seq<Life>, i: nat, job: string, g: Gap, attempts: nat)
    requires i < |lives| && GapOf(lives[i].session, job, PutGap(g, attempts))
    ensures Explained(lives, job, g, attempts)
  {
  }

  /** The same laws together, from an empty database. */
  lemma FreshHistoryIsAccounted(chain: Chain, job: string, start: int, lives: seq<Life>)
    requires Lives(chain, job, start, EMPTY, lives)
    ensures var db := After(EMPTY, lives);
            Accounted(chain, db, job, start) && forall g :: g in db.gaps ==> Explained(lives, job, g, db.gaps[g])
  {
    FreshDbIsAccounted(chain, job, start);
    EveryHistoryIsAccounted(chain, job, start, EMPTY, lives);
    forall g | g in After(EMPTY, lives).gaps ensures Explained(lives, job, g, After(EMPTY, lives).gaps[g]) {
      EveryGapIsExplained(chain, job, start, lives, g);
    }
  }

  // ----- no event is lost, none is stored twice

  /** Logs that name the same event are the same log. */
  ghost predicate Distinct(chain: Chain) {
    forall topic, j, k, x, y {:trigger x in chain(topic, j), y in chain(topic, k)} ::
      x in chain(topic, j) && y in chain(topic, k) && SameEvent(topic, x, y) ==> x == y
  }

  /** A gap row of the job spans the block. */
  ghost predicate InGap(db: Db, job: string, k: int) {
    exists g :: g in db.gaps && g.job == job && g.fromBlock <= k <= g.toBlock
  }

  /** The log has a row of its topic, and it is itself that row. */
  ghost predicate Kept(db: Db, topic: Topic, log: Log) {
    (topic, KeyOf(topic, log)) in db.rows && db.rows[(topic, KeyOf(topic, log))] == log
  }

  /** The row under a log's key is the log. */
  lemma KeyedIsKept(chain: Chain, db: Db, topic: Topic, k: int, log: Log)
    requires OnlyChainRows(chain, db) && Distinct(chain) && log in chain(topic, k)
    requires (topic, KeyOf(topic, log)) in db.rows
    ensures Kept(db, topic, log)
  {
    hide Decodes, SameEvent, KeyOf;
    var row := db.rows[(topic, KeyOf(topic, log))];
    var j :| row in chain(topic, j);
    SharedRowIff(topic, row, log);
  }

  /** Every decodable log from the start to the cursor that no gap row spans is itself
      in the database: another log is never stored in its place. */
  lemma LogsAreKept(chain: Chain, db: Db, job: string, start: int, topic: Topic, k: int, log: Log)
    requires Accounted(chain, db, job, start) && Distinct(chain) && job in db.cursor
    requires start <= k <= db.cursor[job] && !InGap(db, job, k) && log in chain(topic, k) && Decodes(topic, log)
    ensures Kept(db, topic, log)
  {
    hide Decodes, KeyOf, Distinct, Kept, OnlyChainRows;
    assert Covered(chain, db, job, topic, k);
    KeyedIsKept(chain, db, topic, k, log);
  }

  /** When the node serves every call, a run stores every decodable log of its blocks
      itself. */
  lemma ServedRunKeepsAll(chain: Chain, v: Session, db: Db, job: string, start: int, next: int, t: seq<Commit>,
                          topic: Topic, k: int, log: Log)
    requires Serves(v) && Accounted(chain, db, job, start) && Distinct(chain)
    requires Progress(chain, v, job, ResumeBlock(db, job, start), next, t)
    requires ResumeBlock(db, job, start) <= k < next && log in chain(topic, k) && Decodes(topic, log)
    ensures Kept(Replay(db, t), topic, log)
  {
    hide *;
    ProgressIsSafe(chain, v, db, job, start, ResumeBlock(db, job, start), next, t);
    ServedRunStoresAll(chain, v, db, job, ResumeBlock(db, job, start), next, t);
    OnlyChainAtEnd(chain, db, job, start, t);
    KeyIn(chain, Replay(db, t), ResumeBlock(db, job, start), next - 1, topic, k, log);
    KeyedIsKept(chain, Replay(db, t), topic, k, log);
  }

  lemma OnlyChainAtEnd(chain: Chain, db: Db, job: string, start: int, t: seq<Commit>)
    requires SafeThroughout(chain, db, job, start, t)
    ensures OnlyChainRows(chain, Replay(db, t))
  {
    hide Replay, OnlyChainRows, ResumeBlock;
    assert t[..|t|] == t;
    assert SafeAfter(chain, db, Replay(db, t[..|t|]), job, start);
  }

  lemma KeyIn(chain: Chain, db: Db, a: int, b: int, topic: Topic, k: int, log: Log)
    requires AllIn(chain, db, a, b) && a <= k <= b && log in chain(topic, k) && Decodes(topic, log)
    ensures (topic, KeyOf(topic, log)) in db.rows
  {
    hide Decodes, KeyOf;
  }

  /** The decodable logs of blocks a..b. */
  ghost function LogsIn(chain: Chain, topic: Topic, a: int, b: int): set<Log> {
    set log | log in LogsOf(chain, topic, a, b) && Decodes(topic, log)
  }

  /** The rows of a topic that hold these logs. */
  ghost function RowsWith(db: Db, topic: Topic, logs: set<Log>): set<(Topic, Key)> {
    set e | e in db.rows && e.0 == topic && db.rows[e] in logs
  }

  lemma {:induction false} ImageSize(rows: map<(Topic, Key), Log>, ks: set<(Topic, Key)>)
    requires ks <= rows.Keys && forall x, y :: x in ks && y in ks && rows[x] == rows[y] ==> x == y
    ensures |set x | x in ks :: rows[x]| == |ks|
  {
    if ks != {} {
      var k :| k in ks;
      var rest := ks - {k};
      ImageSize(rows, rest);
      assert (set x | x in ks :: rows[x]) == (set x | x in rest :: rows[x]) + {rows[k]};
    }
  }

  lemma RowsAreLogs(chain: Chain, db: Db, topic: Topic, logs: set<Log>)
    requires OnlyChainRows(chain, db)
    ensures |set e | e in RowsWith(db, topic, logs) :: db.rows[e]| == |RowsWith(db, topic, logs)|
  {
    hide Decodes, KeyOf;
    ImageSize(db.rows, RowsWith(db, topic, logs));
  }

  lemma AllKept(chain: Chain, db: Db, job: string, start: int, topic: Topic, log: Log)
    requires Accounted(chain, db, job, start) && Distinct(chain) && job in db.cursor
    requires forall k :: start <= k <= db.cursor[job] ==> !InGap(db, job, k)
    requires log in LogsIn(chain, topic, start, db.cursor[job])
    ensures Kept(db, topic, log)
  {
    hide Accounted, Distinct, Decodes, KeyOf, LogsOf;
    LogsOfOnly(chain, topic, start, db.cursor[job], log);
    var k :| start <= k <= db.cursor[job] && log in chain(topic, k);
    LogsAreKept(chain, db, job, start, topic, k, log);
  }

  /** When no gap row spans a block from the start to the cursor, each topic has exactly
      one row for each of its decodable logs there. */
  lemma RowsAreCounted(chain: Chain, db: Db, job: string, start: int, topic: Topic)
    requires Accounted(chain, db, job, start) && Distinct(chain) && job in db.cursor
    requires forall k :: start <= k <= db.cursor[job] ==> !InGap(db, job, k)
    ensures var logs := LogsIn(chain, topic, start, db.cursor[job]);
            |RowsWith(db, topic, logs)| == |logs|
  {
    var logs := LogsIn(chain, topic, start, db.cursor[job]);
    RowsAreLogs(chain, db, topic, logs);
    hide Accounted, Distinct, LogsIn, InGap;
    var image := set e | e in RowsWith(db, topic, logs) :: db.rows[e];
    forall log | log in logs ensures log in image {
      AllKept(chain, db, job, start, topic, log);
      assert (topic, KeyOf(topic, log)) in RowsWith(db, topic, logs);
    }
    assert image == logs;
  }

  /** Over any runs from an empty database, each killed anywhere. */
  lemma FreshHistoryKeepsAll(chain: Chain, job: string, start: int, lives: seq<Life>, topic: Topic)
    requires Lives(chain, job, start, EMPTY, lives) && Distinct(chain) && job in After(EMPTY, lives).cursor
    ensures var db := After(EMPTY, lives);
            var logs := LogsIn(chain, topic, start, db.cursor[job]);
            && (forall k, log :: start <= k <= db.cursor[job] && !InGap(db, job, k) && log in chain(topic, k) && Decodes(topic, log)
                  ==> Kept(db, topic, log))
            && ((forall k :: start <= k <= db.cursor[job] ==> !InGap(db, job, k)) ==> |RowsWith(db, topic, logs)| == |logs|)
  {
    FreshHistoryIsAccounted(chain, job, start, lives);
    hide Lives, After, Accounted, Distinct, InGap, Decodes, Kept, LogsIn, RowsWith, Explained;
    var db := After(EMPTY, lives);
    forall k, log | start <= k <= db.cursor[job] && !InGap(db, job, k) && log in chain(topic, k) && Decodes(topic, log)
      ensures Kept(db, topic, log)
    {
      LogsAreKept(chain, db, job, start, topic, k, log);
    }
    if forall k :: start <= k <= db.cursor[job] ==> !InGap(db, job, k) {
      RowsAreCounted(chain, db, job, start, topic);
    }
  }
}
