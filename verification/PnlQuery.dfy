/** Swaps fetched pool chunk by pool chunk, for `stream_pnl_pg`, against the whole table in block order, for `total_pnl`. */
module PnlQuery {
  import opened Options
  import opened Text
  import opened Pnl
  import opened PnlStream
  import opened PnlTotal

  // ----- rows in block order

  predicate Earlier(a: Swap, b: Swap) {
    a.block < b.block || (a.block == b.block && a.logIndex < b.logIndex)
  }

  /** In (block, log_index) order, each pair of numbers once. */
  predicate Chronological(swaps: seq<Swap>) {
    forall i, j :: 0 <= i < j < |swaps| ==> Earlier(swaps[i], swaps[j])
  }

  lemma LastIsSame(a: seq<Swap>, b: seq<Swap>)
    requires Chronological(a) && Chronological(b) && |a| > 0 && |b| > 0 && multiset(a) == multiset(b)
    ensures a[|a| - 1] == b[|b| - 1]
  {
    var x, y := a[|a| - 1], b[|b| - 1];
    assert x in multiset(b) && y in multiset(a);
    var i :| 0 <= i < |b| && b[i] == x;
    var j :| 0 <= j < |a| && a[j] == y;
  }

  lemma InitIsChronological(a: seq<Swap>)
    requires Chronological(a) && |a| > 0
    ensures Chronological(a[..|a| - 1]) && multiset(a[..|a| - 1]) == multiset(a) - multiset{a[|a| - 1]}
    ensures a == a[..|a| - 1] + [a[|a| - 1]]
  {
    hide Earlier;
    assert a == a[..|a| - 1] + [a[|a| - 1]];
  }

  /** The same rows in order are the same list. */
  lemma {:induction false} OrderIsUnique(a: seq<Swap>, b: seq<Swap>)
    requires Chronological(a) && Chronological(b) && multiset(a) == multiset(b)
    ensures a == b
  {
    if |a| == 0 || |b| == 0 {
      assert |multiset(a)| == |multiset(b)|;
    } else {
      LastIsSame(a, b);
      InitIsChronological(a);
      InitIsChronological(b);
      hide Chronological;
      OrderIsUnique(a[..|a| - 1], b[..|b| - 1]);
    }
  }

  // ----- the swaps of one pool

  function Of(swaps: seq<Swap>, p: string): seq<Swap> {
    if |swaps| == 0 then []
    else Of(swaps[..|swaps| - 1], p) + (if swaps[|swaps| - 1].pool == p then [swaps[|swaps| - 1]] else [])
  }

  lemma {:induction false} OfCounts(swaps: seq<Swap>, p: string, x: Swap)
    ensures multiset(Of(swaps, p))[x] == if x.pool == p then multiset(swaps)[x] else 0
  {
    if |swaps| > 0 {
      OfCounts(swaps[..|swaps| - 1], p, x);
      assert swaps == swaps[..|swaps| - 1] + [swaps[|swaps| - 1]];
    }
  }

  lemma OfIsIn(swaps: seq<Swap>, p: string, x: Swap)
    ensures x in Of(swaps, p) <==> x in swaps && x.pool == p
  {
    OfCounts(swaps, p, x);
    assert x in Of(swaps, p) <==> x in multiset(Of(swaps, p));
    assert x in swaps <==> x in multiset(swaps);
  }

  lemma {:induction false} OfConcat(a: seq<Swap>, b: seq<Swap>, p: string)
    ensures Of(a + b, p) == Of(a, p) + Of(b, p)
  {
    if |b| == 0 {
      assert a + b == a;
    } else {
      assert (a + b)[..|a + b| - 1] == a + b[..|b| - 1];
      OfConcat(a, b[..|b| - 1], p);
    }
  }

  /** Rows of a pool come in block order. */
  ghost predicate PoolwiseChronological(swaps: seq<Swap>) {
    forall i, j :: 0 <= i < j < |swaps| && swaps[i].pool == swaps[j].pool ==> Earlier(swaps[i], swaps[j])
  }

  lemma {:induction false} OfIsChronological(swaps: seq<Swap>, p: string)
    requires PoolwiseChronological(swaps)
    ensures Chronological(Of(swaps, p))
  {
    if |swaps| > 0 {
      var before, last := swaps[..|swaps| - 1], swaps[|swaps| - 1];
      OfIsChronological(before, p);
      var some := Of(before, p);
      forall i | 0 <= i < |some| && last.pool == p ensures Earlier(some[i], last) {
        OfIsIn(before, p, some[i]);
        var j :| 0 <= j < |before| && before[j] == some[i];
        assert swaps[j] == some[i];
      }
    }
  }

  // ----- one query

  /** A collation: a linear order of the pool ids. */
  ghost predicate Collation(rank: string -> int) {
    forall p, q :: rank(p) == rank(q) ==> p == q
  }

  /** `WHERE s.pool = ANY(chunk) ORDER BY s.pool, s.block_number, s.log_index`. */
  ghost predicate Result(rows: seq<Swap>, table: seq<Swap>, chunk: set<string>, rank: string -> int) {
    && (forall x :: multiset(rows)[x] == if x.pool in chunk then multiset(table)[x] else 0)
    && (forall i, j :: 0 <= i < j < |rows| ==>
          rank(rows[i].pool) < rank(rows[j].pool) || (rows[i].pool == rows[j].pool && Earlier(rows[i], rows[j])))
  }

  lemma InResult(rows: seq<Swap>, table: seq<Swap>, chunk: set<string>, rank: string -> int, i: nat)
    requires Result(rows, table, chunk, rank) && i < |rows|
    ensures rows[i].pool in chunk && rows[i] in table
  {
    assert rows[i] in multiset(rows);
    assert multiset(rows)[rows[i]] > 0;
    assert rows[i] in multiset(table);
  }

  lemma ResultIsPoolwise(rows: seq<Swap>, table: seq<Swap>, chunk: set<string>, rank: string -> int)
    requires Chronological(table) && Result(rows, table, chunk, rank)
    ensures PoolwiseChronological(rows) && PoolwiseChronological(table)
  {
    hide Earlier;
  }

  lemma NothingCounted(swaps: seq<Swap>)
    requires forall x :: multiset(swaps)[x] == 0
    ensures swaps == []
  {
    assert multiset(swaps) == multiset{};
    assert |multiset(swaps)| == |swaps|;
  }

  /** The rows of a pool of the chunk are the pool's rows in block order. */
  lemma ResultOf(rows: seq<Swap>, table: seq<Swap>, chunk: set<string>, rank: string -> int, p: string)
    requires Chronological(table) && Result(rows, table, chunk, rank)
    ensures Of(rows, p) == if p in chunk then Of(table, p) else []
  {
    hide Of, Chronological, Earlier, PoolwiseChronological;
    ResultIsPoolwise(rows, table, chunk, rank);
    OfIsChronological(rows, p);
    OfIsChronological(table, p);
    forall x ensures multiset(Of(rows, p))[x] == if p in chunk then multiset(Of(table, p))[x] else 0 {
      OfCounts(rows, p, x);
      OfCounts(table, p, x);
    }
    hide Result;
    if p in chunk {
      assert multiset(Of(rows, p)) == multiset(Of(table, p));
      OrderIsUnique(Of(rows, p), Of(table, p));
    } else {
      NothingCounted(Of(rows, p));
    }
  }

  /** Rows of one pool are not interrupted by another pool. */
  ghost predicate Contiguous(swaps: seq<Swap>) {
    forall i, j, k :: 0 <= i < j < k < |swaps| && swaps[i].pool == swaps[k].pool ==> swaps[j].pool == swaps[i].pool
  }

  lemma ResultIsContiguous(rows: seq<Swap>, table: seq<Swap>, chunk: set<string>, rank: string -> int)
    requires Collation(rank) && Result(rows, table, chunk, rank)
    ensures Contiguous(rows)
  {
    hide Earlier;
    forall i, j, k | 0 <= i < j < k < |rows| && rows[i].pool == rows[k].pool ensures rows[j].pool == rows[i].pool {
      assert rank(rows[i].pool) <= rank(rows[j].pool) <= rank(rows[k].pool);
    }
  }

  // ----- all chunks

  function Stream(results: seq<seq<Swap>>): seq<Swap> {
    if |results| == 0 then [] else Stream(results[..|results| - 1]) + results[|results| - 1]
  }

  /** One result for each chunk; no pool is in two chunks. */
  ghost predicate Fetched(results: seq<seq<Swap>>, table: seq<Swap>, chunks: seq<set<string>>, rank: string -> int) {
    && |results| == |chunks| && (forall i, j :: 0 <= i < j < |chunks| ==> chunks[i] !! chunks[j])
    && (forall i :: 0 <= i < |results| ==> Result(results[i], table, chunks[i], rank))
  }

  function All(chunks: seq<set<string>>): set<string> {
    if |chunks| == 0 then {} else All(chunks[..|chunks| - 1]) + chunks[|chunks| - 1]
  }

  lemma {:induction false} LastIsNew(chunks: seq<set<string>>, chunk: set<string>)
    requires forall i :: 0 <= i < |chunks| ==> chunks[i] !! chunk
    ensures All(chunks) !! chunk
  {
    if |chunks| > 0 { LastIsNew(chunks[..|chunks| - 1], chunk); }
  }

  lemma FetchedBefore(results: seq<seq<Swap>>, table: seq<Swap>, chunks: seq<set<string>>, rank: string -> int)
    requires Fetched(results, table, chunks, rank) && |results| > 0
    ensures Fetched(results[..|results| - 1], table, chunks[..|chunks| - 1], rank)
    ensures Result(results[|results| - 1], table, chunks[|chunks| - 1], rank)
    ensures All(chunks[..|chunks| - 1]) !! chunks[|chunks| - 1]
  {
    hide Result;
    LastIsNew(chunks[..|chunks| - 1], chunks[|chunks| - 1]);
  }

  /** Of every pool that is in a chunk, the stream has exactly the pool's rows, in
      block order. */
  lemma {:induction false} StreamOf(results: seq<seq<Swap>>, table: seq<Swap>, chunks: seq<set<string>>, rank: string -> int,
                                    p: string)
    requires Chronological(table) && Fetched(results, table, chunks, rank)
    ensures Of(Stream(results), p) == if p in All(chunks) then Of(table, p) else []
  {
    if |results| > 0 {
      FetchedBefore(results, table, chunks, rank);
      StreamOf(results[..|results| - 1], table, chunks[..|chunks| - 1], rank, p);
      hide Fetched, Result, Chronological, Of;
      ResultOf(results[|results| - 1], table, chunks[|chunks| - 1], rank, p);
      OfConcat(Stream(results[..|results| - 1]), results[|results| - 1], p);
    }
  }

  lemma ContiguousConcat(a: seq<Swap>, b: seq<Swap>)
    requires Contiguous(a) && Contiguous(b)
    requires forall i, j :: 0 <= i < |a| && 0 <= j < |b| ==> a[i].pool != b[j].pool
    ensures Contiguous(a + b)
  {
    var s := a + b;
    assert forall i :: 0 <= i < |a| ==> s[i] == a[i];
    assert forall i :: |a| <= i < |s| ==> s[i] == b[i - |a|];
    forall i, j, k | 0 <= i < j < k < |s| && s[i].pool == s[k].pool ensures s[j].pool == s[i].pool {
      if i < |a| <= k {
        assert false;
      }
    }
  }

  /** No pool is interrupted, however the pool ids are cut into chunks. */
  lemma {:induction false} StreamIsContiguous(results: seq<seq<Swap>>, table: seq<Swap>, chunks: seq<set<string>>,
                                              rank: string -> int)
    requires Collation(rank) && Fetched(results, table, chunks, rank)
    ensures Contiguous(Stream(results)) && forall i :: 0 <= i < |Stream(results)| ==> Stream(results)[i].pool in All(chunks)
    ensures forall x :: x in Stream(results) ==> x in table
  {
    if |results| > 0 {
      var n := |results| - 1;
      FetchedBefore(results, table, chunks, rank);
      StreamIsContiguous(results[..n], table, chunks[..n], rank);
      ResultIsContiguous(results[n], table, chunks[n], rank);
      forall i | 0 <= i < |results[n]| ensures results[n][i].pool in chunks[n] && results[n][i] in table {
        InResult(results[n], table, chunks[n], rank, i);
      }
      hide Fetched, Result, Contiguous, Collation;
      ContiguousConcat(Stream(results[..n]), results[n]);
    }
  }

  // ----- rows and their legs

  function RowsOf(swaps: seq<Swap>, pools: map<string, (string, string)>, tokens: Tokens): (rows: seq<Row>)
    ensures |rows| == |swaps| && forall i :: 0 <= i < |rows| ==> rows[i] == RowOf(swaps[i], pools, tokens)
  {
    if |swaps| == 0 then []
    else RowsOf(swaps[..|swaps| - 1], pools, tokens) + [RowOf(swaps[|swaps| - 1], pools, tokens)]
  }

  lemma RowsAreValued(swaps: seq<Swap>, pools: map<string, (string, string)>, tokens: Tokens)
    ensures RowsValued(RowsOf(swaps, pools, tokens)) && AllValued(Legs(RowsOf(swaps, pools, tokens)))
  {
    var rows := RowsOf(swaps, pools, tokens);
    hide RowsOf, RowOf;
    forall i | 0 <= i < |rows| && rows[i].leg.Some? ensures rows[i].leg.value.Valued() && rows[i].leg.value.pool == rows[i].pool {
      RowIsValued(swaps[i], pools, tokens);
      assert [RowOf(swaps[i], pools, tokens)][0] == rows[i];
    }
    LegsOfRows(rows);
  }

  function LegsOf(swaps: seq<Swap>, pools: map<string, (string, string)>, tokens: Tokens): (legs: seq<Leg>)
    ensures AllValued(legs)
  {
    RowsAreValued(swaps, pools, tokens);
    Legs(RowsOf(swaps, pools, tokens))
  }

  lemma LegsOfMore(swaps: seq<Swap>, pools: map<string, (string, string)>, tokens: Tokens)
    requires |swaps| > 0
    ensures var before, leg := swaps[..|swaps| - 1], RowOf(swaps[|swaps| - 1], pools, tokens).leg;
            LegsOf(swaps, pools, tokens) == LegsOf(before, pools, tokens) + (if leg == None then [] else [leg.value])
  {
    hide RowOf;
    var rows := RowsOf(swaps, pools, tokens);
    assert rows[..|rows| - 1] == RowsOf(swaps[..|swaps| - 1], pools, tokens);
  }

  /** Pool ids are stored in lower case. */
  ghost predicate Stored(swaps: seq<Swap>) {
    forall i :: 0 <= i < |swaps| ==> Lower(swaps[i].pool) == swaps[i].pool
  }

  lemma RowPool(swap: Swap, pools: map<string, (string, string)>, tokens: Tokens)
    requires Lower(swap.pool) == swap.pool
    ensures var row := RowOf(swap, pools, tokens);
            row.pool == swap.pool && (row.leg.Some? ==> row.leg.value.pool == swap.pool && swap.pool in pools)
  {
    hide Pow10, Lower;
    assert swap.(pool := swap.pool) == swap;
  }

  /** The legs of a pool come from its swaps alone. */
  lemma {:induction false} LegsOfPool(swaps: seq<Swap>, pools: map<string, (string, string)>, tokens: Tokens, p: string)
    requires Stored(swaps)
    ensures OfPool(LegsOf(swaps, pools, tokens), p) == LegsOf(Of(swaps, p), pools, tokens)
  {
    hide RowOf, OfPool, LegsOf;
    if |swaps| == 0 {
      NoLegsAtAll(pools, tokens, p);
      assert swaps == [];
    } else {
      var before, last := swaps[..|swaps| - 1], swaps[|swaps| - 1];
      LegsOfPool(before, pools, tokens, p);
      RowPool(last, pools, tokens);
      LegsOfMore(swaps, pools, tokens);
      var leg := RowOf(last, pools, tokens).leg;
      if leg != None { OneMoreOfPool(LegsOf(before, pools, tokens), leg.value, p); }
      assert LegsOf(before, pools, tokens) + [] == LegsOf(before, pools, tokens);
      assert OfPool(LegsOf(before, pools, tokens), p) + [] == OfPool(LegsOf(before, pools, tokens), p);
      if last.pool == p {
        LegsOfMore(Of(swaps, p), pools, tokens);
        assert Of(swaps, p)[..|Of(swaps, p)| - 1] == Of(before, p);
      } else {
        assert Of(swaps, p) == Of(before, p);
      }
    }
  }

  lemma NoLegsAtAll(pools: map<string, (string, string)>, tokens: Tokens, p: string)
    ensures OfPool(LegsOf([], pools, tokens), p) == [] && LegsOf(Of([], p), pools, tokens) == []
  {
  }

  /** Swaps of a pool that is not known yield no legs. */
  lemma {:induction false} UnknownPool(swaps: seq<Swap>, pools: map<string, (string, string)>, tokens: Tokens, p: string)
    requires p !in pools && Stored(swaps)
    ensures LegsOf(Of(swaps, p), pools, tokens) == []
  {
    hide RowOf, LegsOf;
    if |swaps| == 0 {
      NoLegsAtAll(pools, tokens, p);
      assert swaps == [];
    } else {
      UnknownPool(swaps[..|swaps| - 1], pools, tokens, p);
      if swaps[|swaps| - 1].pool == p {
        RowPool(swaps[|swaps| - 1], pools, tokens);
        LegsOfMore(Of(swaps, p), pools, tokens);
        assert Of(swaps, p)[..|Of(swaps, p)| - 1] == Of(swaps[..|swaps| - 1], p);
      } else {
        assert Of(swaps, p) == Of(swaps[..|swaps| - 1], p);
      }
    }
  }

  // ----- what the streamed order gives

  /** Whatever the collation and however the known pool ids are cut into chunks, the
      streamed rows never interrupt a pool, and every pool has there the same legs in
      the same order as in the table ordered by block. */
  lemma StreamIsByPool(table: seq<Swap>, results: seq<seq<Swap>>, chunks: seq<set<string>>, rank: string -> int,
                       pools: map<string, (string, string)>, tokens: Tokens)
    requires Chronological(table) && Stored(table) && Collation(rank)
    requires Fetched(results, table, chunks, rank) && All(chunks) == pools.Keys
    ensures ByPool(RowsOf(Stream(results), pools, tokens))
    ensures SamePools(LegsOf(Stream(results), pools, tokens), LegsOf(table, pools, tokens))
  {
    StreamIsContiguous(results, table, chunks, rank);
    hide Fetched, Collation, Chronological, All, LegsOf, RowOf, Of, OfPool;
    var stream := Stream(results);
    hide Stream;
    forall i | 0 <= i < |stream| ensures RowOf(stream[i], pools, tokens).pool == stream[i].pool && Lower(stream[i].pool) == stream[i].pool {
      assert stream[i] in table;
      RowPool(stream[i], pools, tokens);
    }
    hide RowsOf, Lower;
    forall p ensures OfPool(LegsOf(stream, pools, tokens), p) == OfPool(LegsOf(table, pools, tokens), p) {
      StreamOf(results, table, chunks, rank, p);
      LegsOfPool(stream, pools, tokens, p);
      LegsOfPool(table, pools, tokens, p);
      if p !in pools {
        UnknownPool(stream, pools, tokens, p);
        UnknownPool(table, pools, tokens, p);
      }
    }
  }

  /** The wallet is clean in every pool of the table. */
  ghost predicate CleanIn(legs: seq<Leg>, w: string)
    requires AllValued(legs)
  {
    forall p :: p in PoolsIn(legs) ==> Clean(legs, p, w)
  }

  /** The conservation law across modules: what the pass over the streamed rows
      reports for a wallet that is clean in every pool is what `total_pnl` says of the
      whole table in block order. */
  lemma StreamMatchesTotal(table: seq<Swap>, results: seq<seq<Swap>>, chunks: seq<set<string>>, rank: string -> int,
                           pools: map<string, (string, string)>, tokens: Tokens, agg: map<string, Agg>, w: string)
    requires Chronological(table) && Stored(table) && Collation(rank)
    requires Fetched(results, table, chunks, rank) && All(chunks) == pools.Keys
    requires Reported(LegsOf(Stream(results), pools, tokens), agg, w) && CleanIn(LegsOf(table, pools, tokens), w)
    ensures AggOf(agg, w).realized + AggOf(agg, w).unrealized == Worth(LegsOf(table, pools, tokens), w)
  {
    StreamIsByPool(table, results, chunks, rank, pools, tokens);
    hide LegsOf, Fetched, Collation, Chronological, All, Clean, ByPool, SamePools, Stream, RowsOf;
    PoolwiseMatchesTotal(LegsOf(Stream(results), pools, tokens), LegsOf(table, pools, tokens), agg, w);
  }

  /** `stream_pnl_pg` on what its queries return: realised plus unrealised profit of
      every wallet that is clean in the table is what `total_pnl` gives it there. */
  method StreamPnlPg(results: seq<seq<Swap>>, pools: map<string, (string, string)>, tokens: Tokens,
                     ghost table: seq<Swap>, ghost chunks: seq<set<string>>, ghost rank: string -> int)
    returns (agg: map<string, Agg>)
    requires Chronological(table) && Stored(table) && Collation(rank)
    requires Fetched(results, table, chunks, rank) && All(chunks) == pools.Keys
    ensures forall w :: CleanIn(LegsOf(table, pools, tokens), w) ==>
              AggOf(agg, w).realized + AggOf(agg, w).unrealized == Worth(LegsOf(table, pools, tokens), w)
  {
    StreamIsByPool(table, results, chunks, rank, pools, tokens);
    RowsAreValued(Stream(results), pools, tokens);
    hide Chronological, Stored, Collation, Fetched, All, ByPool, RowsValued, Reported, CleanIn, Worth, Stream, SamePools, RowsOf;
    agg := StreamPnl(RowsOf(Stream(results), pools, tokens));
    forall w | CleanIn(LegsOf(table, pools, tokens), w)
      ensures AggOf(agg, w).realized + AggOf(agg, w).unrealized == Worth(LegsOf(table, pools, tokens), w)
    {
      StreamMatchesTotal(table, results, chunks, rank, pools, tokens, agg, w);
    }
  }

  lemma RowScales(swap: Swap, swap': Swap, pools: map<string, (string, string)>, tokens: Tokens, tokens': Tokens)
    requires Rescaled(swap, swap', pools, tokens, tokens')
    ensures RowOf(swap', pools, tokens') == RowOf(swap, pools, tokens)
  {
    hide Pow10, DecimalsOf, LegFromSwap, Lower;
    LowerIdempotent(swap.pool);
    var p := Lower(swap.pool);
    assert p in pools ==> Pair(swap.(pool := p), pools) == Pair(swap, pools);
    LegScales(swap.(pool := p), swap'.(pool := p), pools, tokens, tokens');
  }

  /** Two tables that differ only in how decimals scale the amounts have the same legs,
      so every figure taken from legs is the same. */
  lemma {:induction false} LegsScale(swaps: seq<Swap>, swaps': seq<Swap>, pools: map<string, (string, string)>, tokens: Tokens,
                                     tokens': Tokens)
    requires |swaps'| == |swaps| && forall i :: 0 <= i < |swaps| ==> Rescaled(swaps[i], swaps'[i], pools, tokens, tokens')
    ensures LegsOf(swaps', pools, tokens') == LegsOf(swaps, pools, tokens)
  {
    hide Rescaled, RowOf, LegsOf;
    if |swaps| == 0 {
      assert swaps == [] && swaps' == [];
      NoRowsScale(pools, tokens, tokens');
    } else {
      var n := |swaps| - 1;
      LegsScale(swaps[..n], swaps'[..n], pools, tokens, tokens');
      RowScales(swaps[n], swaps'[n], pools, tokens, tokens');
      LegsOfMore(swaps, pools, tokens);
      LegsOfMore(swaps', pools, tokens');
    }
  }

  lemma NoRowsScale(pools: map<string, (string, string)>, tokens: Tokens, tokens': Tokens)
    ensures LegsOf([], pools, tokens') == LegsOf([], pools, tokens)
  {
  }
}
