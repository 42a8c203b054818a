/** `sybil_clusters` of arc-intel/indexer/scoring.py: union-find over the funder groups of wallets. */
module Clusters {
  import opened Lists
  import opened UnionFind

  // ----- chains

  ghost predicate Walk<W>(links: set<(W, W)>, p: seq<W>) {
    |p| >= 1 && forall i :: 0 <= i < |p| - 1 ==> (p[i], p[i + 1]) in links
  }

  ghost predicate WalkFromTo<W>(links: set<(W, W)>, p: seq<W>, a: W, b: W) {
    Walk(links, p) && p[0] == a && p[|p| - 1] == b
  }

  /** A chain of linked wallets joins a and b. */
  ghost predicate Connected<W(!new)>(links: set<(W, W)>, a: W, b: W) {
    exists p :: WalkFromTo(links, p, a, b)
  }

  ghost predicate Symmetric<W>(links: set<(W, W)>) {
    forall l :: l in links ==> (l.1, l.0) in links
  }

  lemma ConnectedSelf<W(!new)>(links: set<(W, W)>, a: W)
    ensures Connected(links, a, a)
  {
    assert WalkFromTo(links, [a], a, a);
  }

  lemma ConnectedLink<W(!new)>(links: set<(W, W)>, a: W, b: W)
    requires (a, b) in links
    ensures Connected(links, a, b)
  {
    assert WalkFromTo(links, [a, b], a, b);
  }

  lemma ConnectedThrough<W(!new)>(links: set<(W, W)>, a: W, b: W, c: W)
    requires Connected(links, a, b) && Connected(links, b, c)
    ensures Connected(links, a, c)
  {
    var p :| WalkFromTo(links, p, a, b);
    var q :| WalkFromTo(links, q, b, c);
    var r := p[..|p| - 1] + q;
    forall i | 0 <= i < |r| - 1 ensures (r[i], r[i + 1]) in links {
      if i < |p| - 1 {
        assert (p[i], p[i + 1]) in links;
        assert r[i + 1] == p[i + 1];
      } else {
        assert (q[i - |p| + 1], q[i - |p| + 2]) in links;
      }
    }
    assert WalkFromTo(links, r, a, c);
  }

  lemma ConnectedBack<W(!new)>(links: set<(W, W)>, a: W, b: W)
    requires Connected(links, a, b) && Symmetric(links)
    ensures Connected(links, b, a)
  {
    var p :| WalkFromTo(links, p, a, b);
    var r := seq(|p|, i requires 0 <= i < |p| => p[|p| - 1 - i]);
    forall i | 0 <= i < |r| - 1 ensures (r[i], r[i + 1]) in links {
      assert (p[|p| - 2 - i], p[|p| - 2 - i + 1]) in links;
    }
    assert WalkFromTo(links, r, b, a);
  }

  // ----- union-find roots against chains

  /** Every node is joined to its root by a chain of links. */
  ghost predicate Sound<W(!new)>(rep: map<W, W>, links: set<(W, W)>) {
    forall x :: x in rep ==> Connected(links, x, rep[x])
  }

  /** Linked nodes have the same root. */
  ghost predicate Complete<W>(rep: map<W, W>, links: set<(W, W)>) {
    forall l :: l in links ==> l.0 in rep && l.1 in rep && rep[l.0] == rep[l.1]
  }

  lemma MergeIsSound<W(!new)>(rep: map<W, W>, links: set<(W, W)>, a: W, b: W)
    requires Sound(rep, links) && Symmetric(links) && a in rep && b in rep && Connected(links, a, b)
    ensures Sound(Merged(rep, rep[a], rep[b]), links)
  {
    var m := Merged(rep, rep[a], rep[b]);
    forall x | x in m ensures Connected(links, x, m[x]) {
      assert Connected(links, x, rep[x]);
      if rep[x] == rep[b] {
        assert Connected(links, b, rep[b]) && Connected(links, a, rep[a]);
        ConnectedBack(links, b, rep[b]);
        ConnectedBack(links, a, b);
        ConnectedThrough(links, x, rep[b], b);
        ConnectedThrough(links, x, b, a);
        ConnectedThrough(links, x, a, rep[a]);
      }
    }
  }

  lemma {:induction false} RootConstantOnWalk<W>(rep: map<W, W>, links: set<(W, W)>, p: seq<W>)
    requires Complete(rep, links) && Walk(links, p) && p[0] in rep
    ensures p[|p| - 1] in rep && rep[p[0]] == rep[p[|p| - 1]]
  {
    if |p| > 1 {
      assert (p[0], p[1]) in links;
      assert p[1..][|p| - 2] == p[|p| - 1];
      forall i | 0 <= i < |p[1..]| - 1 ensures (p[1..][i], p[1..][i + 1]) in links {
        assert (p[i + 1], p[i + 1 + 1]) in links;
      }
      RootConstantOnWalk(rep, links, p[1..]);
    }
  }

  /** Same root exactly when a chain joins the two. */
  lemma SameRootIffConnected<W(!new)>(rep: map<W, W>, links: set<(W, W)>, x: W, y: W)
    requires Sound(rep, links) && Complete(rep, links) && Symmetric(links) && x in rep && y in rep
    ensures rep[x] == rep[y] <==> Connected(links, x, y)
  {
    if rep[x] == rep[y] {
      ConnectedBack(links, y, rep[y]);
      ConnectedThrough(links, x, rep[x], y);
    }
    if Connected(links, x, y) {
      var p :| WalkFromTo(links, p, x, y);
      RootConstantOnWalk(rep, links, p);
    }
  }

  // ----- sybil_clusters

  datatype Edge = Edge(wallet: string, funder: string, ts: int)

  /** A wallet, lower-cased, and the time it was funded. */
  type Entry = (string, int)

  function Abs(x: int): nat {
    if x < 0 then -x else x
  }

  /** The documented relation: same funder, funded within the window. */
  ghost function SameFunderPairs(edges: seq<Edge>, lower: string -> string, window: int): set<(string, string)> {
    set i: nat, j: nat | i < |edges| && j < |edges| && edges[i].funder == edges[j].funder
                         && Abs(edges[i].ts - edges[j].ts) <= window
      :: (lower(edges[i].wallet), lower(edges[j].wallet))
  }

  function Wallets(edges: seq<Edge>, lower: string -> string): (ws: seq<string>)
    ensures |ws| == |edges|
  {
    seq(|edges|, i requires 0 <= i < |edges| => lower(edges[i].wallet))
  }

  /** The entries of one funder, in input order. */
  function EntriesOf(edges: seq<Edge>, lower: string -> string, funder: string): seq<Entry> {
    if |edges| == 0 then []
    else
      var e := edges[|edges| - 1];
      EntriesOf(edges[..|edges| - 1], lower, funder)
      + (if e.funder == funder then [(lower(e.wallet), e.ts)] else [])
  }

  lemma {:induction false} EntryIsEdge(edges: seq<Edge>, lower: string -> string, funder: string, entry: Entry)
    ensures entry in EntriesOf(edges, lower, funder) <==>
            exists i :: 0 <= i < |edges| && edges[i].funder == funder && entry == (lower(edges[i].wallet), edges[i].ts)
  {
    if |edges| > 0 {
      var init, e := edges[..|edges| - 1], edges[|edges| - 1];
      EntryIsEdge(init, lower, funder, entry);
      if entry in EntriesOf(init, lower, funder) {
        var i :| 0 <= i < |init| && init[i].funder == funder && entry == (lower(init[i].wallet), init[i].ts);
        assert edges[i] == init[i];
      }
      if i :| 0 <= i < |edges| && edges[i].funder == funder && entry == (lower(edges[i].wallet), edges[i].ts) {
        if i < |init| { assert init[i] == edges[i]; }
      }
    }
  }

  function Time(e: Entry): real {
    e.1 as real
  }

  /** Neighbours in sorted order within the window have been given one root, up to position n. */
  ghost predicate Joined(rep: map<string, string>, sorted: seq<Entry>, window: int, n: int) {
    forall i :: 1 <= i < n && i < |sorted| && sorted[i].1 - sorted[i - 1].1 <= window ==>
      sorted[i - 1].0 in rep && sorted[i].0 in rep && rep[sorted[i - 1].0] == rep[sorted[i].0]
  }

  lemma MergeKeepsJoined(rep: map<string, string>, sorted: seq<Entry>, window: int, n: int, ra: string, rb: string)
    requires Joined(rep, sorted, window, n)
    ensures Joined(Merged(rep, ra, rb), sorted, window, n)
  {
  }

  /** Linking neighbours links everything within the window: gaps along the way are smaller. */
  lemma {:induction false} NeighboursSuffice(rep: map<string, string>, sorted: seq<Entry>, window: int, i: nat, j: nat)
    requires Joined(rep, sorted, window, |sorted|) && SortedBy(sorted, Time)
    requires i <= j < |sorted| && sorted[j].1 - sorted[i].1 <= window
    requires sorted[i].0 in rep
    ensures sorted[j].0 in rep && rep[sorted[i].0] == rep[sorted[j].0]
    decreases j - i
  {
    if i < j {
      assert Time(sorted[i]) <= Time(sorted[j - 1]) <= Time(sorted[j]);
      NeighboursSuffice(rep, sorted, window, i, j - 1);
    }
  }

  /** The sorted entries of the funder of edge i. */
  function SortedEntries(edges: seq<Edge>, lower: string -> string, funder: string): seq<Entry> {
    SortBy(EntriesOf(edges, lower, funder), Time)
  }

  lemma EdgeInSorted(edges: seq<Edge>, lower: string -> string, i: nat) returns (p: nat)
    requires i < |edges|
    ensures var s := SortedEntries(edges, lower, edges[i].funder);
            SortedBy(s, Time) && p < |s| && s[p] == (lower(edges[i].wallet), edges[i].ts)
  {
    hide SortBy, EntriesOf;
    var entries := EntriesOf(edges, lower, edges[i].funder);
    SortByIsSort(entries, Time);
    EntryIsEdge(edges, lower, edges[i].funder, (lower(edges[i].wallet), edges[i].ts));
    var s := SortBy(entries, Time);
    p :| 0 <= p < |s| && s[p] == (lower(edges[i].wallet), edges[i].ts);
  }

  ghost predicate FunderJoined(rep: map<string, string>, edges: seq<Edge>, lower: string -> string, window: int, funder: string) {
    var s := SortedEntries(edges, lower, funder);
    Joined(rep, s, window, |s|)
  }

  lemma PairJoined(rep: map<string, string>, edges: seq<Edge>, lower: string -> string, window: int, i: nat, j: nat)
    requires i < |edges| && j < |edges| && edges[i].funder == edges[j].funder
    requires Abs(edges[i].ts - edges[j].ts) <= window
    requires lower(edges[i].wallet) in rep && lower(edges[j].wallet) in rep
    requires FunderJoined(rep, edges, lower, window, edges[i].funder)
    ensures rep[lower(edges[i].wallet)] == rep[lower(edges[j].wallet)]
  {
    hide SortedEntries, SortedBy, Joined;
    var s := SortedEntries(edges, lower, edges[i].funder);
    var p := EdgeInSorted(edges, lower, i);
    var q := EdgeInSorted(edges, lower, j);
    if p <= q {
      NeighboursSuffice(rep, s, window, p, q);
    } else {
      NeighboursSuffice(rep, s, window, q, p);
    }
  }

  lemma AllJoinedIsComplete(rep: map<string, string>, edges: seq<Edge>, lower: string -> string, window: int)
    requires forall i :: 0 <= i < |edges| ==> lower(edges[i].wallet) in rep
    requires forall i :: 0 <= i < |edges| ==> FunderJoined(rep, edges, lower, window, edges[i].funder)
    ensures Complete(rep, SameFunderPairs(edges, lower, window))
  {
    hide FunderJoined;
    forall l | l in SameFunderPairs(edges, lower, window)
      ensures l.0 in rep && l.1 in rep && rep[l.0] == rep[l.1]
    {
      var i: nat, j: nat :| i < |edges| && j < |edges| && edges[i].funder == edges[j].funder
                            && Abs(edges[i].ts - edges[j].ts) <= window
                            && l == (lower(edges[i].wallet), lower(edges[j].wallet));
      PairJoined(rep, edges, lower, window, i, j);
    }
  }

  lemma NeighboursAreRelated(edges: seq<Edge>, lower: string -> string, window: int, funder: string, i: nat)
    requires var s := SortedEntries(edges, lower, funder);
             1 <= i < |s| && s[i].1 - s[i - 1].1 <= window
    ensures var s := SortedEntries(edges, lower, funder);
            (s[i - 1].0, s[i].0) in SameFunderPairs(edges, lower, window)
  {
    hide SortBy, EntriesOf;
    var entries := EntriesOf(edges, lower, funder);
    var s := SortedEntries(edges, lower, funder);
    SortByIsSort(entries, Time);
    assert s[i - 1] in s && s[i] in s;
    assert Time(s[i - 1]) <= Time(s[i]);
    EntryIsEdge(edges, lower, funder, s[i - 1]);
    EntryIsEdge(edges, lower, funder, s[i]);
  }

  lemma RelationIsSymmetric(edges: seq<Edge>, lower: string -> string, window: int)
    ensures Symmetric(SameFunderPairs(edges, lower, window))
  {
  }

  /** Entries grouped by funder, both dicts in insertion order. */
  ghost predicate Grouped(edges: seq<Edge>, lower: string -> string, n: nat, groups: map<string, seq<Entry>>, funders: seq<string>)
    requires n <= |edges|
  {
    && (forall f :: f in groups <==> f in funders)
    && (forall f :: f in groups ==> groups[f] == EntriesOf(edges[..n], lower, f))
    && (forall i :: 0 <= i < n ==> edges[i].funder in groups)
    && (forall f :: f !in groups ==> EntriesOf(edges[..n], lower, f) == [])
  }

  lemma GroupedStep(edges: seq<Edge>, lower: string -> string, n: nat, groups: map<string, seq<Entry>>, funders: seq<string>)
    requires n < |edges| && Grouped(edges, lower, n, groups, funders)
    ensures var (groups', funders') := File(groups, funders, edges[n].funder, (lower(edges[n].wallet), edges[n].ts));
            Grouped(edges, lower, n + 1, groups', funders')
  {
    assert edges[..n + 1][..n] == edges[..n];
  }

  lemma GroupedNone(edges: seq<Edge>, lower: string -> string)
    ensures Grouped(edges, lower, 0, map[], [])
  {
  }

  lemma FirstSeenMore<T>(s: seq<T>, n: nat)
    requires n < |s|
    ensures FirstSeen(s[..n + 1]) == if s[n] in FirstSeen(s[..n]) then FirstSeen(s[..n]) else FirstSeen(s[..n]) + [s[n]]
  {
    assert s[..n + 1][..n] == s[..n];
  }

  /** Nodes that had one root still have one root. */
  ghost predicate Coarser(rep: map<string, string>, rep': map<string, string>) {
    && rep.Keys == rep'.Keys
    && forall x, y :: x in rep && y in rep && rep[x] == rep[y] ==> rep'[x] == rep'[y]
  }

  /** Neighbours within the window are linked. */
  ghost predicate Related(entries: seq<Entry>, window: int, links: set<(string, string)>) {
    forall i :: 1 <= i < |entries| && entries[i].1 - entries[i - 1].1 <= window ==>
      (entries[i - 1].0, entries[i].0) in links
  }

  /** What the loop over one funder's entries keeps, after position i. */
  ghost predicate Linking(rep0: map<string, string>, rep: map<string, string>, entries: seq<Entry>, window: int,
                          links: set<(string, string)>, i: nat)
  {
    Sound(rep, links) && Symmetric(links) && Coarser(rep0, rep) && Joined(rep, entries, window, i)
  }

  lemma LinkingStarts(rep: map<string, string>, entries: seq<Entry>, window: int, links: set<(string, string)>)
    requires Sound(rep, links) && Symmetric(links)
    ensures Linking(rep, rep, entries, window, links, 0) && Linking(rep, rep, entries, window, links, 1)
  {
    hide Sound, Symmetric;
  }

  /** One step of the loop over sorted entries. */
  lemma LinkingStep(rep0: map<string, string>, rep: map<string, string>, entries: seq<Entry>, window: int,
                    links: set<(string, string)>, i: nat)
    requires Linking(rep0, rep, entries, window, links, i) && Related(entries, window, links)
    requires 1 <= i < |entries| && entries[i - 1].0 in rep && entries[i].0 in rep
    ensures Linking(rep0, United(rep, entries[i - 1], entries[i], window), entries, window, links, i + 1)
  {
    hide Sound, Connected, Symmetric, Merged;
    var a, b := entries[i - 1].0, entries[i].0;
    if entries[i].1 - entries[i - 1].1 <= window {
      ConnectedLink(links, a, b);
      MergeIsSound(rep, links, a, b);
      MergeKeepsJoined(rep, entries, window, i, rep[a], rep[b]);
      MergeIsCoarser(rep0, rep, rep[a], rep[b]);
      MergeJoins(rep, a, b);
    }
  }

  lemma MergeIsCoarser(rep0: map<string, string>, rep: map<string, string>, ra: string, rb: string)
    requires Coarser(rep0, rep)
    ensures Coarser(rep0, Merged(rep, ra, rb))
  {
  }

  lemma MergeJoins(rep: map<string, string>, a: string, b: string)
    requires a in rep && b in rep
    ensures var m := Merged(rep, rep[a], rep[b]); m[a] == m[b]
  {
  }

  /** The roots after handling two neighbouring entries. */
  function United(rep: map<string, string>, prev: Entry, cur: Entry, window: int): (rep': map<string, string>)
    requires prev.0 in rep && cur.0 in rep
    ensures rep'.Keys == rep.Keys
  {
    if cur.1 - prev.1 <= window then Merged(rep, rep[prev.0], rep[cur.0]) else rep
  }

  /** The loop body: `find` both, and `union` them when the gap is within the window. */
  method Unite(uf: UnionFind<string>, prev: Entry, cur: Entry, window: int)
    requires uf.Valid() && prev.0 in uf.rep && cur.0 in uf.rep
    modifies uf
    ensures uf.Valid() && uf.order == old(uf.order)
    ensures uf.rep == United(old(uf.rep), prev, cur, window)
  {
    hide UnionFind.Valid, Merged;
    var _ := uf.Find(prev.0);
    var _ := uf.Find(cur.0);
    if cur.1 - prev.1 <= window {
      uf.Union(prev.0, cur.0);
    }
  }

  /** The loop over one funder's sorted entries: neighbours within the window are united. */
  method LinkEntries(uf: UnionFind<string>, entries: seq<Entry>, window: int, ghost links: set<(string, string)>)
    requires uf.Valid() && Sound(uf.rep, links) && Symmetric(links)
    requires forall i :: 0 <= i < |entries| ==> entries[i].0 in uf.rep
    requires Related(entries, window, links)
    modifies uf
    ensures uf.Valid() && uf.order == old(uf.order) && Sound(uf.rep, links)
    ensures Joined(uf.rep, entries, window, |entries|)
    ensures Coarser(old(uf.rep), uf.rep)
  {
    hide UnionFind.Valid, Linking, United, Related, Sound, Symmetric, Joined, Coarser;
    LinkingStarts(uf.rep, entries, window, links);
    var i := 1;
    while i < |entries|
      invariant 1 <= i && (i <= |entries| || i == 1)
      invariant uf.Valid() && uf.order == old(uf.order) && uf.rep.Keys == old(uf.rep).Keys
      invariant Linking(old(uf.rep), uf.rep, entries, window, links, i)
      invariant i == 1 ==> uf.rep == old(uf.rep)
    {
      LinkingStep(old(uf.rep), uf.rep, entries, window, links, i);
      Unite(uf, entries[i - 1], entries[i], window);
      i := i + 1;
    }
    LinkingDone(old(uf.rep), uf.rep, entries, window, links);
  }

  lemma LinkingDone(rep0: map<string, string>, rep: map<string, string>, entries: seq<Entry>, window: int,
                    links: set<(string, string)>)
    requires Linking(rep0, rep, entries, window, links, |entries|)
    ensures Sound(rep, links) && Coarser(rep0, rep) && Joined(rep, entries, window, |entries|)
  {
  }

  method LinkFunders(uf: UnionFind<string>, edges: seq<Edge>, lower: string -> string, window: int,
                     groups: map<string, seq<Entry>>, funders: seq<string>)
    requires uf.Valid() && AllRoots(uf.rep)
    requires Grouped(edges, lower, |edges|, groups, funders)
    requires forall w :: w in Wallets(edges, lower) ==> w in uf.rep
    modifies uf
    ensures uf.Valid() && uf.order == old(uf.order)
    ensures Sound(uf.rep, SameFunderPairs(edges, lower, window))
    ensures Complete(uf.rep, SameFunderPairs(edges, lower, window))
  {
    hide UnionFind.Valid, AllRoots, Grouped, SameFunderPairs, FunderJoined, Sound, Symmetric, Complete, Wallets, Related, EntriesOf, SortBy, Joined, Coarser;
    ghost var links := SameFunderPairs(edges, lower, window);
    RelationIsSymmetric(edges, lower, window);
    SelfRootsAreSound(uf.rep, links);
    GroupedAll(edges, lower, groups, funders);
    uf.KnownIffOrdered();
    for k := 0 to |funders|
      invariant uf.Valid() && uf.order == old(uf.order)
      invariant Sound(uf.rep, links)
      invariant forall j :: 0 <= j < k ==> FunderJoined(uf.rep, edges, lower, window, funders[j])
    {
      var f := funders[k];
      var entries := SortBy(groups[f], Time);
      assert entries == SortedEntries(edges, lower, f);
      FunderEntries(edges, lower, window, f);
      ghost var before := uf.rep;
      uf.KnownIffOrdered();
      LinkEntries(uf, entries, window, links);
      JoinedIsFunderJoined(uf.rep, edges, lower, window, f);
      forall j | 0 <= j < k ensures FunderJoined(uf.rep, edges, lower, window, funders[j]) {
        CoarserKeepsJoined(before, uf.rep, edges, lower, window, funders[j]);
      }
    }
    uf.KnownIffOrdered();
    forall i | 0 <= i < |edges| ensures lower(edges[i].wallet) in uf.rep {
      WalletAt(edges, lower, i);
    }
    AllJoinedIsComplete(uf.rep, edges, lower, window);
  }

  lemma SelfRootsAreSound(rep: map<string, string>, links: set<(string, string)>)
    requires AllRoots(rep)
    ensures Sound(rep, links)
  {
    forall x | x in rep ensures Connected(links, x, rep[x]) { ConnectedSelf(links, x); }
  }

  lemma GroupedAll(edges: seq<Edge>, lower: string -> string, groups: map<string, seq<Entry>>, funders: seq<string>)
    requires Grouped(edges, lower, |edges|, groups, funders)
    ensures forall f :: f in funders ==> f in groups && groups[f] == EntriesOf(edges, lower, f)
    ensures forall i :: 0 <= i < |edges| ==> edges[i].funder in funders
  {
    assert edges[..|edges|] == edges;
  }

  lemma JoinedIsFunderJoined(rep: map<string, string>, edges: seq<Edge>, lower: string -> string, window: int, funder: string)
    requires var s := SortedEntries(edges, lower, funder); Joined(rep, s, window, |s|)
    ensures FunderJoined(rep, edges, lower, window, funder)
  {
  }

  lemma CoarserKeepsJoined(rep: map<string, string>, rep': map<string, string>, edges: seq<Edge>,
                           lower: string -> string, window: int, funder: string)
    requires FunderJoined(rep, edges, lower, window, funder) && Coarser(rep, rep')
    ensures FunderJoined(rep', edges, lower, window, funder)
  {
    hide SortedEntries;
  }

  lemma FunderEntries(edges: seq<Edge>, lower: string -> string, window: int, funder: string)
    ensures Related(SortedEntries(edges, lower, funder), window, SameFunderPairs(edges, lower, window))
    ensures var s := SortedEntries(edges, lower, funder);
            forall p :: 0 <= p < |s| ==> s[p].0 in Wallets(edges, lower)
  {
    hide SameFunderPairs, EntriesOf, SortBy;
    var s := SortedEntries(edges, lower, funder);
    forall i | 1 <= i < |s| && s[i].1 - s[i - 1].1 <= window
      ensures (s[i - 1].0, s[i].0) in SameFunderPairs(edges, lower, window)
    {
      NeighboursAreRelated(edges, lower, window, funder, i);
    }
    SortByIsSort(EntriesOf(edges, lower, funder), Time);
    forall p | 0 <= p < |s| ensures s[p].0 in Wallets(edges, lower) {
      assert s[p] in s;
      InSorted(edges, lower, funder, s[p]);
      EntryWallet(edges, lower, funder, s[p]);
    }
  }

  lemma InSorted(edges: seq<Edge>, lower: string -> string, funder: string, entry: Entry)
    requires entry in SortedEntries(edges, lower, funder)
    ensures entry in EntriesOf(edges, lower, funder)
  {
    SortByIsSort(EntriesOf(edges, lower, funder), Time);
  }

  lemma EntryWallet(edges: seq<Edge>, lower: string -> string, funder: string, entry: Entry)
    requires entry in EntriesOf(edges, lower, funder)
    ensures entry.0 in Wallets(edges, lower)
  {
    EntryIsEdge(edges, lower, funder, entry);
    var i :| 0 <= i < |edges| && edges[i].funder == funder && entry == (lower(edges[i].wallet), edges[i].ts);
    assert Wallets(edges, lower)[i] == entry.0;
  }

  ghost predicate AllRoots(rep: map<string, string>) {
    forall x :: x in rep ==> rep[x] == x
  }

  lemma AllRootsStep(rep: map<string, string>, w: string)
    requires AllRoots(rep)
    ensures AllRoots(Registered(rep, w))
  {
  }

  /** The first loop: every wallet registered, every entry filed under its funder. */
  method FileEntries(edges: seq<Edge>, lower: string -> string)
    returns (uf: UnionFind<string>, groups: map<string, seq<Entry>>, funders: seq<string>)
    ensures uf.Valid() && fresh(uf)
    ensures uf.order == FirstSeen(Wallets(edges, lower)[..|edges|])
    ensures AllRoots(uf.rep)
    ensures Grouped(edges, lower, |edges|, groups, funders)
  {
    uf := new UnionFind<string>();
    groups, funders := map[], [];
    GroupedNone(edges, lower);
    ghost var wallets := Wallets(edges, lower);
    assert FirstSeen(wallets[..0]) == [] && AllRoots(uf.rep);
    hide UnionFind.Valid, Registered, AllRoots, Wallets, Grouped, FirstSeen, File;
    for n := 0 to |edges|
      invariant uf.Valid() && fresh(uf)
      invariant uf.order == FirstSeen(wallets[..n])
      invariant AllRoots(uf.rep)
      invariant Grouped(edges, lower, n, groups, funders)
    {
      var e := edges[n];
      WalletAt(edges, lower, n);
      FirstSeenMore(wallets, n);
      uf.KnownIffOrdered();
      GroupedStep(edges, lower, n, groups, funders);
      AllRootsStep(uf.rep, lower(e.wallet));
      var _ := uf.Find(lower(e.wallet));
      var filed := File(groups, funders, e.funder, (lower(e.wallet), e.ts));
      groups, funders := filed.0, filed.1;
    }
  }

  /** `by_funder.setdefault(funder, []).append(entry)`, with the key order of the dict. */
  function File(groups: map<string, seq<Entry>>, funders: seq<string>, funder: string, entry: Entry)
    : (map<string, seq<Entry>>, seq<string>)
  {
    (groups[funder := (if funder in groups then groups[funder] else []) + [entry]],
     if funder in groups then funders else funders + [funder])
  }

  /** Cluster ids by wallet, and the wallets in dict order. Two wallets share an id
      exactly when a chain of same-funder, within-window pairs joins them. */
  method SybilClusters(edges: seq<Edge>, lower: string -> string, window: int)
    returns (ids: map<string, int>, order: seq<string>)
    ensures order == FirstSeen(Wallets(edges, lower))
    ensures forall w :: w in ids <==> w in order
    ensures forall a, b :: a in ids && b in ids ==>
      (ids[a] == ids[b] <==> Connected(SameFunderPairs(edges, lower, window), a, b))
    ensures NumberedAsMet(order, ids)
  {
    hide UnionFind.Valid, AllRoots, Wallets, Connected, SameFunderPairs, Grouped, Symmetric, FirstSeen, Sound, Complete, NumberedAsMet;
    var uf, groups, funders := FileEntries(edges, lower);
    WalletsKnown(edges, lower, uf.order);
    uf.KnownIffOrdered();
    LinkFunders(uf, edges, lower, window, groups, funders);
    order := uf.order;
    ids := uf.NumberRoots();
    uf.KnownIffOrdered();
    RelationIsSymmetric(edges, lower, window);
    forall a, b | a in ids && b in ids
      ensures ids[a] == ids[b] <==> Connected(SameFunderPairs(edges, lower, window), a, b)
    {
      SameRootIffConnected(uf.rep, SameFunderPairs(edges, lower, window), a, b);
    }
  }

  lemma WalletAt(edges: seq<Edge>, lower: string -> string, n: nat)
    requires n < |edges|
    ensures |Wallets(edges, lower)| == |edges| && Wallets(edges, lower)[n] == lower(edges[n].wallet)
  {
  }

  lemma WalletsKnown(edges: seq<Edge>, lower: string -> string, order: seq<string>)
    requires order == FirstSeen(Wallets(edges, lower)[..|edges|])
    ensures order == FirstSeen(Wallets(edges, lower))
    ensures forall w :: w in Wallets(edges, lower) ==> w in order
  {
    var wallets := Wallets(edges, lower);
    assert wallets[..|edges|] == wallets;
    FirstSeenKeys(wallets);
  }
}
