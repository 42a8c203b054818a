/** `coordinated_clusters` of arc-intel/indexer/pnl.py: wallets that first buy
    the same token in the same block, in groups of at least `min_wallets`. */
module Coordinated {
  import opened Lists
  import opened UnionFind
  import opened Clusters

  /** An item of the dict {(token, wallet): block}. */
  datatype FirstBuy = FirstBuy(token: string, wallet: string, block: int)

  type Slot = (string, int)

  function SlotOf(b: FirstBuy): Slot {
    (b.token, b.block)
  }

  /** The wallets of one (token, block) slot, in dict order. */
  function GroupOf(buys: seq<FirstBuy>, slot: Slot): seq<string> {
    if |buys| == 0 then []
    else
      var b := buys[|buys| - 1];
      GroupOf(buys[..|buys| - 1], slot) + (if SlotOf(b) == slot then [b.wallet] else [])
  }

  lemma {:induction false} InGroup(buys: seq<FirstBuy>, slot: Slot, w: string)
    ensures w in GroupOf(buys, slot) <==> exists i :: 0 <= i < |buys| && SlotOf(buys[i]) == slot && buys[i].wallet == w
  {
    if |buys| > 0 {
      var init, b := buys[..|buys| - 1], buys[|buys| - 1];
      InGroup(init, slot, w);
      if w in GroupOf(init, slot) {
        var i :| 0 <= i < |init| && SlotOf(init[i]) == slot && init[i].wallet == w;
        assert buys[i] == init[i];
      }
      if i :| 0 <= i < |buys| && SlotOf(buys[i]) == slot && buys[i].wallet == w {
        if i < |init| { assert init[i] == buys[i]; }
      }
    }
  }

  /** The first buys come from a dict: no two share token and wallet. */
  predicate OnePerTokenAndWallet(buys: seq<FirstBuy>) {
    forall i, j :: 0 <= i < j < |buys| ==> buys[i].token != buys[j].token || buys[i].wallet != buys[j].wallet
  }

  /** So the wallets of a slot are different, and its length counts wallets. */
  lemma {:induction false} GroupIsDistinct(buys: seq<FirstBuy>, slot: Slot)
    requires OnePerTokenAndWallet(buys)
    ensures Distinct(GroupOf(buys, slot))
  {
    if |buys| > 0 {
      var init, b := buys[..|buys| - 1], buys[|buys| - 1];
      GroupIsDistinct(init, slot);
      InGroup(init, slot, b.wallet);
      var g := GroupOf(init, slot);
      if SlotOf(b) == slot {
        assert b.wallet !in g;
        forall i | 0 <= i < |g| ensures g[i] != b.wallet { assert g[i] in g; }
      }
    }
  }

  /** Item i belongs to a group that is large enough. */
  predicate Counts(buys: seq<FirstBuy>, minWallets: int, i: int)
    requires 0 <= i < |buys|
  {
    |GroupOf(buys, SlotOf(buys[i]))| >= minWallets
  }

  ghost function CoEntryPairs(buys: seq<FirstBuy>, minWallets: int): set<(string, string)> {
    set i: nat, j: nat | i < |buys| && j < |buys| && SlotOf(buys[i]) == SlotOf(buys[j]) && Counts(buys, minWallets, i)
      :: (buys[i].wallet, buys[j].wallet)
  }

  lemma CoEntryIsSymmetric(buys: seq<FirstBuy>, minWallets: int)
    ensures Symmetric(CoEntryPairs(buys, minWallets))
  {
    hide GroupOf;
  }

  lemma GroupIsLinked(buys: seq<FirstBuy>, minWallets: int, slot: Slot, a: string, b: string)
    requires |GroupOf(buys, slot)| >= minWallets && a in GroupOf(buys, slot) && b in GroupOf(buys, slot)
    ensures (a, b) in CoEntryPairs(buys, minWallets)
  {
    hide GroupOf;
    InGroup(buys, slot, a);
    InGroup(buys, slot, b);
    var i :| 0 <= i < |buys| && SlotOf(buys[i]) == slot && buys[i].wallet == a;
    var j :| 0 <= j < |buys| && SlotOf(buys[j]) == slot && buys[j].wallet == b;
    assert Counts(buys, minWallets, i);
  }

  // ----- uniting one group as a star

  /** All members of a group have one root. */
  ghost predicate OneRoot(rep: map<string, string>, ws: seq<string>) {
    forall i :: 0 <= i < |ws| ==> ws[0] in rep && ws[i] in rep && rep[ws[i]] == rep[ws[0]]
  }

  /** Nothing known is forgotten or split; only nodes of `ws` are new. */
  ghost predicate Grown(rep: map<string, string>, rep': map<string, string>, ws: seq<string>) {
    && (forall x :: x in rep' <==> x in rep || x in ws)
    && forall x, y :: x in rep && y in rep && rep[x] == rep[y] ==> rep'[x] == rep'[y]
  }

  ghost predicate Star(rep0: map<string, string>, rep: map<string, string>, ws: seq<string>, n: int,
                       links: set<(string, string)>)
  {
    && Sound(rep, links) && Symmetric(links) && Grown(rep0, rep, ws)
    && forall i :: 0 <= i < n && i < |ws| ==> ws[0] in rep && ws[i] in rep && rep[ws[i]] == rep[ws[0]]
  }

  lemma RegisterStep(rep0: map<string, string>, rep: map<string, string>, ws: seq<string>, n: nat, links: set<(string, string)>)
    requires n < |ws| && Sound(rep, links) && Grown(rep0, rep, ws[..n])
    ensures Sound(Registered(rep, ws[n]), links) && Grown(rep0, Registered(rep, ws[n]), ws[..n + 1])
  {
    hide Connected;
    ConnectedSelf(links, ws[n]);
    assert ws[..n + 1] == ws[..n] + [ws[n]];
  }

  lemma StarStep(rep0: map<string, string>, rep: map<string, string>, ws: seq<string>, n: nat, links: set<(string, string)>)
    requires 1 <= n < |ws| && Star(rep0, rep, ws, n, links) && (ws[0], ws[n]) in links
    ensures ws[0] in rep && ws[n] in rep
    ensures Star(rep0, Merged(rep, rep[ws[0]], rep[ws[n]]), ws, n + 1, links)
  {
    hide Sound, Connected, Symmetric;
    assert ws[0] in ws && ws[n] in ws;
    ConnectedLink(links, ws[0], ws[n]);
    MergeIsSound(rep, links, ws[0], ws[n]);
  }

  method UniteGroup(uf: UnionFind<string>, ws: seq<string>, ghost links: set<(string, string)>)
    requires uf.Valid() && Sound(uf.rep, links) && Symmetric(links)
    requires forall i :: 0 <= i < |ws| ==> (ws[0], ws[i]) in links
    modifies uf
    ensures uf.Valid() && Sound(uf.rep, links) && Grown(old(uf.rep), uf.rep, ws) && OneRoot(uf.rep, ws)
  {
    ghost var rep0 := uf.rep;
    assert Grown(rep0, rep0, ws[..0]);
    hide UnionFind.Valid, Sound, Symmetric, Grown, Merged, Registered;
    for n := 0 to |ws|
      invariant uf.Valid() && Sound(uf.rep, links) && Grown(rep0, uf.rep, ws[..n])
    {
      RegisterStep(rep0, uf.rep, ws, n, links);
      var _ := uf.Find(ws[n]);
    }
    assert ws[..|ws|] == ws;
    UniteStar(uf, ws, rep0, links);
  }

  method UniteStar(uf: UnionFind<string>, ws: seq<string>, ghost rep0: map<string, string>, ghost links: set<(string, string)>)
    requires uf.Valid() && Sound(uf.rep, links) && Symmetric(links) && Grown(rep0, uf.rep, ws)
    requires forall i :: 0 <= i < |ws| ==> (ws[0], ws[i]) in links
    modifies uf
    ensures uf.Valid() && Sound(uf.rep, links) && Grown(rep0, uf.rep, ws) && OneRoot(uf.rep, ws)
  {
    if |ws| == 0 { return; }
    StarStarts(rep0, uf.rep, ws, links);
    hide UnionFind.Valid, Star, Merged;
    for n := 1 to |ws|
      invariant uf.Valid() && Star(rep0, uf.rep, ws, n, links)
    {
      StarStep(rep0, uf.rep, ws, n, links);
      uf.Union(ws[0], ws[n]);
    }
    StarDone(rep0, uf.rep, ws, links);
  }

  lemma StarStarts(rep0: map<string, string>, rep: map<string, string>, ws: seq<string>, links: set<(string, string)>)
    requires |ws| > 0 && Sound(rep, links) && Symmetric(links) && Grown(rep0, rep, ws)
    ensures Star(rep0, rep, ws, 1, links)
  {
    hide Sound, Symmetric;
    assert ws[0] in ws;
  }

  lemma StarDone(rep0: map<string, string>, rep: map<string, string>, ws: seq<string>, links: set<(string, string)>)
    requires Star(rep0, rep, ws, |ws|, links)
    ensures Sound(rep, links) && Grown(rep0, rep, ws) && OneRoot(rep, ws)
  {
  }

  // ----- the whole function

  datatype Groups = Groups(members: map<Slot, seq<string>>, slots: seq<Slot>)

  /** `groups.setdefault(slot, []).append(wallet)`, with the key order of the dict. */
  function Enter(g: Groups, slot: Slot, w: string): Groups {
    Groups(g.members[slot := (if slot in g.members then g.members[slot] else []) + [w]],
           if slot in g.members then g.slots else g.slots + [slot])
  }

  ghost predicate GroupsOf(buys: seq<FirstBuy>, n: nat, g: Groups)
    requires n <= |buys|
  {
    && (forall s :: s in g.members <==> s in g.slots)
    && (forall s :: s in g.members ==> g.members[s] == GroupOf(buys[..n], s))
    && (forall i :: 0 <= i < n ==> SlotOf(buys[i]) in g.members)
    && (forall s :: s !in g.members ==> GroupOf(buys[..n], s) == [])
  }

  lemma GroupsStep(buys: seq<FirstBuy>, n: nat, g: Groups)
    requires n < |buys| && GroupsOf(buys, n, g)
    ensures GroupsOf(buys, n + 1, Enter(g, SlotOf(buys[n]), buys[n].wallet))
  {
    assert buys[..n + 1][..n] == buys[..n];
  }

  lemma GroupsDone(buys: seq<FirstBuy>, g: Groups)
    requires GroupsOf(buys, |buys|, g)
    ensures forall s :: s in g.slots ==> s in g.members && g.members[s] == GroupOf(buys, s)
    ensures forall i :: 0 <= i < |buys| ==> SlotOf(buys[i]) in g.slots
  {
    assert buys[..|buys|] == buys;
  }

  /** Wallets of the large groups among the first k slots are known, and joined. */
  ghost predicate Clustered(buys: seq<FirstBuy>, minWallets: int, slots: seq<Slot>, k: nat, rep: map<string, string>) {
    && (forall j {:trigger slots[j]} :: 0 <= j < k && j < |slots| && |GroupOf(buys, slots[j])| >= minWallets ==>
          OneRoot(rep, GroupOf(buys, slots[j])))
    && forall x :: x in rep ==>
          exists j :: 0 <= j < k && j < |slots| && |GroupOf(buys, slots[j])| >= minWallets && x in GroupOf(buys, slots[j])
  }

  lemma ClusteredStep(buys: seq<FirstBuy>, minWallets: int, slots: seq<Slot>, k: nat,
                      rep: map<string, string>, rep': map<string, string>)
    requires k < |slots| && Clustered(buys, minWallets, slots, k, rep)
    requires if |GroupOf(buys, slots[k])| >= minWallets
             then Grown(rep, rep', GroupOf(buys, slots[k])) && OneRoot(rep', GroupOf(buys, slots[k]))
             else rep' == rep
    ensures Clustered(buys, minWallets, slots, k + 1, rep')
  {
    hide GroupOf;
    forall x | x in rep'
      ensures exists j :: 0 <= j < k + 1 && |GroupOf(buys, slots[j])| >= minWallets && x in GroupOf(buys, slots[j])
    {
      if x in rep {
        var j :| 0 <= j < k && |GroupOf(buys, slots[j])| >= minWallets && x in GroupOf(buys, slots[j]);
      } else {
        assert x in GroupOf(buys, slots[k]);
      }
    }
  }

  lemma CountedIsJoined(buys: seq<FirstBuy>, minWallets: int, slots: seq<Slot>, rep: map<string, string>, i: nat)
    requires Clustered(buys, minWallets, slots, |slots|, rep)
    requires i < |buys| && SlotOf(buys[i]) in slots && Counts(buys, minWallets, i)
    ensures var ws := GroupOf(buys, SlotOf(buys[i]));
            |ws| > 0 && ws[0] in rep && buys[i].wallet in rep && rep[buys[i].wallet] == rep[ws[0]]
  {
    hide GroupOf;
    var ws := GroupOf(buys, SlotOf(buys[i]));
    InGroup(buys, SlotOf(buys[i]), buys[i].wallet);
    var j :| 0 <= j < |slots| && slots[j] == SlotOf(buys[i]);
    assert OneRoot(rep, ws);
    var p :| 0 <= p < |ws| && ws[p] == buys[i].wallet;
  }

  lemma ClusteredIsComplete(buys: seq<FirstBuy>, minWallets: int, slots: seq<Slot>, rep: map<string, string>)
    requires Clustered(buys, minWallets, slots, |slots|, rep)
    requires forall i :: 0 <= i < |buys| ==> SlotOf(buys[i]) in slots
    ensures Complete(rep, CoEntryPairs(buys, minWallets))
  {
    hide GroupOf, Clustered, Counts;
    forall l | l in CoEntryPairs(buys, minWallets) ensures l.0 in rep && l.1 in rep && rep[l.0] == rep[l.1] {
      var i: nat, j: nat :| i < |buys| && j < |buys| && SlotOf(buys[i]) == SlotOf(buys[j])
                            && Counts(buys, minWallets, i) && l == (buys[i].wallet, buys[j].wallet);
      SameSlotCounts(buys, minWallets, i, j);
      CountedIsJoined(buys, minWallets, slots, rep, i);
      CountedIsJoined(buys, minWallets, slots, rep, j);
    }
  }

  lemma SameSlotCounts(buys: seq<FirstBuy>, minWallets: int, i: nat, j: nat)
    requires i < |buys| && j < |buys| && SlotOf(buys[i]) == SlotOf(buys[j]) && Counts(buys, minWallets, i)
    ensures Counts(buys, minWallets, j)
  {
  }

  /** Exactly the wallets of large groups are clustered. */
  lemma ClusteredKeys(buys: seq<FirstBuy>, minWallets: int, slots: seq<Slot>, rep: map<string, string>)
    requires Clustered(buys, minWallets, slots, |slots|, rep)
    requires forall i :: 0 <= i < |buys| ==> SlotOf(buys[i]) in slots
    ensures forall x :: x in rep <==> exists i :: 0 <= i < |buys| && buys[i].wallet == x && Counts(buys, minWallets, i)
  {
    forall i | 0 <= i < |buys| && Counts(buys, minWallets, i) ensures buys[i].wallet in rep {
      CountedIsJoined(buys, minWallets, slots, rep, i);
    }
    forall x | x in rep ensures exists i :: 0 <= i < |buys| && buys[i].wallet == x && Counts(buys, minWallets, i) {
      var j :| 0 <= j < |slots| && |GroupOf(buys, slots[j])| >= minWallets && x in GroupOf(buys, slots[j]);
      hide GroupOf;
      InGroup(buys, slots[j], x);
      var i :| 0 <= i < |buys| && SlotOf(buys[i]) == slots[j] && buys[i].wallet == x;
      assert Counts(buys, minWallets, i);
    }
  }

  /** Ids of exactly the wallets of large groups; equal exactly when a chain of
      shared large groups joins the two wallets. */
  method CoordinatedClusters(buys: seq<FirstBuy>, minWallets: int) returns (ids: map<string, int>, order: seq<string>)
    ensures Distinct(order) && forall w :: w in ids <==> w in order
    ensures forall w :: w in ids <==> exists i :: 0 <= i < |buys| && buys[i].wallet == w && Counts(buys, minWallets, i)
    ensures forall a, b :: a in ids && b in ids ==>
      (ids[a] == ids[b] <==> Connected(CoEntryPairs(buys, minWallets), a, b))
    ensures NumberedAsMet(order, ids)
  {
    hide GroupOf, GroupsOf, Enter, Connected, CoEntryPairs, Counts, NumberedAsMet;
    var g := Groups(map[], []);
    GroupsNone(buys);
    for n := 0 to |buys|
      invariant GroupsOf(buys, n, g)
    {
      GroupsStep(buys, n, g);
      g := Enter(g, SlotOf(buys[n]), buys[n].wallet);
    }
    GroupsDone(buys, g);
    var uf := JoinGroups(buys, minWallets, g);
    order := uf.order;
    uf.KnownIffOrdered();
    uf.OrderIsDistinct();
    hide UnionFind.Valid, Sound, Complete, Symmetric;
    ids := uf.NumberRoots();
    CoEntryIsSymmetric(buys, minWallets);
    forall a, b | a in ids && b in ids
      ensures ids[a] == ids[b] <==> Connected(CoEntryPairs(buys, minWallets), a, b)
    {
      SameRootIffConnected(uf.rep, CoEntryPairs(buys, minWallets), a, b);
    }
  }

  lemma GroupsNone(buys: seq<FirstBuy>)
    ensures GroupsOf(buys, 0, Groups(map[], []))
  {
  }

  method JoinGroups(buys: seq<FirstBuy>, minWallets: int, g: Groups) returns (uf: UnionFind<string>)
    requires forall s :: s in g.slots ==> s in g.members && g.members[s] == GroupOf(buys, s)
    requires forall i :: 0 <= i < |buys| ==> SlotOf(buys[i]) in g.slots
    ensures fresh(uf) && uf.Valid()
    ensures Sound(uf.rep, CoEntryPairs(buys, minWallets)) && Complete(uf.rep, CoEntryPairs(buys, minWallets))
    ensures forall x :: x in uf.rep <==> exists i :: 0 <= i < |buys| && buys[i].wallet == x && Counts(buys, minWallets, i)
  {
    uf := new UnionFind<string>();
    ghost var links := CoEntryPairs(buys, minWallets);
    CoEntryIsSymmetric(buys, minWallets);
    assert Sound(uf.rep, links) && Clustered(buys, minWallets, g.slots, 0, uf.rep);
    hide UnionFind.Valid, GroupOf, CoEntryPairs, Sound, Symmetric, Complete, Clustered, OneRoot, Grown, Counts;
    for k := 0 to |g.slots|
      invariant fresh(uf) && uf.Valid() && Sound(uf.rep, links)
      invariant Clustered(buys, minWallets, g.slots, k, uf.rep)
    {
      var ws := g.members[g.slots[k]];
      ghost var before := uf.rep;
      if |ws| >= minWallets {
        forall i | 0 <= i < |ws| ensures (ws[0], ws[i]) in links {
          GroupIsLinked(buys, minWallets, g.slots[k], ws[0], ws[i]);
        }
        UniteGroup(uf, ws, links);
      }
      ClusteredStep(buys, minWallets, g.slots, k, before, uf.rep);
    }
    ClusteredIsComplete(buys, minWallets, g.slots, uf.rep);
    ClusteredKeys(buys, minWallets, g.slots, uf.rep);
  }
}
