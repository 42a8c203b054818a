/** The wash-trade filter of arc-intel/monetization/antiwash.py. */
module Antiwash {
  import opened Lists
  import opened Reals
  import opened Text

  datatype Fill = Fill(id: string, user: string, token: string, side: string, ts: int, usdc: real)

  type Key = (string, string)

  function KeyOf(f: Fill): Key {
    (f.user, Lower(f.token))
  }

  /** A buy and a sell, or any two different sides, of one user and token within the window. */
  predicate Pair(f: Fill, g: Fill, window: int) {
    KeyOf(f) == KeyOf(g) && f.side != g.side && -window <= f.ts - g.ts <= window
  }

  /** The fill is half of a round trip among the fills. */
  predicate Washed(fills: seq<Fill>, f: Fill, window: int) {
    exists g :: g in fills && Pair(f, g, window)
  }

  ghost predicate DroppedId(fills: seq<Fill>, id: string, window: int) {
    exists f :: f in fills && f.id == id && Washed(fills, f, window)
  }

  // ----- roundtrip_fill_ids

  function ByTime(fills: seq<Fill>): seq<Fill> {
    SortBy(fills, (f: Fill) => f.ts as real)
  }

  /** Ids of the pairs of list positions visited so far: all (i', j') before (i, j). */
  ghost predicate Found(lst: seq<Fill>, window: int, i: nat, j: nat, drop: set<string>) {
    forall id :: id in drop <==> exists a, b :: PairBefore(lst, window, i, j, a, b) && (lst[a].id == id || lst[b].id == id)
  }

  predicate PairBefore(lst: seq<Fill>, window: int, i: nat, j: nat, a: int, b: int) {
    0 <= a < b < |lst| && (a < i || (a == i && b < j)) && Pair(lst[a], lst[b], window)
  }

  /** The two index loops over one sorted group. */
  method RoundTrips(lst: seq<Fill>, window: int) returns (drop: set<string>)
    requires forall a, b :: 0 <= a < |lst| && 0 <= b < |lst| ==> KeyOf(lst[a]) == KeyOf(lst[b])
    ensures forall id :: id in drop <==> DroppedId(lst, id, window)
  {
    hide Pair, KeyOf;
    drop := {};
    for i := 0 to |lst|
      invariant Found(lst, window, i, 0, drop)
    {
      FoundRow(lst, window, i, drop);
      for j := i + 1 to |lst|
        invariant Found(lst, window, i, j, drop)
      {
        FoundStep(lst, window, i, j, drop);
        PairHere(lst[i], lst[j], window);
        if lst[i].side != lst[j].side {
          var gap := lst[j].ts - lst[i].ts;
          if (if gap >= 0 then gap else -gap) <= window {
            drop := drop + {lst[i].id, lst[j].id};
          }
        }
      }
      FoundNext(lst, window, i, drop);
    }
    FoundAll(lst, window, drop);
  }

  lemma PairHere(f: Fill, g: Fill, window: int)
    requires KeyOf(f) == KeyOf(g)
    ensures Pair(f, g, window) <==> f.side != g.side && (if g.ts - f.ts >= 0 then g.ts - f.ts else f.ts - g.ts) <= window
    ensures Pair(f, g, window) <==> Pair(g, f, window)
  {
  }

  lemma FoundRow(lst: seq<Fill>, window: int, i: nat, drop: set<string>)
    requires Found(lst, window, i, 0, drop)
    ensures Found(lst, window, i, i + 1, drop)
  {
    hide Pair;
    forall a, b ensures PairBefore(lst, window, i, 0, a, b) <==> PairBefore(lst, window, i, i + 1, a, b) {}
  }

  lemma FoundStep(lst: seq<Fill>, window: int, i: nat, j: nat, drop: set<string>)
    requires Found(lst, window, i, j, drop) && i < j < |lst|
    ensures Found(lst, window, i, j + 1, if Pair(lst[i], lst[j], window) then drop + {lst[i].id, lst[j].id} else drop)
  {
    hide Pair;
    forall a, b ensures PairBefore(lst, window, i, j + 1, a, b)
                   <==> PairBefore(lst, window, i, j, a, b) || (a == i && b == j && Pair(lst[i], lst[j], window)) {}
    hide PairBefore;
    if Pair(lst[i], lst[j], window) { assert PairBefore(lst, window, i, j + 1, i, j); }
    forall id | id in drop ensures exists a, b :: PairBefore(lst, window, i, j + 1, a, b) && (lst[a].id == id || lst[b].id == id) {
      var a, b :| PairBefore(lst, window, i, j, a, b) && (lst[a].id == id || lst[b].id == id);
      assert PairBefore(lst, window, i, j + 1, a, b);
    }
  }

  lemma FoundNext(lst: seq<Fill>, window: int, i: nat, drop: set<string>)
    requires Found(lst, window, i, |lst|, drop)
    ensures Found(lst, window, i + 1, 0, drop)
  {
    hide Pair;
    forall a, b ensures PairBefore(lst, window, i, |lst|, a, b) <==> PairBefore(lst, window, i + 1, 0, a, b) {}
  }

  lemma FoundAll(lst: seq<Fill>, window: int, drop: set<string>)
    requires Found(lst, window, |lst|, 0, drop)
    requires forall a, b :: 0 <= a < |lst| && 0 <= b < |lst| ==> KeyOf(lst[a]) == KeyOf(lst[b])
    ensures forall id :: id in drop <==> DroppedId(lst, id, window)
  {
    forall id ensures id in drop <==> DroppedId(lst, id, window) {
      if id in drop {
        var a, b :| PairBefore(lst, window, |lst|, 0, a, b) && (lst[a].id == id || lst[b].id == id);
        PairHere(lst[a], lst[b], window);
        assert lst[a] in lst && lst[b] in lst;
      }
      if DroppedId(lst, id, window) {
        var f :| f in lst && f.id == id && Washed(lst, f, window);
        var g :| g in lst && Pair(f, g, window);
        var a :| 0 <= a < |lst| && lst[a] == f;
        var b :| 0 <= b < |lst| && lst[b] == g;
        PairHere(f, g, window);
        if a < b {
          assert PairBefore(lst, window, |lst|, 0, a, b);
        } else {
          assert PairBefore(lst, window, |lst|, 0, b, a);
        }
      }
    }
  }

  /** The sorted list of one key. */
  function Group(fills: seq<Fill>, k: Key): seq<Fill> {
    ByTime(WithKey(fills, KeyOf, k))
  }

  lemma InGroup(fills: seq<Fill>, k: Key)
    ensures forall f :: f in Group(fills, k) <==> f in fills && KeyOf(f) == k
  {
    hide WithKey, SortBy;
    InWithKey(fills, KeyOf, k);
    SortByIsSort(WithKey(fills, KeyOf, k), (f: Fill) => f.ts as real);
  }

  /** Some key among the first n has dropped the id. */
  ghost predicate DroppedByKeys(fills: seq<Fill>, keys: seq<Key>, n: nat, id: string, window: int) {
    exists m :: 0 <= m < n && m < |keys| && DroppedId(Group(fills, keys[m]), id, window)
  }

  lemma DroppedByKeysStep(fills: seq<Fill>, keys: seq<Key>, n: nat, id: string, window: int)
    requires n < |keys|
    ensures DroppedByKeys(fills, keys, n + 1, id, window)
       <==> DroppedByKeys(fills, keys, n, id, window) || DroppedId(Group(fills, keys[n]), id, window)
  {
    hide DroppedId, Group;
  }

  lemma DroppedByAllKeys(fills: seq<Fill>, keys: seq<Key>, id: string, window: int)
    requires forall k :: k in keys <==> exists f :: f in fills && KeyOf(f) == k
    ensures DroppedByKeys(fills, keys, |keys|, id, window) <==> DroppedId(fills, id, window)
  {
    hide Group, KeyOf;
    if DroppedByKeys(fills, keys, |keys|, id, window) {
      var m :| 0 <= m < |keys| && DroppedId(Group(fills, keys[m]), id, window);
      InGroup(fills, keys[m]);
      var f :| f in Group(fills, keys[m]) && f.id == id && Washed(Group(fills, keys[m]), f, window);
      assert Washed(fills, f, window);
    }
    if DroppedId(fills, id, window) {
      var f :| f in fills && f.id == id && Washed(fills, f, window);
      var g :| g in fills && Pair(f, g, window);
      assert KeyOf(f) in keys;
      var m :| 0 <= m < |keys| && keys[m] == KeyOf(f);
      InGroup(fills, keys[m]);
      assert g in Group(fills, keys[m]) && f in Group(fills, keys[m]);
      assert Washed(Group(fills, keys[m]), f, window);
      assert DroppedId(Group(fills, keys[m]), id, window);
    }
  }

  lemma KeysAreOfFills(fills: seq<Fill>)
    ensures forall k :: k in FirstSeen(KeysOf(fills, KeyOf)) <==> exists f :: f in fills && KeyOf(f) == k
  {
    FirstSeenKeys(KeysOf(fills, KeyOf));
    hide KeyOf;
    var ks := KeysOf(fills, KeyOf);
    forall k ensures k in ks <==> exists f :: f in fills && KeyOf(f) == k {
      if k in ks {
        var i :| 0 <= i < |ks| && ks[i] == k;
        assert fills[i] in fills;
      }
      if f :| f in fills && KeyOf(f) == k {
        var i :| 0 <= i < |fills| && fills[i] == f;
        assert ks[i] == k;
      }
    }
  }

  /** `roundtrip_fill_ids`: exactly the ids of fills with a counterpart on another side
      of the same user and token within the window. */
  method RoundtripFillIds(fills: seq<Fill>, window: int) returns (drop: set<string>)
    ensures forall id :: id in drop <==> DroppedId(fills, id, window)
  {
    var keys, groups := Grouped(fills, KeyOf);
    KeysAreOfFills(fills);
    hide WithKey, FirstSeen, DroppedId, SortBy, DroppedByKeys, KeyOf;
    drop := {};
    forall id ensures !DroppedByKeys(fills, keys, 0, id, window) { NoKeysYet(fills, keys, id, window); }
    for i := 0 to |keys|
      invariant forall id :: id in drop <==> DroppedByKeys(fills, keys, i, id, window)
    {
      InGroup(fills, keys[i]);
      var lst := ByTime(groups[keys[i]]);
      assert forall a :: 0 <= a < |lst| ==> lst[a] in lst;
      var more := RoundTrips(lst, window);
      forall id ensures id in drop + more <==> DroppedByKeys(fills, keys, i + 1, id, window) {
        DroppedByKeysStep(fills, keys, i, id, window);
      }
      drop := drop + more;
    }
    forall id ensures id in drop <==> DroppedId(fills, id, window) { DroppedByAllKeys(fills, keys, id, window); }
  }

  lemma NoKeysYet(fills: seq<Fill>, keys: seq<Key>, id: string, window: int)
    ensures !DroppedByKeys(fills, keys, 0, id, window)
  {
  }

  // ----- filter_fills

  datatype Rules = Rules(minNotional: real, own: set<string>, window: int)

  ghost predicate Keeps(from: seq<Fill>, f: Fill, rules: Rules) {
    Lower(f.token) !in rules.own && f.usdc >= rules.minNotional && !DroppedId(from, f.id, rules.window)
  }

  /** The fills that pass, judged against the list `from`. */
  ghost function Kept(fills: seq<Fill>, from: seq<Fill>, rules: Rules): seq<Fill> {
    if |fills| == 0 then []
    else
      var f := fills[|fills| - 1];
      Kept(fills[..|fills| - 1], from, rules) + (if Keeps(from, f, rules) then [f] else [])
  }

  method FilterFills(fills: seq<Fill>, rules: Rules) returns (out: seq<Fill>)
    ensures out == Kept(fills, fills, rules)
  {
    var drop := RoundtripFillIds(fills, rules.window);
    hide DroppedId;
    out := [];
    for i := 0 to |fills|
      invariant out == Kept(fills[..i], fills, rules)
    {
      var f := fills[i];
      assert fills[..i + 1][..i] == fills[..i];
      if Lower(f.token) !in rules.own && f.usdc >= rules.minNotional && f.id !in drop {
        out := out + [f];
      }
    }
    assert fills[..|fills|] == fills;
  }

  lemma {:induction false} InKept(fills: seq<Fill>, from: seq<Fill>, rules: Rules)
    ensures forall f :: f in Kept(fills, from, rules) <==> f in fills && Keeps(from, f, rules)
  {
    hide Keeps;
    if |fills| > 0 {
      InKept(fills[..|fills| - 1], from, rules);
      assert fills == fills[..|fills| - 1] + [fills[|fills| - 1]];
    }
  }

  predicate UniqueIds(fills: seq<Fill>) {
    forall f, g :: f in fills && g in fills && f.id == g.id ==> f == g
  }

  /** With unique ids a fill is dropped exactly when it is half of a round trip. */
  lemma DroppedIffWashed(fills: seq<Fill>, f: Fill, window: int)
    requires UniqueIds(fills) && f in fills
    ensures DroppedId(fills, f.id, window) <==> Washed(fills, f, window)
  {
    hide Washed;
  }

  /** No round trip survives the filter. */
  lemma NoRoundTripSurvives(fills: seq<Fill>, rules: Rules, f: Fill, g: Fill)
    requires f in Kept(fills, fills, rules) && g in Kept(fills, fills, rules)
    ensures !Pair(f, g, rules.window)
  {
    InKept(fills, fills, rules);
    hide Kept, Pair;
    assert f in fills && g in fills;
    assert !DroppedId(fills, f.id, rules.window);
    assert !Washed(fills, f, rules.window);
  }

  lemma {:induction false} AllKept(fills: seq<Fill>, from: seq<Fill>, rules: Rules)
    requires forall f :: f in fills ==> Keeps(from, f, rules)
    ensures Kept(fills, from, rules) == fills
  {
    hide Keeps;
    if |fills| > 0 {
      var init, f := fills[..|fills| - 1], fills[|fills| - 1];
      assert fills == init + [f];
      assert f in fills && forall g :: g in init ==> g in fills;
      AllKept(init, from, rules);
    }
  }

  /** Filtering what is left changes nothing. */
  lemma FilterIsIdempotent(fills: seq<Fill>, rules: Rules)
    ensures var out := Kept(fills, fills, rules); Kept(out, out, rules) == out
  {
    var out := Kept(fills, fills, rules);
    InKept(fills, fills, rules);
    forall f | f in out ensures Keeps(out, f, rules) {
      assert Keeps(fills, f, rules);
      NothingLeftToDrop(fills, rules, f.id);
    }
    AllKept(out, out, rules);
  }

  lemma NothingLeftToDrop(fills: seq<Fill>, rules: Rules, id: string)
    ensures !DroppedId(Kept(fills, fills, rules), id, rules.window)
  {
    var out := Kept(fills, fills, rules);
    hide Kept;
    forall h, g | h in out && g in out ensures !Pair(h, g, rules.window) { NoRoundTripSurvives(fills, rules, h, g); }
  }

  lemma {:induction false} KeptCounts(fills: seq<Fill>, from: seq<Fill>, rules: Rules, f: Fill)
    ensures multiset(Kept(fills, from, rules))[f] == if Keeps(from, f, rules) then multiset(fills)[f] else 0
  {
    hide Keeps;
    if |fills| > 0 {
      KeptCounts(fills[..|fills| - 1], from, rules, f);
      assert fills == fills[..|fills| - 1] + [fills[|fills| - 1]];
    }
  }

  /** The same fills in any order leave the same fills. */
  lemma FilterIgnoresOrder(a: seq<Fill>, b: seq<Fill>, rules: Rules)
    requires multiset(a) == multiset(b)
    ensures multiset(Kept(a, a, rules)) == multiset(Kept(b, b, rules))
  {
    forall f ensures f in a <==> f in b {
      assert f in a <==> f in multiset(a);
      assert f in b <==> f in multiset(b);
    }
    forall f ensures multiset(Kept(a, a, rules))[f] == multiset(Kept(b, b, rules))[f] {
      SameDrops(a, b, f.id, rules.window);
      KeptCounts(a, a, rules, f);
      KeptCounts(b, b, rules, f);
      hide DroppedId, Kept;
    }
  }

  lemma SameDrops(a: seq<Fill>, b: seq<Fill>, id: string, window: int)
    requires forall f :: f in a <==> f in b
    ensures DroppedId(a, id, window) <==> DroppedId(b, id, window)
  {
    hide Pair;
    forall f ensures Washed(a, f, window) <==> Washed(b, f, window) {}
  }

  /** The fill f is half of a round trip: the same user traded the same token on another
      side at most `window` seconds away. */
  predicate RoundTrip(fills: seq<Fill>, f: Fill, window: int) {
    exists g :: g in fills && f.user == g.user && Lower(f.token) == Lower(g.token) && f.side != g.side
                && (if f.ts >= g.ts then f.ts - g.ts else g.ts - f.ts) <= window
  }

  /** A fill survives exactly when its token is foreign, it is worth the minimum, and no
      fill of its id is half of a round trip. */
  lemma SurvivesIff(fills: seq<Fill>, rules: Rules, f: Fill)
    ensures f in Kept(fills, fills, rules)
       <==> && f in fills && Lower(f.token) !in rules.own && f.usdc >= rules.minNotional
            && forall h :: h in fills && h.id == f.id ==> !RoundTrip(fills, h, rules.window)
  {
    InKept(fills, fills, rules);
    hide Kept, Lower;
    forall h ensures Washed(fills, h, rules.window) <==> RoundTrip(fills, h, rules.window) {
      if Washed(fills, h, rules.window) {
        var g :| g in fills && Pair(h, g, rules.window);
      }
      if RoundTrip(fills, h, rules.window) {
        var g :| g in fills && h.user == g.user && Lower(h.token) == Lower(g.token) && h.side != g.side
                 && (if h.ts >= g.ts then h.ts - g.ts else g.ts - h.ts) <= rules.window;
        assert Pair(h, g, rules.window);
      }
    }
    hide Washed, RoundTrip, Pair;
  }

  // ----- volumes

  /** Volume of one user among the fills. */
  function Volume(fills: seq<Fill>, user: string): real {
    if |fills| == 0 then 0.0
    else Volume(fills[..|fills| - 1], user) + (if fills[|fills| - 1].user == user then fills[|fills| - 1].usdc else 0.0)
  }

  method VolumeByUser(fills: seq<Fill>, rules: Rules) returns (out: map<string, real>)
    ensures forall u :: Term(out, u) == Volume(Kept(fills, fills, rules), u)
  {
    var kept := FilterFills(fills, rules);
    hide Kept;
    out := map[];
    for i := 0 to |kept|
      invariant forall u :: Term(out, u) == Volume(kept[..i], u)
    {
      var f := kept[i];
      assert kept[..i + 1][..i] == kept[..i];
      out := out[f.user := Term(out, f.user) + f.usdc];
    }
    assert kept[..|kept|] == kept;
  }

  /** `funding_of(user) or user`; a missing entry stands for an error or no source. */
  function SourceOf(funding: map<string, string>, user: string): string {
    if user in funding && funding[user] != "" then funding[user] else user
  }

  function UsersOf(funding: map<string, string>, users: set<string>, source: string): set<string> {
    set u | u in users && SourceOf(funding, u) == source
  }

  ghost predicate Merged(vol: map<string, real>, funding: map<string, string>, seen: set<string>, out: map<string, real>) {
    && out.Keys == (set u | u in seen :: SourceOf(funding, u))
    && (forall s :: Term(out, s) == Sum(UsersOf(funding, seen, s), vol))
    && Sum(out.Keys, out) == Sum(seen, vol)
  }

  /** `merge_by_funding`: each source gets the volume of its wallets, and the total stays. */
  method MergeByFunding(vol: map<string, real>, funding: map<string, string>) returns (out: map<string, real>)
    ensures forall s :: Term(out, s) == Sum(UsersOf(funding, vol.Keys, s), vol)
    ensures Sum(out.Keys, out) == Sum(vol.Keys, vol)
    ensures forall u :: u in vol ==> (if u in funding && funding[u] != "" then funding[u] else u) in out
    ensures forall s :: s in out ==> exists w :: w in vol && s == if w in funding && funding[w] != "" then funding[w] else w
  {
    hide Merged, SourceOf;
    out := map[];
    ghost var seen := {};
    var rest := vol.Keys;
    NothingMerged(vol, funding);
    while rest != {}
      invariant seen + rest == vol.Keys && seen !! rest
      invariant Merged(vol, funding, seen, out)
      decreases |rest|
    {
      var u :| u in rest;
      var s := SourceOf(funding, u);
      MergeStep(vol, funding, seen, u, out);
      out := out[s := Term(out, s) + vol[u]];
      rest, seen := rest - {u}, seen + {u};
    }
    assert seen == vol.Keys;
    AllMerged(vol, funding, out);
  }

  lemma AllMerged(vol: map<string, real>, funding: map<string, string>, out: map<string, real>)
    requires Merged(vol, funding, vol.Keys, out)
    ensures forall s :: Term(out, s) == Sum(UsersOf(funding, vol.Keys, s), vol)
    ensures Sum(out.Keys, out) == Sum(vol.Keys, vol)
    ensures forall u :: u in vol ==> (if u in funding && funding[u] != "" then funding[u] else u) in out
    ensures forall s :: s in out ==> exists w :: w in vol && s == if w in funding && funding[w] != "" then funding[w] else w
  {
  }

  /** Two wallets with one funding source end in one entry, and it holds the volume of
      both; a wallet without one keeps its own. */
  lemma OneSourceOneEntry(vol: map<string, real>, funding: map<string, string>, source: string)
    ensures forall u :: u in UsersOf(funding, vol.Keys, source) <==>
              u in vol && (if u in funding && funding[u] != "" then source == funding[u] else source == u)
    ensures forall u, w :: u in vol && w in vol && u in funding && w in funding && funding[u] == funding[w] == source != "" ==>
              u in UsersOf(funding, vol.Keys, source) && w in UsersOf(funding, vol.Keys, source)
  {
  }

  lemma NothingMerged(vol: map<string, real>, funding: map<string, string>)
    ensures Merged(vol, funding, {}, map[])
  {
    forall s ensures UsersOf(funding, {}, s) == {} {}
    var none: map<string, real> := map[];
    assert none.Keys == {};
  }

  lemma MergeStep(vol: map<string, real>, funding: map<string, string>, seen: set<string>, u: string, out: map<string, real>)
    requires u in vol && u !in seen && Merged(vol, funding, seen, out)
    ensures Merged(vol, funding, seen + {u}, out[SourceOf(funding, u) := Term(out, SourceOf(funding, u)) + vol[u]])
  {
    hide SourceOf, Sum;
    var s := SourceOf(funding, u);
    var out' := out[s := Term(out, s) + vol[u]];
    forall t ensures Term(out', t) == Sum(UsersOf(funding, seen + {u}, t), vol) {
      if t == s {
        assert UsersOf(funding, seen + {u}, t) == UsersOf(funding, seen, t) + {u};
        SumChange(UsersOf(funding, seen, t), vol, vol, u);
      } else {
        assert UsersOf(funding, seen + {u}, t) == UsersOf(funding, seen, t);
      }
    }
    SumChange(seen, vol, vol, u);
    SumChange(out.Keys, out, out', s);
    assert out'.Keys == out.Keys + {s};
    assert (set x | x in seen + {u} :: SourceOf(funding, x)) == (set x | x in seen :: SourceOf(funding, x)) + {s};
  }
}
