/** The incremental alert engine of arc-intel/indexer/stream_alerts.py: one leg
    at a time over pruned per-bucket caches. */
module StreamAlerts {
  import opened Options
  import opened Reals
  import opened Text
  import opened Lists
  import opened Series

  // ----- configuration and events

  datatype Params = Params(bucketBlocks: int, lookback: nat, zThreshold: real, windowBlocks: int, spikeZ: real,
                           minSpike: real, minConfirm: real, largeSellUsd: real, largeSellRatio: real,
                           priceSurgePct: real, whaleBuyUsd: real, spikeMinPricePct: real, spikeMinBuyRatio: real,
                           sqrt: real -> real, round3: real -> real, pruned: bool)
  {
    predicate Ok() { bucketBlocks >= 1 }

    /** Buckets kept in every cache; the engine always prunes, and one that does not,
        keeping all of them, is what it is compared with. */
    function Keep(): nat { if pruned then lookback * 4 else 0 }
  }

  datatype Side = Buy | Sell | OtherSide

  datatype Leg = Leg(token: string, wallet: string, block: int, qty: real, sv: real, side: Side)
  {
    function Token(): string { Lower(token) }

    function Wallet(): string { Lower(wallet) }

    function Bucket(p: Params): int
      requires p.Ok()
    {
      block / p.bucketBlocks
    }

    function Price(): real {
      if qty > 0.0 then sv / qty else 0.0
    }
  }

  datatype Kind = Graduation | DevSell | LargeSell | WhaleBuy | PriceSurge | VolumeCollapse | Compound | VolumeSpike

  datatype Severity = Low | Medium | High

  datatype Alert = Alert(token: string, kind: Kind, severity: Severity, block: int,
                         wallet: Option<string>, amount: Option<real>, pct: Option<real>)

  // ----- the part of the state that does not depend on emitting

  datatype Position = Position(qty: real, cost: real, entry: int)

  type Cache = map<string, Bucketed>

  datatype Core = Core(seen: set<string>, volume: Cache, prices: Cache, buys: Cache, sells: Cache,
                       positions: map<(string, string), Position>,
                       lastCollapse: map<string, int>, lastSpike: map<string, int>)

  function Of(c: Cache, token: string): Bucketed {
    if token in c then c[token] else map[]
  }

  function Get(m: map<string, int>, token: string): Option<int> {
    if token in m then Some(m[token]) else None
  }

  /** `d[b] = v` in the token's dict, then drop all but the newest `keep` buckets. */
  function Write(c: Cache, token: string, b: int, v: real, keep: nat): Cache {
    c[token := Newest(Of(c, token)[b := v], keep)]
  }

  function Add(c: Cache, token: string, b: int, v: real, keep: nat): Cache {
    Write(c, token, b, At(Of(c, token), b) + v, keep)
  }

  /** Volume, price and flow of the leg entered into the caches. */
  function Record(p: Params, c: Core, leg: Leg): Core
    requires p.Ok()
  {
    var t, b, keep := leg.Token(), leg.Bucket(p), p.Keep();
    c.(seen := if t != "" then c.seen + {t} else c.seen,
       volume := Add(c.volume, t, b, leg.sv, keep),
       prices := if leg.Price() > 0.0 then Write(c.prices, t, b, leg.Price(), keep) else c.prices,
       buys := if leg.side == Buy then Add(c.buys, t, b, leg.sv, keep) else c.buys,
       sells := if leg.side == Sell then Add(c.sells, t, b, leg.sv, keep) else c.sells)
  }

  // ----- creator positions

  function CreatorOf(creators: map<string, string>, token: string): string {
    if token in creators then Lower(creators[token]) else ""
  }

  predicate ByCreator(creators: map<string, string>, leg: Leg) {
    CreatorOf(creators, leg.Token()) != "" && leg.Wallet() == CreatorOf(creators, leg.Token())
  }

  /** A sale takes cost off at the average cost. */
  function AfterSale(pos: Position, qty: real): Position
    requires pos.qty > 0.0
  {
    var sold := Min(qty, pos.qty);
    Position(pos.qty - sold, Max(0.0, pos.cost - pos.cost / pos.qty * sold), pos.entry)
  }

  /** The creator's tracked position after the leg: average cost, dust dropped. */
  function Moved(positions: map<(string, string), Position>, creators: map<string, string>, leg: Leg)
    : map<(string, string), Position>
  {
    var key := (leg.Wallet(), leg.Token());
    if !ByCreator(creators, leg) then positions
    else if leg.side == Buy then
      if key in positions then
        var pos := positions[key];
        positions[key := Position(pos.qty + leg.qty, pos.cost + leg.sv, pos.entry)]
      else positions[key := Position(leg.qty, leg.sv, leg.block)]
    else if leg.side == Sell && key in positions && positions[key].qty > 0.0 then
      var left := AfterSale(positions[key], leg.qty);
      if left.qty <= DUST then positions - {key} else positions[key := left]
    else positions
  }

  function MovePosition(c: Core, creators: map<string, string>, leg: Leg): Core {
    c.(positions := Moved(c.positions, creators, leg))
  }

  // ----- once-per-bucket signals

  /** The newest bucket of a series. */
  function NewestBucket(m: Bucketed): Option<int> {
    var ks := Sorted(m.Keys);
    if |ks| == 0 then None else Some(ks[|ks| - 1])
  }

  /** The z-score of the leg's bucket, when that is the newest one. */
  function BucketZ(p: Params, c: Core, leg: Leg): Option<real>
    requires p.Ok()
  {
    var m := Of(c.volume, leg.Token());
    if NewestBucket(m) == Some(leg.Bucket(p)) then LastZ(m, p.lookback, p.sqrt) else None
  }

  predicate Collapses(p: Params, c: Core, leg: Leg)
    requires p.Ok()
  {
    var z := BucketZ(p, c, leg);
    z.Some? && z.value <= p.zThreshold && Get(c.lastCollapse, leg.Token()) != Some(leg.Bucket(p))
  }

  /** The last price seen `lookback` or more buckets before bucket b. */
  function PastPrice(p: Params, prices: Bucketed, b: int): Option<real> {
    PastValue(prices, b - p.lookback)
  }

  /** `_price_up`: price up on the last one seen `lookback` or more buckets ago. */
  predicate RisenSince(p: Params, prices: Bucketed, b: int) {
    var past := PastPrice(p, prices, b);
    past.Some? && past.value > 0.0 && At(prices, b) > 0.0 && (At(prices, b) / past.value - 1.0) * 100.0 >= p.spikeMinPricePct
  }

  predicate PriceUp(p: Params, c: Core, leg: Leg)
    requires p.Ok()
  {
    RisenSince(p, Of(c.prices, leg.Token()), leg.Bucket(p))
  }

  /** Traded value over the leg's bucket and the six before it. */
  function Recent(p: Params, c: Cache, leg: Leg): real
    requires p.Ok()
  {
    SumFrom(Of(c, leg.Token()), leg.Bucket(p) - 6)
  }

  predicate NetBuying(p: Params, c: Core, leg: Leg)
    requires p.Ok()
  {
    var bought, sold := Recent(p, c.buys, leg), Recent(p, c.sells, leg);
    bought > 0.0 && bought >= sold * p.spikeMinBuyRatio
  }

  predicate Spikes(p: Params, c: Core, leg: Leg)
    requires p.Ok()
  {
    var z := BucketZ(p, c, leg);
    && z.Some? && z.value >= p.spikeZ
    && At(Of(c.volume, leg.Token()), leg.Bucket(p)) >= p.minSpike
    && PriceUp(p, c, leg) && NetBuying(p, c, leg)
    && Get(c.lastSpike, leg.Token()) != Some(leg.Bucket(p))
  }

  /** The whole effect of one leg on the core: nothing in it depends on emitting. */
  function CoreStep(p: Params, c: Core, creators: map<string, string>, leg: Leg): Core
    requires p.Ok()
  {
    Signalled(p, MovePosition(Record(p, c, leg), creators, leg), leg)
  }

  function Signalled(p: Params, c: Core, leg: Leg): Core
    requires p.Ok()
  {
    var t, b := leg.Token(), leg.Bucket(p);
    c.(lastCollapse := if Collapses(p, c, leg) then c.lastCollapse[t := b] else c.lastCollapse,
       lastSpike := if Spikes(p, c, leg) then c.lastSpike[t := b] else c.lastSpike)
  }

  // ----- alerts, each from the core before the leg or the caches after it

  function Note(leg: Leg, kind: Kind, severity: Severity): Alert {
    Alert(leg.Token(), kind, severity, leg.block, None, None, None)
  }

  function GraduationAlert(c: Core, leg: Leg): seq<Alert> {
    if leg.Token() != "" && leg.Token() !in c.seen then [Note(leg, Graduation, Medium)] else []
  }

  function PctOfPosition(sold: real, before: real): Option<real> {
    if before <= 0.0 then None else Some(Max(0.0, Min(1.0, sold / before)))
  }

  predicate IsSignificantSell(sold: real, before: real, usdc: real) {
    var pct := PctOfPosition(sold, before);
    pct.Some? && (pct.value >= 0.5 || usdc >= 100.0)
  }

  function SeverityFor(pct: Option<real>, usdc: real): Severity {
    var p := if pct.Some? then pct.value else 0.0;
    if p >= 0.8 || usdc >= 5000.0 then High
    else if p >= 0.5 || usdc >= 500.0 then Medium
    else Low
  }

  function Confirmed(sev: Severity): Severity {
    if sev == Low then Medium else High
  }

  /** c is the state after `Record`, before the position moves. */
  function DevSellAlert(p: Params, c: Core, creators: map<string, string>, leg: Leg): seq<Alert>
    requires p.Ok()
  {
    DevSellFrom(c.positions, Recent(p, c.volume, leg) >= p.minConfirm, creators, leg)
  }

  function ProceedsOf(leg: Leg, sold: real): real {
    leg.sv * (if leg.qty != 0.0 then sold / leg.qty else 0.0)
  }

  /** A significant sale of the creator's position, one step more severe when recent
      volume confirms it. */
  function DevSellFrom(positions: map<(string, string), Position>, confirmed: bool, creators: map<string, string>, leg: Leg)
    : seq<Alert>
  {
    var key := (leg.Wallet(), leg.Token());
    if ByCreator(creators, leg) && leg.side == Sell && key in positions && positions[key].qty > 0.0 then
      var before := positions[key].qty;
      var sold := Min(leg.qty, before);
      var proceeds := ProceedsOf(leg, sold);
      if IsSignificantSell(sold, before, proceeds) then
        var pct := PctOfPosition(sold, before);
        var sev := SeverityFor(pct, proceeds);
        [Alert(leg.Token(), DevSell, if confirmed then Confirmed(sev) else sev,
               leg.block, Some(leg.Wallet()), Some(proceeds), pct)]
      else []
    else []
  }

  function LargeSellAlert(p: Params, c: Core, creators: map<string, string>, leg: Leg): seq<Alert>
    requires p.Ok()
  {
    var recent := Recent(p, c.volume, leg);
    if leg.side == Sell && leg.Wallet() != CreatorOf(creators, leg.Token()) && leg.sv >= p.largeSellUsd
       && (recent <= 0.0 || leg.sv >= p.largeSellRatio * recent)
    then [Alert(leg.Token(), LargeSell, if leg.sv >= p.largeSellUsd * 4.0 then High else Medium,
                leg.block, Some(leg.Wallet()), Some(leg.sv), None)]
    else []
  }

  function WhaleBuyAlert(p: Params, c: Core, leg: Leg): seq<Alert>
    requires p.Ok()
  {
    var recent := Recent(p, c.volume, leg);
    if leg.side == Buy && leg.sv >= p.whaleBuyUsd && PriceUp(p, c, leg) && (recent <= 0.0 || leg.sv >= 0.5 * recent)
    then [Alert(leg.Token(), WhaleBuy, if leg.sv >= p.whaleBuyUsd * 5.0 then High else Medium,
                leg.block, Some(leg.Wallet()), Some(leg.sv), None)]
    else []
  }

  predicate Surges(p: Params, c: Core, lastSurge: map<string, int>, leg: Leg)
    requires p.Ok()
  {
    var past := PastPrice(p, Of(c.prices, leg.Token()), leg.Bucket(p));
    && leg.Price() > 0.0 && Get(lastSurge, leg.Token()) != Some(leg.Bucket(p))
    && past.Some? && past.value > 0.0 && (leg.Price() / past.value - 1.0) * 100.0 >= p.priceSurgePct
  }

  function SurgeAlert(p: Params, c: Core, lastSurge: map<string, int>, leg: Leg): seq<Alert>
    requires p.Ok()
  {
    if Surges(p, c, lastSurge, leg) then
      var pct := (leg.Price() / PastPrice(p, Of(c.prices, leg.Token()), leg.Bucket(p)).value - 1.0) * 100.0;
      [Note(leg, PriceSurge, if pct >= 200.0 then High else Medium)]
    else []
  }

  function CollapseAlert(p: Params, c: Core, leg: Leg): seq<Alert>
    requires p.Ok()
  {
    if Collapses(p, c, leg)
    then [Note(leg, VolumeCollapse, if p.round3(BucketZ(p, c, leg).value) <= -3.0 then High else Medium)]
    else []
  }

  function CompoundAlert(p: Params, c: Core, lastDevSell: map<string, int>, leg: Leg): seq<Alert>
    requires p.Ok()
  {
    var sold := Get(lastDevSell, leg.Token());
    if Collapses(p, c, leg) && sold.Some? && 0 <= leg.block - sold.value <= p.windowBlocks
    then [Note(leg, Compound, High)] else []
  }

  function SpikeAlert(p: Params, c: Core, leg: Leg): seq<Alert>
    requires p.Ok()
  {
    if Spikes(p, c, leg)
    then [Note(leg, VolumeSpike, if p.round3(BucketZ(p, c, leg).value) >= p.spikeZ + 1.0 then High else Medium)]
    else []
  }

  /** Alerts that depend on the core alone. */
  function CoreAlerts(p: Params, c: Core, creators: map<string, string>, leg: Leg): seq<Alert>
    requires p.Ok()
  {
    var r := Record(p, c, leg);
    var m := MovePosition(r, creators, leg);
    GraduationAlert(c, leg) + DevSellAlert(p, r, creators, leg) + LargeSellAlert(p, r, creators, leg)
    + WhaleBuyAlert(p, r, leg) + CollapseAlert(p, m, leg) + SpikeAlert(p, m, leg)
  }

  // ----- alerts of all kinds, with what emitting remembers

  /** The bucket of a token's last surge alert and the block of its last dev sell, both
      noted only while alerts are emitted. */
  datatype Memory = Memory(surge: map<string, int>, devSell: map<string, int>)

  const NO_MEMORY := Memory(map[], map[])

  function Remember(p: Params, c: Core, mem: Memory, creators: map<string, string>, leg: Leg): Memory
    requires p.Ok()
  {
    var r := Record(p, c, leg);
    var m := MovePosition(r, creators, leg);
    Memory(if Surges(p, m, mem.surge, leg) then mem.surge[leg.Token() := leg.Bucket(p)] else mem.surge,
           if |DevSellAlert(p, r, creators, leg)| > 0 then mem.devSell[leg.Token() := leg.block] else mem.devSell)
  }

  /** All eight kinds, in the order in which they are reported. */
  function AllAlerts(p: Params, c: Core, mem: Memory, creators: map<string, string>, leg: Leg): seq<Alert>
    requires p.Ok()
  {
    var r := Record(p, c, leg);
    var m := MovePosition(r, creators, leg);
    GraduationAlert(c, leg) + DevSellAlert(p, r, creators, leg) + LargeSellAlert(p, r, creators, leg)
    + WhaleBuyAlert(p, r, leg) + SurgeAlert(p, m, mem.surge, leg) + CollapseAlert(p, m, leg)
    + CompoundAlert(p, m, Remember(p, c, mem, creators, leg).devSell, leg) + SpikeAlert(p, m, leg)
  }

  predicate Tells(alerts: seq<Alert>, kind: Kind) {
    exists a :: a in alerts && a.kind == kind
  }

  lemma FourKinds(p: Params, c: Core, creators: map<string, string>, leg: Leg)
    requires p.Ok()
    ensures forall a :: a in GraduationAlert(c, leg) ==> a.kind == Graduation
    ensures forall a :: a in DevSellAlert(p, c, creators, leg) ==> a.kind == DevSell
    ensures forall a :: a in LargeSellAlert(p, c, creators, leg) ==> a.kind == LargeSell
    ensures forall a :: a in WhaleBuyAlert(p, c, leg) ==> a.kind == WhaleBuy
  {
    hide PriceUp, Recent, IsSignificantSell, PctOfPosition, SeverityFor, Leg.Token, Leg.Wallet;
  }

  predicate OfCore(a: Alert) {
    a.kind != PriceSurge && a.kind != Compound
  }

  function CoreOnly(alerts: seq<Alert>): seq<Alert> {
    if |alerts| == 0 then []
    else CoreOnly(alerts[..|alerts| - 1]) + (if OfCore(alerts[|alerts| - 1]) then [alerts[|alerts| - 1]] else [])
  }

  // ----- the engine

  class IncrementalState {
    const p: Params
    var seen: set<string>
    var volume: Cache
    var prices: Cache
    var buys: Cache
    var sells: Cache
    var positions: map<(string, string), Position>
    var lastCollapse: map<string, int>
    var lastSpike: map<string, int>
    var lastSurge: map<string, int>
    var lastDevSell: map<string, int>

    function View(): Core
      reads this
    {
      Core(seen, volume, prices, buys, sells, positions, lastCollapse, lastSpike)
    }

    function Mem(): Memory
      reads this
    {
      Memory(lastSurge, lastDevSell)
    }

    constructor (p: Params)
      ensures this.p == p && View() == Core({}, map[], map[], map[], map[], map[], map[], map[])
      ensures Mem() == NO_MEMORY
    {
      this.p := p;
      seen, volume, prices, buys, sells, positions := {}, map[], map[], map[], map[], map[];
      lastCollapse, lastSpike, lastSurge, lastDevSell := map[], map[], map[], map[];
    }

    /** `apply_leg`: the core moves by `CoreStep` whether or not alerts are emitted. */
    method ApplyLeg(leg: Leg, creators: map<string, string>, emit: bool) returns (alerts: seq<Alert>)
      requires p.Ok()
      modifies this
      ensures View() == CoreStep(p, old(View()), creators, leg)
      ensures CoreOnly(alerts) == if emit then CoreAlerts(p, old(View()), creators, leg) else []
      ensures emit ==> alerts == AllAlerts(p, old(View()), old(Mem()), creators, leg)
      ensures Mem() == if emit then Remember(p, old(View()), old(Mem()), creators, leg) else old(Mem())
      ensures !emit ==> alerts == []
    {
      hide CoreOnly, Record, Moved, Collapses, Spikes, Surges, DevSellAlert, LargeSellAlert, WhaleBuyAlert,
           GraduationAlert, SurgeAlert, CollapseAlert, CompoundAlert, SpikeAlert;
      ghost var c0 := View();
      var graduated := if emit then GraduationAlert(View(), leg) else [];
      EnterLeg(leg);
      ghost var c1 := View();
      var devSell := CreatorLeg(leg, creators, emit);
      var largeSell := if emit then LargeSellAlert(p, View(), creators, leg) else [];
      var whaleBuy := if emit then WhaleBuyAlert(p, View(), leg) else [];
      var surge := PriceSurgeLeg(leg, emit);
      ghost var c2 := View();
      var collapse, compound := CollapseLeg(leg, emit);
      var spike := SpikeLeg(leg, emit);
      alerts := graduated + devSell + largeSell + whaleBuy + surge + collapse + compound + spike;
      SignalledTwice(p, c2, leg);
      PositionsDoNotMatter(p, c1, creators, leg);
      if emit {
        NotOfCore(p, c2, old(lastSurge), lastDevSell, leg);
        CoreOnlyOfAll(p, c0, creators, leg, surge, compound);
      } else {
        CoreOnlyNone();
        assert alerts == [];
      }
    }

    /** Lines 77-101: seen, volume, price and flow of the leg, each cache pruned. */
    method EnterLeg(leg: Leg)
      requires p.Ok()
      modifies this
      ensures View() == Record(p, old(View()), leg)
      ensures lastSurge == old(lastSurge) && lastDevSell == old(lastDevSell)
    {
      hide Write, Of, At, Lower;
      if leg.Token() != "" {
        seen := seen + {leg.Token()};
      }
      EnterVolume(leg);
      EnterPrice(leg);
      EnterFlow(leg);
    }

    method EnterVolume(leg: Leg)
      requires p.Ok()
      modifies this`volume
      ensures volume == Add(old(volume), leg.Token(), leg.Bucket(p), leg.sv, p.Keep())
    {
      hide Write, Of, At, Lower;
      volume := WriteBucket(volume, leg.Token(), leg.Bucket(p), At(Of(volume, leg.Token()), leg.Bucket(p)) + leg.sv, p.Keep());
    }

    method EnterPrice(leg: Leg)
      requires p.Ok()
      modifies this`prices
      ensures prices == if leg.Price() > 0.0 then Write(old(prices), leg.Token(), leg.Bucket(p), leg.Price(), p.Keep())
                        else old(prices)
    {
      hide Write, Lower;
      if leg.Price() > 0.0 {
        prices := WriteBucket(prices, leg.Token(), leg.Bucket(p), leg.Price(), p.Keep());
      }
    }

    method EnterFlow(leg: Leg)
      requires p.Ok()
      modifies this`buys, this`sells
      ensures buys == if leg.side == Buy then Add(old(buys), leg.Token(), leg.Bucket(p), leg.sv, p.Keep()) else old(buys)
      ensures sells == if leg.side == Sell then Add(old(sells), leg.Token(), leg.Bucket(p), leg.sv, p.Keep()) else old(sells)
    {
      hide Write, Of, At, Lower;
      var t, b := leg.Token(), leg.Bucket(p);
      if leg.side == Buy {
        buys := WriteBucket(buys, t, b, At(Of(buys, t), b) + leg.sv, p.Keep());
      } else if leg.side == Sell {
        sells := WriteBucket(sells, t, b, At(Of(sells, t), b) + leg.sv, p.Keep());
      }
    }

    /** Lines 103-138: the creator's position, with its dev-sell alert. */
    method CreatorLeg(leg: Leg, creators: map<string, string>, emit: bool) returns (alerts: seq<Alert>)
      requires p.Ok()
      modifies this
      ensures View() == MovePosition(old(View()), creators, leg)
      ensures alerts == if emit then DevSellAlert(p, old(View()), creators, leg) else []
      ensures lastSurge == old(lastSurge)
      ensures lastDevSell == if emit && |DevSellAlert(p, old(View()), creators, leg)| > 0
                             then old(lastDevSell)[leg.Token() := leg.block] else old(lastDevSell)
    {
      hide Recent, IsSignificantSell, SeverityFor, PctOfPosition, Lower, Min, AfterSale;
      alerts := [];
      var creator := CreatorOf(creators, leg.Token());
      var wallet := leg.Wallet();
      if wallet == creator && creator != "" {
        var key := (wallet, leg.Token());
        if leg.side == Buy {
          if key !in positions {
            positions := positions[key := Position(leg.qty, leg.sv, leg.block)];
          } else {
            var pos := positions[key];
            positions := positions[key := Position(pos.qty + leg.qty, pos.cost + leg.sv, pos.entry)];
          }
        } else if leg.side == Sell && key in positions && positions[key].qty > 0.0 {
          if emit {
            alerts := DevSellAlert(p, View(), creators, leg);
            if |alerts| > 0 { lastDevSell := lastDevSell[leg.Token() := leg.block]; }
          }
          SellPosition(key, leg.qty);
        }
      }
    }

    /** Lines 134-138: cost of goods off at average cost; a dust remainder closes the position. */
    method SellPosition(key: (string, string), qty: real)
      requires key in positions && positions[key].qty > 0.0
      modifies this`positions
      ensures var left := AfterSale(old(positions)[key], qty);
              positions == if left.qty <= DUST then old(positions) - {key} else old(positions)[key := left]
    {
      var left := AfterSale(positions[key], qty);
      positions := positions[key := left];
      if left.qty <= DUST {
        positions := positions - {key};
        assert positions == old(positions) - {key};
      }
    }

    /** Lines 165-177. */
    method PriceSurgeLeg(leg: Leg, emit: bool) returns (alerts: seq<Alert>)
      requires p.Ok()
      modifies this`lastSurge
      ensures alerts == if emit then SurgeAlert(p, View(), old(lastSurge), leg) else []
      ensures lastSurge == if emit && Surges(p, View(), old(lastSurge), leg)
                           then old(lastSurge)[leg.Token() := leg.Bucket(p)] else old(lastSurge)
    {
      hide PastPrice;
      alerts := [];
      if emit && Surges(p, View(), lastSurge, leg) {
        alerts := SurgeAlert(p, View(), lastSurge, leg);
        lastSurge := lastSurge[leg.Token() := leg.Bucket(p)];
      }
    }

    /** Lines 179-197: at most one collapse per bucket, compound when the creator sold shortly before. */
    method CollapseLeg(leg: Leg, emit: bool) returns (alerts: seq<Alert>, compound: seq<Alert>)
      requires p.Ok()
      modifies this`lastCollapse
      ensures View() == old(View()).(lastCollapse :=
                if Collapses(p, old(View()), leg) then old(lastCollapse)[leg.Token() := leg.Bucket(p)] else old(lastCollapse))
      ensures alerts == if emit then CollapseAlert(p, old(View()), leg) else []
      ensures compound == if emit then CompoundAlert(p, old(View()), old(lastDevSell), leg) else []
    {
      hide LastZ, Sorted;
      alerts, compound := [], [];
      var z := LastScore(leg);
      if z.Some? && z.value <= p.zThreshold && Get(lastCollapse, leg.Token()) != Some(leg.Bucket(p)) {
        if emit {
          alerts := [Note(leg, VolumeCollapse, if p.round3(z.value) <= -3.0 then High else Medium)];
          var sold := Get(lastDevSell, leg.Token());
          if sold.Some? && 0 <= leg.block - sold.value <= p.windowBlocks {
            compound := [Note(leg, Compound, High)];
          }
        }
        lastCollapse := lastCollapse[leg.Token() := leg.Bucket(p)];
      }
    }

    /** `series = sorted(volume[token].items()); z = rolling_zscore(series)`: its last
        score, when it has one and belongs to the leg's bucket. */
    method LastScore(leg: Leg) returns (z: Option<real>)
      requires p.Ok()
      ensures z == BucketZ(p, View(), leg)
    {
      var m := Of(volume, leg.Token());
      var ks := Sorted(m.Keys);
      SortedIsAscending(m.Keys);
      hide Sorted, ZScore;
      forall i | 0 <= i < |ks| ensures ks[i] in m { assert ks[i] in ks; }
      var series := seq(|ks|, i requires 0 <= i < |ks| => (ks[i], At(m, ks[i])));
      var scores := RollingZscore(series, p.lookback, p.sqrt);
      assert seq(|series|, i requires 0 <= i < |series| => series[i].1) == Values(m, ks);
      if |scores| > 0 && scores[|scores| - 1].0 == leg.Bucket(p) {
        z := scores[|scores| - 1].1;
      } else {
        z := None;
      }
    }

    /** Lines 199-218. */
    method SpikeLeg(leg: Leg, emit: bool) returns (alerts: seq<Alert>)
      requires p.Ok()
      modifies this`lastSpike
      ensures View() == old(View()).(lastSpike :=
                if Spikes(p, old(View()), leg) then old(lastSpike)[leg.Token() := leg.Bucket(p)] else old(lastSpike))
      ensures alerts == if emit then SpikeAlert(p, old(View()), leg) else []
    {
      hide LastZ, Sorted, RisenSince, SumFrom;
      alerts := [];
      var z := LastScore(leg);
      var flowBuy := Recent(p, buys, leg);
      var flowSell := Recent(p, sells, leg);
      var netBuy := flowBuy > 0.0 && flowBuy >= flowSell * p.spikeMinBuyRatio;
      if z.Some? && z.value >= p.spikeZ && At(Of(volume, leg.Token()), leg.Bucket(p)) >= p.minSpike
         && PriceUp(p, View(), leg) && netBuy && Get(lastSpike, leg.Token()) != Some(leg.Bucket(p))
      {
        if emit {
          alerts := [Note(leg, VolumeSpike, if p.round3(z.value) >= p.spikeZ + 1.0 then High else Medium)];
        }
        lastSpike := lastSpike[leg.Token() := leg.Bucket(p)];
      }
    }
  }

  /** `d[b] = v`, then `for x in sorted(d)[:-keep]: d.pop(x)` when there are more than `keep`. */
  method WriteBucket(c: Cache, token: string, b: int, v: real, keep: nat) returns (c': Cache)
    ensures c' == Write(c, token, b, v, keep)
  {
    var d := Of(c, token)[b := v];
    d := Prune(d, keep);
    c' := c[token := d];
  }

  method Prune(m: Bucketed, keep: nat) returns (d: Bucketed)
    ensures d == Newest(m, keep)
  {
    d := m;
    var ks := Sorted(m.Keys);
    var stop := if keep == 0 || |ks| <= keep then 0 else |ks| - keep;
    DroppedSize(m, keep);
    SortedIsAscending(m.Keys);
    assert stop == Dropped(m, keep);
    hide Sorted, Newest, Dropped;
    for i := 0 to stop
      invariant d == Without(m, ks[..i])
    {
      d := d - {ks[i]};
      assert ks[..i + 1] == ks[..i] + [ks[i]];
    }
    RemainingIsNewest(m, keep);
  }

  function Without(m: Bucketed, ks: seq<int>): Bucketed {
    map b | b in m && b !in ks :: m[b]
  }

  lemma DroppedIff(m: Bucketed, keep: nat, b: int)
    requires Dropped(m, keep) <= |Sorted(m.Keys)| && b in m
    ensures b in Sorted(m.Keys)[..Dropped(m, keep)] <==> b !in Newest(m, keep)
  {
    SortedIsAscending(m.Keys);
    hide Sorted, Dropped, Newest;
    var ks, n := Sorted(m.Keys), Dropped(m, keep);
    assert b in ks;
    var i :| 0 <= i < |ks| && ks[i] == b;
    KeptPosition(m, keep, i);
    if i < n {
      assert ks[..n][i] == b;
    }
  }

  lemma RemainingIsNewest(m: Bucketed, keep: nat)
    requires Dropped(m, keep) <= |Sorted(m.Keys)|
    ensures Without(m, Sorted(m.Keys)[..Dropped(m, keep)]) == Newest(m, keep)
  {
    hide Sorted, Dropped, Above;
    forall b | b in m ensures b in Sorted(m.Keys)[..Dropped(m, keep)] <==> b !in Newest(m, keep) {
      DroppedIff(m, keep, b);
    }
  }

  // ----- glue for ApplyLeg

  /** The spike test reads nothing the collapse step wrote. */
  lemma SignalledTwice(p: Params, c: Core, leg: Leg)
    requires p.Ok()
    ensures var c' := c.(lastCollapse := if Collapses(p, c, leg) then c.lastCollapse[leg.Token() := leg.Bucket(p)] else c.lastCollapse);
            Spikes(p, c', leg) == Spikes(p, c, leg) && SpikeAlert(p, c', leg) == SpikeAlert(p, c, leg)
  {
    hide LastZ, SumFrom, RisenSince, Sorted, Moved;
  }

  /** Only the dev-sell rule reads positions. */
  lemma PositionsDoNotMatter(p: Params, c: Core, creators: map<string, string>, leg: Leg)
    requires p.Ok()
    ensures LargeSellAlert(p, MovePosition(c, creators, leg), creators, leg) == LargeSellAlert(p, c, creators, leg)
    ensures WhaleBuyAlert(p, MovePosition(c, creators, leg), leg) == WhaleBuyAlert(p, c, leg)
  {
    hide LastZ, SumFrom, RisenSince, Sorted, Moved;
  }

  lemma CoreOnlyNone()
    ensures CoreOnly([]) == []
  {
  }

  lemma {:induction false} CoreOnlyConcat(a: seq<Alert>, b: seq<Alert>)
    ensures CoreOnly(a + b) == CoreOnly(a) + CoreOnly(b)
  {
    if |b| == 0 {
      assert a + b == a;
    } else {
      assert (a + b)[..|a + b| - 1] == a + b[..|b| - 1];
      CoreOnlyConcat(a, b[..|b| - 1]);
    }
  }

  lemma {:induction false} CoreOnlySame(a: seq<Alert>)
    requires forall i :: 0 <= i < |a| ==> OfCore(a[i])
    ensures CoreOnly(a) == a
  {
    if |a| > 0 { CoreOnlySame(a[..|a| - 1]); }
  }

  lemma {:induction false} CoreOnlyDrops(a: seq<Alert>)
    requires forall i :: 0 <= i < |a| ==> !OfCore(a[i])
    ensures CoreOnly(a) == []
  {
    if |a| > 0 { CoreOnlyDrops(a[..|a| - 1]); }
  }

  lemma NotOfCore(p: Params, m: Core, lastSurge: map<string, int>, lastDevSell: map<string, int>, leg: Leg)
    requires p.Ok()
    ensures forall i :: 0 <= i < |SurgeAlert(p, m, lastSurge, leg)| ==> !OfCore(SurgeAlert(p, m, lastSurge, leg)[i])
    ensures forall i :: 0 <= i < |CompoundAlert(p, m, lastDevSell, leg)| ==> !OfCore(CompoundAlert(p, m, lastDevSell, leg)[i])
  {
    hide Surges, Collapses, PastPrice;
  }

  lemma AllOfCore(p: Params, c: Core, creators: map<string, string>, leg: Leg)
    requires p.Ok()
    ensures CoreOnly(GraduationAlert(c, leg)) == GraduationAlert(c, leg)
    ensures CoreOnly(DevSellAlert(p, c, creators, leg)) == DevSellAlert(p, c, creators, leg)
    ensures CoreOnly(LargeSellAlert(p, c, creators, leg)) == LargeSellAlert(p, c, creators, leg)
    ensures CoreOnly(WhaleBuyAlert(p, c, leg)) == WhaleBuyAlert(p, c, leg)
    ensures CoreOnly(CollapseAlert(p, c, leg)) == CollapseAlert(p, c, leg)
    ensures CoreOnly(SpikeAlert(p, c, leg)) == SpikeAlert(p, c, leg)
  {
    hide CoreOnly, Collapses, Spikes, PriceUp, Recent, BucketZ, IsSignificantSell, PctOfPosition, SeverityFor, Lower;
    CoreOnlySame(GraduationAlert(c, leg));
    CoreOnlySame(DevSellAlert(p, c, creators, leg));
    CoreOnlySame(LargeSellAlert(p, c, creators, leg));
    CoreOnlySame(WhaleBuyAlert(p, c, leg));
    CoreOnlySame(CollapseAlert(p, c, leg));
    CoreOnlySame(SpikeAlert(p, c, leg));
  }

  lemma CoreOnlyOfEight(a: seq<Alert>, b: seq<Alert>, c: seq<Alert>, d: seq<Alert>, surge: seq<Alert>, e: seq<Alert>,
                        compound: seq<Alert>, f: seq<Alert>)
    requires CoreOnly(a) == a && CoreOnly(b) == b && CoreOnly(c) == c && CoreOnly(d) == d && CoreOnly(e) == e && CoreOnly(f) == f
    requires CoreOnly(surge) == [] && CoreOnly(compound) == []
    ensures CoreOnly(a + b + c + d + surge + e + compound + f) == a + b + c + d + e + f
  {
    hide CoreOnly;
    CoreOnlyConcat(a, b);
    CoreOnlyConcat(a + b, c);
    CoreOnlyConcat(a + b + c, d);
    CoreOnlyConcat(a + b + c + d, surge);
    CoreOnlyConcat(a + b + c + d + surge, e);
    CoreOnlyConcat(a + b + c + d + surge + e, compound);
    CoreOnlyConcat(a + b + c + d + surge + e + compound, f);
  }

  lemma CoreOnlyOfAll(p: Params, c: Core, creators: map<string, string>, leg: Leg, surge: seq<Alert>, compound: seq<Alert>)
    requires p.Ok()
    requires forall i :: 0 <= i < |surge| ==> !OfCore(surge[i])
    requires forall i :: 0 <= i < |compound| ==> !OfCore(compound[i])
    ensures var r := Record(p, c, leg);
            var m := MovePosition(r, creators, leg);
            CoreOnly(GraduationAlert(c, leg) + DevSellAlert(p, r, creators, leg) + LargeSellAlert(p, r, creators, leg)
                     + WhaleBuyAlert(p, r, leg) + surge + CollapseAlert(p, m, leg) + compound + SpikeAlert(p, m, leg))
            == CoreAlerts(p, c, creators, leg)
  {
    var r := Record(p, c, leg);
    var m := MovePosition(r, creators, leg);
    hide CoreOnly, Record, MovePosition, GraduationAlert, DevSellAlert, LargeSellAlert, WhaleBuyAlert, CollapseAlert, SpikeAlert;
    AllOfCore(p, c, creators, leg);
    AllOfCore(p, r, creators, leg);
    AllOfCore(p, m, creators, leg);
    CoreOnlyDrops(surge);
    CoreOnlyDrops(compound);
    CoreOnlyOfEight(GraduationAlert(c, leg), DevSellAlert(p, r, creators, leg), LargeSellAlert(p, r, creators, leg),
                    WhaleBuyAlert(p, r, leg), surge, CollapseAlert(p, m, leg), compound, SpikeAlert(p, m, leg));
  }

  lemma CoreOnlyOfAlerts(p: Params, c: Core, mem: Memory, creators: map<string, string>, leg: Leg)
    requires p.Ok()
    ensures CoreOnly(AllAlerts(p, c, mem, creators, leg)) == CoreAlerts(p, c, creators, leg)
  {
    var m := MovePosition(Record(p, c, leg), creators, leg);
    var sold := Remember(p, c, mem, creators, leg).devSell;
    hide CoreOnly, Record, MovePosition, Remember, GraduationAlert, DevSellAlert, LargeSellAlert, WhaleBuyAlert, CollapseAlert,
         SpikeAlert, SurgeAlert, CompoundAlert;
    NotOfCore(p, m, mem.surge, sold, leg);
    CoreOnlyOfAll(p, c, creators, leg, SurgeAlert(p, m, mem.surge, leg), CompoundAlert(p, m, sold, leg));
  }
}
