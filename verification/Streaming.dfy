/** PD_STREAM: every finished boundary is shipped as a segment while the prefill runs, and its state released
    (_stream_emit, _emit_segment, and the end of _finish). The accumulators of a layer are values here; the request that
    holds them, keyed by layer, is the object the source updates. */
module Streaming {
  import opened Blocks
  import opened Seqs
  import opened PoolTorch
  import opened CaptureState
  import opened CaptureSpec
  import opened Layer

  datatype PoolSeg<R, P> = PoolSeg(pooled: seq<P>, prev: Option<seq<R>>)

  /** One layer's share of seg_<b>: kvwin_b, pooled_b, prev_b. */
  datatype Seg<K, R, P> = Seg(kvwin: seq<K>, main: Option<PoolSeg<R, P>>, idx: Option<PoolSeg<R, P>>)

  datatype Emitted = Shipped | Refused | SaveFailed

  // ---- one accumulator

  /** pass 1: every tensor of boundary b exists. */
  predicate PoolReady<R, P>(s: Pool<R, P>, b: nat)
    requires 0 < s.ratio
  {
    Count(b, s.ratio) <= s.shipped + SumLen(s.pooled) && (s.ratio == 4 ==> b in s.prev)
  }

  /** pass 2: take_pooled(b // ratio) and prev.pop(b). */
  function PoolShip<R, P>(s: Pool<R, P>, b: nat): (res: (Pool<R, P>, PoolSeg<R, P>))
    requires 0 < s.ratio && PoolReady(s, b) && s.shipped <= Count(b, s.ratio)
    ensures res.0.ratio == s.ratio && res.0.carry == s.carry && res.0.shipped == Count(b, s.ratio)
  {
    FlattenLen(s.pooled);
    var taken := PoolTake(s, Count(b, s.ratio));
    var rows := Flatten(s.pooled)[..Count(b, s.ratio) - s.shipped];
    if s.ratio == 4 then (taken.(prev := s.prev - {b}), PoolSeg(rows, Some(s.prev[b])))
      else (taken, PoolSeg(rows, None))
  }

  /** What a segment must hold for one accumulator: the pooled rows since the last boundary, the window before b. */
  ghost function PoolSegSpec<R(!new), L(!new), P(!new)>(k: Kernel<R, L, P>, ratio: nat, h: seq<R>, lo: nat,
                                                        b: nat): PoolSeg<R, P>
    requires 0 < ratio && lo <= b <= |h|
  {
    CountMonotone(lo, b, ratio);
    CountMonotone(b, |h|, ratio);
    PoolSeg(PooledSpec(k, ratio, h)[Count(lo, ratio)..Count(b, ratio)], if ratio == 4 then Some(LastN(h[..b], 4))
      else None)
  }

  /** b is the boundary right after lo. */
  predicate NextBoundary(block: nat, lo: nat, b: nat)
    requires 0 < block
  {
    b == lo + block && Rem(lo, block) == 0 && Rem(b, block) == 0
  }

  lemma NoneBetween(block: nat, lo: nat, b: nat, c: nat)
    requires 0 < block && NextBoundary(block, lo, b) && lo < c && Rem(c, block) == 0
    ensures b <= c
  {
    Split(lo, block);
    Split(c, block);
    if Count(c, block) <= Count(lo, block) {
      OffMonotone(Count(c, block), Count(lo, block), block);
    } else {
      OffMonotone(Count(lo, block) + 1, Count(c, block), block);
    }
  }

  lemma PoolShipKeeps<R(!new), L(!new), P(!new)>(cfg: Config, k: Kernel<R, L, P>, s: Pool<R, P>, h: seq<R>, lo: nat,
                                                 b: nat)
    requires PoolInv(cfg, k, s, h, lo, 0) && s.shipped == Count(lo, s.ratio)
    requires NextBoundary(cfg.block, lo, b) && b <= |h|
    ensures PoolReady(s, b) && s.shipped <= Count(b, s.ratio)
    ensures var (next, seg) := PoolShip(s, b);
            && PoolInv(cfg, k, next, h, b, 0) && next.shipped == Count(b, s.ratio)
            && seg == PoolSegSpec(k, s.ratio, h, lo, b)
  {
    hide PooledSpec, CarrySpec, LastN, Flatten, Count, Rem, DropRows;
    FlattenLen(s.pooled);
    CountMonotone(lo, b, s.ratio);
    CountMonotone(b, |h|, s.ratio);
    DropRowsSpec(s.pooled, Count(b, s.ratio) - s.shipped);
    forall c: nat | Rem(c, cfg.block) == 0 && lo < c
      ensures b <= c
    {
      NoneBetween(cfg.block, lo, b, c);
    }
  }

  // ---- one layer

  predicate Ready<K, R, P>(s: State<K, R, P>, b: nat) {
    && b in s.kv.snaps
    && (s.main.Some? ==> 0 < s.main.value.ratio && PoolReady(s.main.value, b))
    && (s.idx.Some? ==> 0 < s.idx.value.ratio && PoolReady(s.idx.value, b))
  }

  /** Nothing past boundary lo has been shipped. */
  predicate Unshipped<K, R, P>(s: State<K, R, P>, lo: nat) {
    && (s.main.Some? ==> 0 < s.main.value.ratio && s.main.value.shipped <= Count(lo, s.main.value.ratio))
    && (s.idx.Some? ==> 0 < s.idx.value.ratio && s.idx.value.shipped <= Count(lo, s.idx.value.ratio))
  }

  /** pass 2 for one layer: its segment, and the state without the pooled rows and windows just taken. */
  function Ship<K, R, P>(s: State<K, R, P>, b: nat): (res: (State<K, R, P>, Seg<K, R, P>))
    requires Ready(s, b) && Unshipped(s, b)
    ensures CarriesFit(s) ==> CarriesFit(res.0)
    ensures Unshipped(res.0, b) && res.0.kv == s.kv
  {
    var main := if s.main.Some? then Some(PoolShip(s.main.value, b)) else None;
    var idx := if s.idx.Some? then Some(PoolShip(s.idx.value, b)) else None;
    (State(s.kv, if main.Some? then Some(main.value.0) else None, if idx.Some? then Some(idx.value.0) else None),
     Seg(s.kv.snaps[b], if main.Some? then Some(main.value.1) else None, if idx.Some? then Some(idx.value.1) else None))
  }

  /** Once the file is durable the kv snapshot goes too. */
  function Release<K, R, P>(s: State<K, R, P>, b: nat): (res: State<K, R, P>)
    ensures res.main == s.main && res.idx == s.idx && res.kv.next == s.kv.next
    ensures (CarriesFit(s) ==> CarriesFit(res)) && (Unshipped(s, b) ==> Unshipped(res, b))
  {
    s.(kv := s.kv.(snaps := s.kv.snaps - {b}))
  }

  ghost function SegSpec<K, R(!new), L(!new), P(!new)>(lc: LayerCfg<R, L, P>, h: Rows<K, R>, lo: nat, b: nat): Seg<K,
                                                       R, P>
    requires lc.Ok() && h.Ok() && lo <= b <= h.Len()
  {
    Seg(LastN(h.kv[..b], lc.cfg.win),
        if lc.Has(Main) then Some(PoolSegSpec(lc.main, lc.ratio, h.main, lo, b)) else None,
        if lc.Has(Idx) then Some(PoolSegSpec(lc.idx, 4, h.idx, lo, b)) else None)
  }

  /** A layer that has shipped exactly up to lo. */
  ghost predicate ShippedTo<K, R(!new), L(!new), P(!new)>(lc: LayerCfg<R, L, P>, s: State<K, R, P>, h: Rows<K, R>,
                                                          lo: nat) {
    && Inv(lc, s, h, lo, 0, 0)
    && (s.main.Some? ==> s.main.value.shipped == Count(lo, lc.ratio))
    && (s.idx.Some? ==> s.idx.value.shipped == Count(lo, 4))
  }

  lemma KvShipKeeps<K>(cfg: Config, s: Kv<K>, h: seq<K>, lo: nat, b: nat)
    requires KvInv(cfg, s, h, lo, 0) && NextBoundary(cfg.block, lo, b) && b <= |h|
    ensures b in s.snaps && s.snaps[b] == LastN(h[..b], cfg.win)
    ensures KvInv(cfg, s.(snaps := s.snaps - {b}), h, b, 0)
  {
    hide LastN, Rem;
    forall c: nat | Rem(c, cfg.block) == 0 && lo < c
      ensures b <= c
    {
      NoneBetween(cfg.block, lo, b, c);
    }
  }

  lemma PoolInvSupports<R(!new), L(!new), P(!new)>(cfg: Config, k: Kernel<R, L, P>, s: Pool<R, P>, h: seq<R>, lo: nat)
    requires PoolInv(cfg, k, s, h, lo, 0)
    ensures 0 < s.ratio
  {
  }

  /** Shipping the next boundary is never refused, ships exactly its share, and leaves a layer shipped up to b. */
  lemma ShipKeeps<K, R(!new), L(!new), P(!new)>(lc: LayerCfg<R, L, P>, s: State<K, R, P>, h: Rows<K, R>, lo: nat,
                                                b: nat)
    requires ShippedTo(lc, s, h, lo) && NextBoundary(lc.cfg.block, lo, b) && b <= h.Len()
    ensures Ready(s, b) && Unshipped(s, b)
    ensures ShippedTo(lc, Release(Ship(s, b).0, b), h, b)
    ensures Ship(s, b).1 == SegSpec(lc, h, lo, b)
  {
    hide KvInv, PoolInv, PoolShip, PoolReady, PoolSegSpec, NextBoundary, LastN, Count, Rem;
    KvShipKeeps(lc.cfg, s.kv, h.kv, lo, b);
    if s.main.Some? {
      PoolInvSupports(lc.cfg, lc.main, s.main.value, h.main, lo);
      PoolShipKeeps(lc.cfg, lc.main, s.main.value, h.main, lo, b);
    }
    if s.idx.Some? {
      PoolShipKeeps(lc.cfg, lc.idx, s.idx.value, h.idx, lo, b);
    }
  }

  lemma PoolSegStable<R(!new), L(!new), P(!new)>(k: Kernel<R, L, P>, ratio: nat, h: seq<R>, x: seq<R>, lo: nat, b: nat)
    requires 0 < ratio && lo <= b <= |h|
    ensures PoolSegSpec(k, ratio, h + x, lo, b) == PoolSegSpec(k, ratio, h, lo, b)
  {
    hide LastN, PooledSpec, Count;
    CountMonotone(lo, b, ratio);
    CountMonotone(b, |h|, ratio);
    PooledPrefix(k, ratio, h, x);
    assert (h + x)[..b] == h[..b];
  }

  /** A shipped segment does not depend on the rows that come later. */
  lemma SegSpecStable<K, R(!new), L(!new), P(!new)>(lc: LayerCfg<R, L, P>, h: Rows<K, R>, x: Rows<K, R>, lo: nat,
                                                    b: nat)
    requires lc.Ok() && h.Ok() && x.Ok() && lo <= b <= h.Len()
    ensures SegSpec(lc, h.Plus(x), lo, b) == SegSpec(lc, h, lo, b)
  {
    hide LastN;
    assert h.Plus(x).kv[..b] == h.kv[..b];
    if lc.Has(Main) {
      PoolSegStable(lc.main, lc.ratio, h.main, x.main, lo, b);
    }
    if lc.Has(Idx) {
      PoolSegStable(lc.idx, 4, h.idx, x.idx, lo, b);
    }
  }

  // ---- walking the boundaries

  lemma FirstAfter(lo: nat, hi: nat, block: nat)
    requires 0 < block && Rem(lo, block) == 0
    ensures Boundaries(lo, hi, block) == Range(lo + block, hi, block)
    ensures Rem(lo + block, block) == 0
  {
    Split(lo, block);
    Unique(Count(lo, block) + 1, 0, block);
  }

  lemma {:induction false} RangeSnoc(first: nat, hi: nat, block: nat, b: nat)
    requires 0 < block && 0 < b && first <= b && Rem(first, block) == 0 && Rem(b, block) == 0 && b <= hi < b + block
    ensures Range(first, b - 1, block) + [b] == Range(first, hi, block)
    decreases b - first
  {
    FirstAfter(first, hi, block);
    if first < b {
      NoneBetween(block, first, first + block, b);
      RangeSnoc(first + block, hi, block, b);
    }
  }

  lemma {:induction false} RangeStops(first: nat, hi: nat, lo: nat, block: nat)
    requires 0 < block && Rem(first, block) == 0 && Rem(lo, block) == 0 && lo <= hi < lo + block
    ensures Range(first, hi, block) == Range(first, lo, block)
    decreases hi + 1 - first
  {
    FirstAfter(first, hi, block);
    if first <= hi {
      if lo < first {
        NoneBetween(block, lo, lo + block, first);
      }
      RangeStops(first + block, hi, lo, block);
    }
  }

  /** One step along a list of boundaries. */
  lemma RangeHead(bs: seq<nat>, i: nat, first: nat, hi: nat, block: nat)
    requires 0 < block && i < |bs| && bs[i..] == Range(first, hi, block)
    ensures bs[i] == first <= hi && bs[i + 1..] == Range(first + block, hi, block)
  {
    assert bs[i..][0] == bs[i] && bs[i..][1..] == bs[i + 1..];
  }

  /** Emitting the next boundary extends the list of all boundaries so far. */
  lemma BoundariesSnoc(lo: nat, block: nat)
    requires 0 < block && Rem(lo, block) == 0
    ensures Boundaries(0, lo, block) + [lo + block] == Boundaries(0, lo + block, block)
  {
    OneBlock(block);
    FirstAfter(0, lo, block);
    FirstAfter(0, lo + block, block);
    FirstAfter(lo, lo, block);
    RangeStops(block, lo + block - 1, lo, block);
    RangeSnoc(block, lo + block, block, lo + block);
  }

  // ---- all layers of a request

  type Layers<K, R, P> = map<nat, State<K, R, P>>

  ghost predicate AllFit<K, R(!new), L(!new), P(!new)>(lcs: seq<LayerCfg<R, L, P>>, layers: Layers<K, R, P>) {
    forall li | li in layers :: li < |lcs| && CarriesFit(layers[li])
  }

  ghost predicate AllUnshipped<K, R, P>(layers: Layers<K, R, P>, lo: nat) {
    forall li | li in layers :: Unshipped(layers[li], lo)
  }

  type Files<K, R, P> = map<nat, map<nat, Seg<K, R, P>>>

  /** Every layer has been fed its history gap-free from 0 and has shipped exactly up to lo. */
  ghost predicate LayersOk<K, R(!new), L(!new), P(!new)>(lcs: seq<LayerCfg<R, L, P>>, layers: Layers<K, R, P>,
                                                         hist: map<nat, Rows<K, R>>, lo: nat) {
    && hist.Keys == layers.Keys
    && forall li | li in layers :: li < |lcs| && 0 < hist[li].Len() && ShippedTo(lcs[li], layers[li], hist[li], lo)
  }

  ghost predicate SegOk<K, R(!new), L(!new), P(!new)>(block: nat, lc: LayerCfg<R, L, P>, h: Rows<K, R>, b: nat,
                                                      seg: Seg<K, R, P>) {
    lc.Ok() && h.Ok() && block <= b <= h.Len() && seg == SegSpec(lc, h, b - block, b)
  }

  /** One segment's content, every layer's share. */
  ghost predicate HostOk<K, R(!new), L(!new), P(!new)>(block: nat, lcs: seq<LayerCfg<R, L, P>>,
                                                       hist: map<nat, Rows<K, R>>, b: nat,
                                                       host: map<nat, Seg<K, R, P>>) {
    host.Keys == hist.Keys && forall li | li in host :: li < |lcs| && SegOk(block, lcs[li], hist[li], b, host[li])
  }

  /** The share holds one segment per boundary up to lo, each with every layer's rows. */
  ghost predicate FilesOk<K, R(!new), L(!new), P(!new)>(block: nat, lcs: seq<LayerCfg<R, L, P>>, files: Files<K, R, P>,
                                                        segments: seq<nat>, hist: map<nat, Rows<K, R>>, lo: nat)
    requires 0 < block
  {
    && segments == Boundaries(0, lo, block)
    && (forall b | b in segments :: b in files)
    && (forall b | b in segments :: files[b].Keys == hist.Keys)
    && (forall b, li | b in segments && li in files[b] ::
        li in hist && li < |lcs| && SegOk(block, lcs[li], hist[li], b, files[b][li]))
  }

  /** Every layer has reached position E. */
  ghost predicate Reached<K, R, P>(layers: Layers<K, R, P>, E: nat) {
    forall li | li in layers :: E <= layers[li].kv.next
  }

  ghost predicate SameBlock<R(!new), L(!new), P(!new)>(lcs: seq<LayerCfg<R, L, P>>, block: nat) {
    forall i | 0 <= i < |lcs| :: lcs[i].cfg.block == block
  }

  lemma ShippedShape<K, R(!new), L(!new), P(!new)>(lc: LayerCfg<R, L, P>, s: State<K, R, P>, h: Rows<K, R>, lo: nat)
    requires ShippedTo(lc, s, h, lo)
    ensures lc.Ok() && h.Ok() && lo <= h.Len() == s.kv.next
  {
  }

  lemma ReadyAll<K, R(!new), L(!new), P(!new)>(block: nat, lcs: seq<LayerCfg<R, L, P>>, layers: Layers<K, R, P>,
                                               hist: map<nat, Rows<K, R>>, lo: nat, b: nat)
    requires 0 < block && LayersOk(lcs, layers, hist, lo) && NextBoundary(block, lo, b)
    requires SameBlock(lcs, block) && Reached(layers, b)
    ensures forall li | li in layers :: Ready(layers[li], b) && Unshipped(layers[li], b)
  {
    hide Ready, Ship, ShippedTo, Unshipped, NextBoundary;
    forall li | li in layers
      ensures Ready(layers[li], b) && Unshipped(layers[li], b)
    {
      ShippedShape(lcs[li], layers[li], hist[li], lo);
      ShipKeeps(lcs[li], layers[li], hist[li], lo, b);
    }
  }

  lemma NextIs(lo: nat, block: nat)
    requires 0 < block && Rem(lo, block) == 0
    ensures NextBoundary(block, lo, lo + block)
  {
    FirstAfter(lo, lo, block);
  }

  /** Boundary b has been shipped: `next` is what is left of `layers`, `host` is what went out. */
  ghost predicate ShippedFrom<K, R, P>(layers: Layers<K, R, P>, next: Layers<K, R, P>, host: map<nat, Seg<K, R, P>>,
                                       b: nat) {
    && next.Keys == layers.Keys == host.Keys
    && forall li | li in layers :: Ready(layers[li], b) && Unshipped(layers[li], b)
                                   && next[li] == Release(Ship(layers[li], b).0, b) && host[li] == Ship(layers[li], b).1
  }

  ghost predicate SamePositions<K, R, P>(layers: Layers<K, R, P>, next: Layers<K, R, P>) {
    next.Keys == layers.Keys && forall li | li in layers :: next[li].kv.next == layers[li].kv.next
  }

  lemma ReachedEarlier<K, R, P>(layers: Layers<K, R, P>, E: nat, b: nat)
    requires Reached(layers, E) && b <= E
    ensures Reached(layers, b)
  {
  }

  lemma ReachedStill<K, R, P>(layers: Layers<K, R, P>, next: Layers<K, R, P>, E: nat)
    requires Reached(layers, E) && SamePositions(layers, next)
    ensures Reached(next, E)
  {
  }

  lemma ShippedPositions<K, R, P>(layers: Layers<K, R, P>, next: Layers<K, R, P>, host: map<nat, Seg<K, R, P>>, b: nat)
    requires ShippedFrom(layers, next, host, b)
    ensures SamePositions(layers, next)
  {
  }

  lemma BoundaryGap(block: nat, lo: nat, b: nat)
    requires 0 < block && NextBoundary(block, lo, b)
    ensures b == lo + block
  {
  }

  /** Shipping the next boundary from every layer. */
  lemma ShipAll<K, R(!new), L(!new), P(!new)>(block: nat, lcs: seq<LayerCfg<R, L, P>>, layers: Layers<K, R, P>,
                                              next: Layers<K, R, P>, host: map<nat, Seg<K, R, P>>,
                                              hist: map<nat, Rows<K, R>>, lo: nat, b: nat)
    requires 0 < block && LayersOk(lcs, layers, hist, lo) && NextBoundary(block, lo, b)
    requires SameBlock(lcs, block) && Reached(layers, b) && ShippedFrom(layers, next, host, b)
    ensures LayersOk(lcs, next, hist, b)
    ensures HostOk(block, lcs, hist, b, host)
  {
    hide Ready, Ship, Release, ShippedTo, SegSpec, Unshipped, NextBoundary;
    assert block <= b by { BoundaryGap(block, lo, b); }
    forall li | li in layers
      ensures ShippedTo(lcs[li], next[li], hist[li], b) && SegOk(block, lcs[li], hist[li], b, host[li])
    {
      BoundaryGap(block, lo, b);
      ShippedShape(lcs[li], layers[li], hist[li], lo);
      ShipKeeps(lcs[li], layers[li], hist[li], lo, b);
    }
  }

  lemma BeyondLo(first: nat, lo: nat, block: nat)
    requires 0 < block
    ensures lo + block !in Boundaries(first, lo, block)
  {
    BoundariesSpec(first, lo, block);
  }

  /** The new segment joins the ones on the share. */
  lemma FilesAdd<K, R(!new), L(!new), P(!new)>(block: nat, lcs: seq<LayerCfg<R, L, P>>, files: Files<K, R, P>,
                                               segments: seq<nat>, hist: map<nat, Rows<K, R>>, lo: nat,
                                               host: map<nat, Seg<K, R, P>>)
    requires 0 < block && FilesOk(block, lcs, files, segments, hist, lo) && Rem(lo, block) == 0
    requires HostOk(block, lcs, hist, lo + block, host)
    ensures FilesOk(block, lcs, files[lo + block := host], segments + [lo + block], hist, lo + block)
  {
    hide SegOk, Boundaries, Rem;
    BoundariesSnoc(lo, block);
    BoundariesSpec(0, lo, block);
    assert lo + block !in segments by { BeyondLo(0, lo, block); }
  }

  /** One shipped boundary, seen from the whole request. */
  lemma ShipStep<K, R(!new), L(!new), P(!new)>(block: nat, lcs: seq<LayerCfg<R, L, P>>, layers: Layers<K, R, P>,
                                               next: Layers<K, R, P>, files: Files<K, R, P>,
                                               host: map<nat, Seg<K, R, P>>, segments: seq<nat>,
                                               hist: map<nat, Rows<K, R>>, lo: nat)
    requires 0 < block && Rem(lo, block) == 0 && LayersOk(lcs, layers, hist, lo)
             && FilesOk(block, lcs, files, segments, hist, lo)
    requires SameBlock(lcs, block) && Reached(layers, lo + block) && ShippedFrom(layers, next, host, lo + block)
    ensures LayersOk(lcs, next, hist, lo + block)
    ensures FilesOk(block, lcs, files[lo + block := host], segments + [lo + block], hist, lo + block)
  {
    hide NextBoundary, FilesOk, LayersOk, Rem, Reached, SameBlock, ShippedFrom, HostOk;
    NextIs(lo, block);
    ShipAll(block, lcs, layers, next, host, hist, lo, lo + block);
    FilesAdd(block, lcs, files, segments, hist, lo, host);
  }

  /** Later rows leave the shipped segments right. */
  lemma FilesStable<K, R(!new), L(!new), P(!new)>(block: nat, lcs: seq<LayerCfg<R, L, P>>, files: Files<K, R, P>,
                                                  segments: seq<nat>, hist: map<nat, Rows<K, R>>, lo: nat, li: nat,
                                                  x: Rows<K, R>)
    requires 0 < block && FilesOk(block, lcs, files, segments, hist, lo) && li in hist && hist[li].Ok() && x.Ok()
    ensures FilesOk(block, lcs, files, segments, hist[li := hist[li].Plus(x)], lo)
  {
    hide Boundaries, SegSpec;
    var next := hist[li := hist[li].Plus(x)];
    forall b, l | b in segments && l in files[b]
      ensures l in next && l < |lcs| && SegOk(block, lcs[l], next[l], b, files[b][l])
    {
      assert SegOk(block, lcs[l], hist[l], b, files[b][l]);
      if l == li {
        SegSpecStable(lcs[l], hist[l], x, b - block, b);
      }
    }
  }

  /** Feeding ships nothing. */
  lemma IngestShipped<K, R(!new), L(!new), P(!new)>(lc: LayerCfg<R, L, P>, s: State<K, R, P>, x: Rows<K, R>, start: nat)
    requires lc.Ok() && CarriesFit(s)
    ensures var next := Ingest(lc, s, x, start).0;
            && (next.main.Some? <==> s.main.Some?) && (next.idx.Some? <==> s.idx.Some?)
            && (s.main.Some? ==>
                next.main.value.shipped == s.main.value.shipped && next.main.value.ratio == s.main.value.ratio)
            && (s.idx.Some? ==>
                next.idx.value.shipped == s.idx.value.shipped && next.idx.value.ratio == s.idx.value.ratio)
  {
    hide PoolLayer, Cuts, KvFeed;
  }

  /** A gap-free chunk of layer li (its first one included) keeps every layer's account. */
  lemma FeedOk<K, R(!new), L(!new), P(!new)>(lcs: seq<LayerCfg<R, L, P>>, layers: Layers<K, R, P>,
                                             hist: map<nat, Rows<K, R>>, lo: nat, li: nat, x: Rows<K, R>)
    requires LayersOk(lcs, layers, hist, lo) && li < |lcs| && lcs[li].Ok() && x.Ok() && 0 < x.Len()
    requires li !in layers ==> lo == 0
    ensures var s := if li in layers then layers[li] else NewState(lcs[li]);
            var h := if li in hist then hist[li] else Rows([], [], []);
            && CarriesFit(s) && Ingest(lcs[li], s, x, h.Len()).1
            && LayersOk(lcs, layers[li := Ingest(lcs[li], s, x, h.Len()).0], hist[li := h.Plus(x)], lo)
  {
    hide Inv, Ingest, CarriesFit, Count;
    var lc := lcs[li];
    var s := if li in layers then layers[li] else NewState(lc);
    var h := if li in hist then hist[li] else Rows([], [], []);
    if li !in layers {
      NewInv<K, R, L, P>(lc);
      OneBlock(4);
      if lc.Has(Main) {
        OneBlock(lc.ratio);
      }
    }
    assert ShippedTo(lc, s, h, lo);
    IngestKeeps(lc, s, h, x, lo, 0, 0);
    IngestShipped(lc, s, x, h.Len());
    assert ShippedTo(lc, Ingest(lc, s, x, h.Len()).0, h.Plus(x), lo);
  }

  lemma SameKeys<K, R(!new), L(!new), P(!new)>(lcs: seq<LayerCfg<R, L, P>>, layers: Layers<K, R, P>,
                                               hist: map<nat, Rows<K, R>>, lo: nat)
    requires LayersOk(lcs, layers, hist, lo)
    ensures hist.Keys == layers.Keys
  {
  }

  lemma NewStateFits<K, R(!new), L(!new), P(!new)>(lc: LayerCfg<R, L, P>, lo: nat)
    requires lc.Ok()
    ensures CarriesFit(NewState<K, R, L, P>(lc)) && Unshipped(NewState<K, R, L, P>(lc), lo)
  {
    hide Count;
  }

  // ---- conservation

  /** One accumulator's part of a layer's segment. */
  function Part<K, R, P>(seg: Seg<K, R, P>, kind: Kind): seq<P> {
    var p := if kind == Main then seg.main else seg.idx;
    if p.Some? then p.value.pooled else []
  }

  /** The pooled rows of layer li in the segments on the share, in order. */
  function ShippedRows<K, R, P>(files: Files<K, R, P>, segments: seq<nat>, li: nat, kind: Kind): seq<P> {
    if segments == [] then []
    else
      var b := segments[|segments| - 1];
      ShippedRows(files, segments[..|segments| - 1], li, kind)
      + (if b in files && li in files[b] then Part(files[b][li], kind) else [])
  }

  /** The rows under a pooled key of a layer file. */
  function KeyRows<K, R, P>(out: Out<K, R, P>, key: Key): seq<P> {
    if key in out && out[key].PooledRows? then out[key].pooled else []
  }

  /** What a right segment ships of one accumulator. */
  lemma PartIs<K, R(!new), L(!new), P(!new)>(block: nat, lc: LayerCfg<R, L, P>, h: Rows<K, R>, b: nat,
                                             seg: Seg<K, R, P>, kind: Kind)
    requires SegOk(block, lc, h, b, seg) && lc.Has(kind)
    ensures var ratio := if kind == Main then lc.ratio else 4;
            var rows := if kind == Main then h.main else h.idx;
            var k := if kind == Main then lc.main else lc.idx;
            && Count(b - block, ratio) <= Count(b, ratio) <= |PooledSpec(k, ratio, rows)|
            && Part(seg, kind) == PooledSpec(k, ratio, rows)[Count(b - block, ratio)..Count(b, ratio)]
  {
    hide PooledSpec, Count, LastN;
    var ratio := if kind == Main then lc.ratio else 4;
    CountMonotone(b - block, b, ratio);
    CountMonotone(b, h.Len(), ratio);
  }

  lemma NoBoundary(block: nat)
    requires 0 < block
    ensures Boundaries(0, 0, block) == []
  {
    OneBlock(block);
    FirstAfter(0, 0, block);
  }

  lemma StepBack(lo: nat, block: nat)
    requires 0 < block && 0 < lo && Rem(lo, block) == 0
    ensures block <= lo && Rem(lo - block, block) == 0
  {
  }

  lemma {:induction false} SegmentsAreSlices<K, R(!new), L(!new), P(!new)>(block: nat, lc: LayerCfg<R, L, P>,
                                                                           files: Files<K, R, P>, li: nat,
                                                                           h: Rows<K, R>, lo: nat, kind: Kind)
    requires 0 < block && lc.Ok() && lc.Has(kind) && h.Ok() && Rem(lo, block) == 0 && lo <= h.Len()
    requires forall b | b in Boundaries(0, lo, block) ::
               b in files && li in files[b] && SegOk(block, lc, h, b, files[b][li])
    ensures var ratio := if kind == Main then lc.ratio else 4;
            var rows := if kind == Main then h.main else h.idx;
            var k := if kind == Main then lc.main else lc.idx;
            Count(lo, ratio) <= Count(|rows|, ratio)
            && ShippedRows(files, Boundaries(0, lo, block), li, kind) == PooledSpec(k, ratio, rows)[..Count(lo, ratio)]
    decreases lo
  {
    hide PooledSpec, Count, LastN, SegOk, Part, Boundaries, Rem;
    var ratio := if kind == Main then lc.ratio else 4;
    CountMonotone(lo, h.Len(), ratio);
    var bs := Boundaries(0, lo, block);
    if lo == 0 {
      OneBlock(ratio);
      NoBoundary(block);
    } else {
      var before := lo - block;
      StepBack(lo, block);
      BoundariesSnoc(before, block);
      assert bs[..|bs| - 1] == Boundaries(0, before, block) && bs[|bs| - 1] == lo;
      forall b | b in Boundaries(0, before, block)
        ensures b in files && li in files[b] && SegOk(block, lc, h, b, files[b][li])
      {
        assert b in bs;
      }
      SegmentsAreSlices(block, lc, files, li, h, before, kind);
      assert lo in bs;
      PartIs(block, lc, h, lo, files[lo][li], kind);
    }
  }

  lemma InvLo<K, R(!new), L(!new), P(!new)>(lc: LayerCfg<R, L, P>, s: State<K, R, P>, h: Rows<K, R>, lo: nat)
    requires Inv(lc, s, h, lo, 0, 0)
    ensures lo <= h.Len()
  {
  }

  /** Whatever the end position, the end file's pooled_tail is every pooled row past the last shipped boundary. */
  lemma TailKeyRows<K, R(!new), L(!new), P(!new)>(lc: LayerCfg<R, L, P>, s: State<K, R, P>, h: Rows<K, R>, lo: nat,
                                                  T: nat, kind: Kind)
    requires Inv(lc, s, h, lo, 0, 0) && lc.Has(kind)
    ensures (s.main.Some? ==> 0 < s.main.value.ratio) && (s.idx.Some? ==> 0 < s.idx.value.ratio)
    ensures lo <= h.Len()
    ensures KeyRows(Export(lc.cfg, s, T, true), PooledTail(kind))
         == if kind == Main then PooledFrom(lc.main, lc.ratio, h.main, lo) else PooledFrom(lc.idx, 4, h.idx, lo)
  {
    hide PooledSpec, Count, LastN, KvExport, PoolExport, KvInv, RawInv, CarrySpec, Flatten, Rem;
    PoolInvRatio(lc, s, h, lo, 0, 0);
    InvLo(lc, s, h, lo);
    var a: Out<K, R, P> := KvExport(lc.cfg, s.kv, map[]);
    var b := if s.main.Some? then PoolExport(Main, s.main.value, T, true, a) else a;
    KvKeysOnly<K, R, P>(lc.cfg, s.kv, PooledTail(kind));
    if s.main.Some? {
      PoolExportAt(Main, s.main.value, T, true, a, PooledTail(kind));
      PooledNonEmpty(s.main.value.pooled);
    }
    if s.idx.Some? {
      PoolExportAt(Idx, s.idx.value, T, true, b, PooledTail(kind));
      PooledNonEmpty(s.idx.value.pooled);
    }
  }

  /** Streaming loses and duplicates nothing: the segments and the end file's pooled_tail are the one-shot pooled
      rows. */
  lemma StreamConserves<K, R(!new), L(!new), P(!new)>(block: nat, lcs: seq<LayerCfg<R, L, P>>, layers: Layers<K, R, P>,
                                                      files: Files<K, R, P>, segments: seq<nat>,
                                                      hist: map<nat, Rows<K, R>>, lo: nat, li: nat, T: nat, kind: Kind)
    requires 0 < block && LayersOk(lcs, layers, hist, lo) && FilesOk(block, lcs, files, segments, hist, lo)
             && Rem(lo, block) == 0
    requires li in layers && lcs[li].Ok() && lcs[li].Has(kind)
    ensures (layers[li].main.Some? ==> 0 < layers[li].main.value.ratio)
            && (layers[li].idx.Some? ==> 0 < layers[li].idx.value.ratio)
    ensures var lc := lcs[li];
            ShippedRows(files, segments, li, kind) + KeyRows(Export(lc.cfg, layers[li], T, true), PooledTail(kind))
            == if kind == Main then PooledSpec(lc.main, lc.ratio, hist[li].main)
              else PooledSpec(lc.idx, 4, hist[li].idx)
  {
    hide PooledSpec, Count, LastN, KvInv, PoolInv, Boundaries, SegOk, ShippedRows, KeyRows, Rem, Export;
    var lc, s, h := lcs[li], layers[li], hist[li];
    assert ShippedTo(lc, s, h, lo);
    ShippedShape(lc, s, h, lo);
    PoolInvRatio(lc, s, h, lo, 0, 0);
    SegmentsAreSlices(block, lc, files, li, h, lo, kind);
    TailKeyRows(lc, s, h, lo, T, kind);
  }

  /** A save that fails has already taken its rows: segments and pooled_tail then miss exactly the windows completed in
      (lo, b], so they still make up the whole prompt only if that boundary completed no window. */
  lemma FailedSaveLoses<R(!new), L(!new), P(!new)>(cfg: Config, k: Kernel<R, L, P>, s: Pool<R, P>, h: seq<R>, lo: nat,
                                                   b: nat)
    requires PoolInv(cfg, k, s, h, lo, 0) && s.shipped == Count(lo, s.ratio)
    requires NextBoundary(cfg.block, lo, b) && b <= |h|
    ensures PoolReady(s, b) && s.shipped <= Count(b, s.ratio) <= |PooledSpec(k, s.ratio, h)|
    ensures var spec := PooledSpec(k, s.ratio, h); var left := Flatten(PoolShip(s, b).0.pooled);
            && left == spec[Count(b, s.ratio)..]
            && (spec[..Count(lo, s.ratio)] + left == spec <==> Count(b, s.ratio) == Count(lo, s.ratio))
  {
    hide PooledSpec, CarrySpec, LastN, Flatten, Count, Rem, PoolShip, PoolReady, NextBoundary, RawInv;
    PoolShipKeeps(cfg, k, s, h, lo, b);
    CountMonotone(b, |h|, s.ratio);
  }

  /** Where an exported key comes from. */
  lemma ExportKey<K, R, P>(cfg: Config, s: State<K, R, P>, T: nat, key: Key)
    requires (s.main.Some? ==> 0 < s.main.value.ratio) && (s.idx.Some? ==> 0 < s.idx.value.ratio)
    ensures Lookup(Export(cfg, s, T, true), key)
         == if OfKind(key, Main) then
              if s.main.Some? then Lookup(PoolExport<K, R, P>(Main, s.main.value, T, true, map[]), key) else None
            else if OfKind(key, Idx) then
              if s.idx.Some? then Lookup(PoolExport<K, R, P>(Idx, s.idx.value, T, true, map[]), key) else None
            else Lookup(KvExport<K, R, P>(cfg, s.kv, map[]), key)
  {
    hide KvExport, PoolExport, PySlice, Flatten, Rem;
    var none: Out<K, R, P> := map[];
    var a: Out<K, R, P> := KvExport(cfg, s.kv, map[]);
    if OfKind(key, Main) || OfKind(key, Idx) {
      KvKeysOnly<K, R, P>(cfg, s.kv, key);
    }
    var b := if s.main.Some? then PoolExport(Main, s.main.value, T, true, a) else a;
    if s.main.Some? {
      PoolExportAt(Main, s.main.value, T, true, a, key);
      PoolExportAt(Main, s.main.value, T, true, none, key);
    }
    if s.idx.Some? {
      PoolExportAt(Idx, s.idx.value, T, true, b, key);
      PoolExportAt(Idx, s.idx.value, T, true, none, key);
    }
  }

  /** A kv key comes from the kv accumulator alone, any other from the pools alone. */
  lemma ExportParts<K, R, P>(cfg: Config, t: State<K, R, P>, u: State<K, R, P>, s: State<K, R, P>, T: nat, key: Key)
    requires t.main == u.main && t.idx == u.idx && t.kv == s.kv
    requires t.main.Some? == s.main.Some? && t.idx.Some? == s.idx.Some?
    requires (t.main.Some? ==> 0 < t.main.value.ratio) && (t.idx.Some? ==> 0 < t.idx.value.ratio)
    requires (s.main.Some? ==> 0 < s.main.value.ratio) && (s.idx.Some? ==> 0 < s.idx.value.ratio)
    ensures var kvKey := !OfKind(key, Main) && !OfKind(key, Idx);
            Lookup(Export(cfg, t, T, true), key)
              == Lookup(if kvKey then Export(cfg, s, T, true) else Export(cfg, u, T, true), key)
  {
    hide KvExport, PoolExport;
    ExportKey(cfg, t, T, key);
    ExportKey(cfg, s, T, key);
    ExportKey(cfg, u, T, key);
  }

  /** Only the windows depend on where a capture's kv output begins. */
  lemma EndKeySame<K, R(!new), L(!new), P(!new)>(lc: LayerCfg<R, L, P>, h: Rows<K, R>, lo: nat, b: nat, key: Key)
    requires lc.Ok()
    ensures key.KvWinEnd? ==> LayerAt(lc, h, lo, true, key) == LayerAt(lc, h, b, true, key)
  {
    hide LastN;
  }

  /** Once the segment's rows are taken, the layer's end file is that of a layer shipped up to b, except for the kv
      windows, which are still there. So when the save fails, the windows of four rows and the pooled rows of (lo, b]
      are in no file. */
  lemma FailedSaveFile<K, R(!new), L(!new), P(!new)>(lc: LayerCfg<R, L, P>, s: State<K, R, P>, h: Rows<K, R>, lo: nat,
                                                     b: nat, key: Key)
    requires ShippedTo(lc, s, h, lo) && NextBoundary(lc.cfg.block, lo, b) && b <= h.Len()
    ensures Ready(s, b) && Unshipped(s, b)
    ensures var t := Ship(s, b).0;
            && (t.main.Some? ==> 0 < t.main.value.ratio) && (t.idx.Some? ==> 0 < t.idx.value.ratio)
            && Lookup(Export(lc.cfg, t, h.Len(), true), key) == LayerAt(lc, h, if key.KvWin? then lo else b, true, key)
  {
    hide KvInv, PoolInv, PoolShip, PoolReady, NextBoundary, LastN, Count, Rem, KvExport, PoolExport, LayerAt, SegSpec;
    ShipKeeps(lc, s, h, lo, b);
    var t := Ship(s, b).0;
    PoolInvRatio(lc, Release(t, b), h, b, 0, 0);
    PoolInvRatio(lc, s, h, lo, 0, 0);
    ExportParts(lc.cfg, t, Release(t, b), s, h.Len(), key);
    ExportMeans(lc, Release(t, b), h, b, 0, 0, true, key);
    ExportMeans(lc, s, h, lo, 0, 0, true, key);
    EndKeySame<K, R, L, P>(lc, h, lo, b, key);
  }

  ghost function Below(n: nat): set<nat> {
    if n == 0 then {} else Below(n - 1) + {n - 1}
  }

  lemma {:induction false} BelowSpec(n: nat)
    ensures |Below(n)| == n && forall i: nat :: i in Below(n) <==> i < n
  {
    if n > 0 {
      BelowSpec(n - 1);
    }
  }

  lemma {:induction false} SmallerSet<T>(a: set<T>, b: set<T>)
    requires a < b
    ensures |a| < |b|
  {
    if a == {} {
      var x :| x in b;
    } else {
      var x :| x in a;
      SmallerSet(a - {x}, b - {x});
    }
  }

  lemma IngestUnshipped<K, R(!new), L(!new), P(!new)>(lc: LayerCfg<R, L, P>, s: State<K, R, P>, x: Rows<K, R>,
                                                      start: nat, lo: nat)
    requires lc.Ok() && CarriesFit(s)
    ensures Unshipped(s, lo) ==> Unshipped(Ingest(lc, s, x, start).0, lo)
  {
    hide Ingest, Count;
    IngestShipped(lc, s, x, start);
  }

  /** Feeding keeps the share right, also when it is a layer's first chunk (nothing has been shipped then). */
  lemma FilesFed<K, R(!new), L(!new), P(!new)>(block: nat, lcs: seq<LayerCfg<R, L, P>>, layers: Layers<K, R, P>,
                                               files: Files<K, R, P>, segments: seq<nat>, hist: map<nat, Rows<K, R>>,
                                               lo: nat, li: nat, x: Rows<K, R>)
    requires 0 < block && LayersOk(lcs, layers, hist, lo) && FilesOk(block, lcs, files, segments, hist, lo) && x.Ok()
    requires li !in layers ==> lo == 0
    ensures var h := if li in hist then hist[li] else Rows([], [], []);
            FilesOk(block, lcs, files, segments, hist[li := h.Plus(x)], lo)
  {
    hide SegOk;
    if li in hist {
      ShippedShape(lcs[li], layers[li], hist[li], lo);
      FilesStable(block, lcs, files, segments, hist, lo, li, x);
    } else {
      OneBlock(block);
      FirstAfter(0, 0, block);
      assert segments == [];
    }
  }

  /** The pooled rows of a prompt, by accumulator. */
  ghost function PooledOfPrompt<K, R(!new), L(!new), P(!new)>(lc: LayerCfg<R, L, P>, h: Rows<K, R>, kind: Kind): seq<P>
    requires lc.Ok() && lc.Has(kind)
  {
    if kind == Main then PooledSpec(lc.main, lc.ratio, h.main) else PooledSpec(lc.idx, 4, h.idx)
  }

  // ---- the request

  /** The rows layer li has been fed. */
  function HistOf<K, R>(hist: map<nat, Rows<K, R>>, li: nat): Rows<K, R> {
    if li in hist then hist[li] else Rows([], [], [])
  }

  function Extended<K, R>(hist: map<nat, Rows<K, R>>, li: nat, x: Rows<K, R>): map<nat, Rows<K, R>> {
    hist[li := HistOf(hist, li).Plus(x)]
  }

  /** The chunk begins where the layer stands. */
  predicate GapFree<K, R>(hist: map<nat, Rows<K, R>>, li: nat, x: Rows<K, R>, start: nat) {
    start == HistOf(hist, li).Len() && x.Ok() && 0 < x.Len()
  }

  /** One streaming request. lcs are the layers that have projection weights; a layer appears in `layers` with its first
      chunk. `files` are the segments on the share. */
  class Request<K, R(!new), L(!new), P(!new)> {
    const cfg: Config
    const lcs: seq<LayerCfg<R, L, P>>
    var layers: map<nat, State<K, R, P>>
    var partialStart: nat                        // first position of a request that did not begin at 0
    var calls: nat
    var emittedB: nat
    var segments: seq<nat>
    var streamError: bool
    var files: map<nat, map<nat, Seg<K, R, P>>>
    var sealed: Option<map<nat, Out<K, R, P>>>   // the end files, once the request is finished
    ghost var hist: map<nat, Rows<K, R>>         // the rows each layer has been fed

    ghost predicate Valid()
      reads this
    {
      && cfg.Ok() && lcs != [] && (forall i | 0 <= i < |lcs| :: lcs[i].Ok() && lcs[i].cfg == cfg)
      && AllFit(lcs, layers)
      && (!streamError ==> AllUnshipped(layers, emittedB))
      && Rem(emittedB, cfg.block) == 0
    }

    /** Every layer was fed gap-free from 0, and everything up to emittedB, and nothing else, has been shipped. */
    ghost predicate Faithful()
      reads this
    {
      && Valid() && !streamError && partialStart == 0
      && LayersOk(lcs, layers, hist, emittedB)
      && FilesOk(cfg.block, lcs, files, segments, hist, emittedB)
    }

    /** The share holds the segments of the boundaries up to emittedB, each whole, and no other is claimed. */
    ghost predicate SharedOk()
      requires Valid()
      reads this
    {
      FilesOk(cfg.block, lcs, files, segments, hist, emittedB)
    }

    /** Rows still come in. */
    predicate Live()
      reads this
    {
      sealed.None? && !streamError
    }

    /** Pass 1: proves every tensor of boundary b exists, without touching anything. */
    method Check(b: nat) returns (ok: bool)
      requires Valid()
      ensures ok <==> forall li :: li in layers ==> Ready(layers[li], b)
    {
      hide Ready;
      var todo := layers.Keys;
      while todo != {}
        invariant todo <= layers.Keys
        invariant forall li | li in layers && li !in todo :: Ready(layers[li], b)
      {
        var li :| li in todo;
        if !Ready(layers[li], b) {
          return false;
        }
        todo := todo - {li};
      }
      return true;
    }

    /** Pass 2: takes the pooled rows and windows of boundary b out of every layer. */
    method Take(b: nat) returns (host: map<nat, Seg<K, R, P>>)
      requires forall li | li in layers :: Ready(layers[li], b) && Unshipped(layers[li], b)
      modifies `layers
      ensures layers.Keys == old(layers).Keys == host.Keys
      ensures forall li | li in layers ::
                layers[li] == Ship(old(layers)[li], b).0 && host[li] == Ship(old(layers)[li], b).1
    {
      hide Ready, Ship, Unshipped;
      host := map[];
      var todo := layers.Keys;
      while todo != {}
        invariant todo <= layers.Keys == old(layers).Keys
        invariant host.Keys == layers.Keys - todo
        invariant forall li | li in todo :: layers[li] == old(layers)[li]
        invariant forall li | li in host ::
                    host[li] == Ship(old(layers)[li], b).1 && layers[li] == Ship(old(layers)[li], b).0
      {
        var li :| li in todo;
        var r := Ship(layers[li], b);
        layers := layers[li := r.0];
        host := host[li := r.1];
        todo := todo - {li};
      }
    }

    /** Drops the kv snapshots of boundary b. */
    method DropSnaps(b: nat)
      modifies `layers
      ensures layers.Keys == old(layers).Keys
      ensures forall li | li in layers :: layers[li] == Release(old(layers)[li], b)
    {
      hide Release;
      var todo := layers.Keys;
      while todo != {}
        invariant todo <= layers.Keys == old(layers).Keys
        invariant forall li | li in layers :: layers[li] == if li in todo then old(layers)[li]
                  else Release(old(layers)[li], b)
      {
        var li :| li in todo;
        layers := layers[li := Release(layers[li], b)];
        todo := todo - {li};
      }
    }

    lemma UnshippedLater(b: nat)
      requires Valid() && !streamError && emittedB <= b
      ensures forall li | li in layers :: Unshipped(layers[li], b)
    {
      hide Count;
      forall li | li in layers
        ensures Unshipped(layers[li], b)
      {
        var s := layers[li];
        assert Unshipped(s, emittedB);
        if s.main.Some? {
          CountMonotone(emittedB, b, s.main.value.ratio);
        }
        if s.idx.Some? {
          CountMonotone(emittedB, b, s.idx.value.ratio);
        }
      }
    }

    /** Ships boundary b. `saved` says whether the segment file was written: the pooled rows and windows are taken
        before that, the kv snapshots go only after it. */
    method EmitSegment(b: nat, saved: bool) returns (res: Emitted)
      requires Valid() && !streamError && emittedB <= b
      modifies `layers, `files
      ensures layers.Keys == old(layers).Keys
      ensures AllFit(lcs, layers) && (res == Shipped ==> AllUnshipped(layers, b))
      ensures res == Refused <==> exists li :: li in old(layers) && !Ready(old(layers)[li], b)
      ensures res == Refused ==> layers == old(layers) && files == old(files)
      ensures res != Refused ==> forall li | li in old(layers) :: Unshipped(old(layers)[li], b)
      ensures res == SaveFailed ==> !saved && files == old(files)
                                    && forall li | li in layers :: layers[li] == Ship(old(layers)[li], b).0
      ensures res == Shipped ==> saved && b in files && files == old(files)[b := files[b]]
                                 && ShippedFrom(old(layers), layers, files[b], b)
    {
      hide Ready, Ship, Release, Count, CarriesFit;
      UnshippedLater(b);
      var ok := Check(b);
      if !ok {
        return Refused;
      }
      var host := Take(b);
      if !saved {
        return SaveFailed;
      }
      files := files[b := host];
      DropSnaps(b);
      return Shipped;
    }

    /** Layers all present once anything has been shipped mid-request. */
    ghost predicate AllPresent()
      reads this
    {
      emittedB > 0 ==> forall li | 0 <= li < |lcs| :: li in layers
    }

    /** min(next_pos) over the layers seen so far. */
    method MinNext() returns (m: nat)
      requires layers.Keys != {}
      ensures (forall li | li in layers :: m <= layers[li].kv.next) && exists li ::
                li in layers && m == layers[li].kv.next
    {
      var first :| first in layers;
      m := layers[first].kv.next;
      var todo := layers.Keys;
      while todo != {}
        invariant todo <= layers.Keys
        invariant forall li | li in layers && li !in todo :: m <= layers[li].kv.next
        invariant exists li :: li in layers && m == layers[li].kv.next
      {
        var li :| li in todo;
        m := Min(m, layers[li].kv.next);
        todo := todo - {li};
      }
    }

    /** max(next_pos) */
    method MaxNext() returns (m: nat)
      requires layers.Keys != {}
      ensures (forall li | li in layers :: layers[li].kv.next <= m) && exists li ::
                li in layers && m == layers[li].kv.next
    {
      var first :| first in layers;
      m := layers[first].kv.next;
      var todo := layers.Keys;
      while todo != {}
        invariant todo <= layers.Keys
        invariant forall li | li in layers && li !in todo :: layers[li].kv.next <= m
        invariant exists li :: li in layers && m == layers[li].kv.next
      {
        var li :| li in todo;
        m := Max(m, layers[li].kv.next);
        todo := todo - {li};
      }
    }

    /** One round of the loop. */
    method EmitNext(b: nat, saved: bool) returns (ok: bool)
      requires Valid() && !streamError && b == emittedB + cfg.block
      modifies `layers, `files, `segments, `emittedB, `streamError
      ensures Valid() && layers.Keys == old(layers).Keys && ok == !streamError
      ensures ok ==> emittedB == b && SamePositions(old(layers), layers)
      ensures old(Faithful() && Reached(layers, b)) ==> (ok <==> saved) && SharedOk() && (ok ==> Faithful())
    {
      hide Ready, Ship, Release, ShippedTo, SegSpec, Boundaries, FilesOk, Rem, SegOk, AllFit, AllUnshipped, LayersOk,
           NextBoundary, ShippedFrom, SamePositions, Reached;
      FirstAfter(emittedB, b, cfg.block);
      NextIs(emittedB, cfg.block);
      ghost var was, lo := layers, emittedB;
      ghost var good := Faithful() && Reached(layers, b);
      if good {
        ReadyAll(cfg.block, lcs, layers, hist, emittedB, b);
      }
      var r := EmitSegment(b, saved);
      if r == Shipped {
        ShippedPositions(was, layers, files[b], b);
        if good {
          ShipStep(cfg.block, lcs, was, layers, old(files), files[b], segments, hist, lo);
        }
        segments := segments + [b];
        emittedB := b;
      } else {
        streamError := true;
      }
      ok := r == Shipped;
    }

    /** _stream_emit for end position E: ships every boundary in (emittedB, E], stopping at the first that fails. */
    method EmitUpTo(E: nat, saves: nat -> bool)
      requires Valid() && !streamError
      modifies `layers, `files, `segments, `emittedB, `streamError
      ensures Valid() && layers.Keys == old(layers).Keys
      ensures old(Faithful() && Reached(layers, E)) ==>
                && SharedOk() && ((forall b :: saves(b)) ==> !streamError)
                && (!streamError ==>
                    Faithful() && E < emittedB + cfg.block && (emittedB <= E || emittedB == old(emittedB)))
    {
      hide Ready, Ship, Release, ShippedTo, SegSpec, Boundaries, CarriesFit, Unshipped, LayersOk, FilesOk,
           NextBoundary, Rem, Reached, SamePositions, AllFit, AllUnshipped;
      FirstAfter(emittedB, E, cfg.block);
      var bs := Boundaries(emittedB, E, cfg.block);
      ghost var good := Faithful() && Reached(layers, E);
      ghost var from, keys := emittedB, layers.Keys;
      var i := 0;
      while i < |bs|
        invariant 0 <= i <= |bs| && Valid() && !streamError && layers.Keys == keys
        invariant bs[i..] == Range(emittedB + cfg.block, E, cfg.block)
        invariant good ==> Faithful() && (emittedB <= E || emittedB == from) && Reached(layers, E)
      {
        var b := bs[i];
        RangeHead(bs, i, emittedB + cfg.block, E, cfg.block);
        if good {
          ReachedEarlier(layers, E, b);
        }
        ghost var was := layers;
        var ok := EmitNext(b, saves(b));
        if !ok {
          return;
        }
        if good {
          ReachedStill(was, layers, E);
        }
        i := i + 1;
      }
    }

    constructor (cfg: Config, lcs: seq<LayerCfg<R, L, P>>, partialStart: nat)
      requires cfg.Ok() && lcs != [] && forall i | 0 <= i < |lcs| :: lcs[i].Ok() && lcs[i].cfg == cfg
      ensures Valid() && this.cfg == cfg && this.lcs == lcs && this.partialStart == partialStart && hist == map[]
              && Live()
      ensures partialStart == 0 ==> Faithful() && AllPresent()
    {
      this.cfg, this.lcs, this.partialStart := cfg, lcs, partialStart;
      layers, calls, emittedB, segments, streamError, files, sealed, hist := map[], 0, 0, [], false, map[], None, map[];
      new;
      OneBlock(cfg.block);
      FirstAfter(0, 0, cfg.block);
    }

    lemma KeysAreAll()
      requires Valid() && |layers| == |lcs|
      ensures forall li | 0 <= li < |lcs| :: li in layers
    {
      var all := Below(|lcs|);
      BelowSpec(|lcs|);
      assert layers.Keys <= all;
      if layers.Keys != all {
        assert layers.Keys < all;
        SmallerSet(layers.Keys, all);
      }
    }

    /** _stream_emit mid-request: a boundary is complete once every layer has ingested the chunk that covers it. */
    method StreamEmit(saves: nat -> bool)
      requires Valid()
      modifies `layers, `files, `segments, `emittedB, `streamError
      ensures Valid() && layers.Keys == old(layers).Keys
      ensures old(Faithful() && AllPresent()) ==>
                && SharedOk() && ((forall b :: saves(b)) ==> !streamError)
                  && (!streamError ==> Faithful() && AllPresent())
    {
      hide LayersOk, FilesOk, AllFit, AllUnshipped, Rem;
      if streamError || partialStart != 0 || |layers| != |lcs| || Rem(calls, |lcs|) != 0 {
        return;
      }
      KeysAreAll();
      var E := MinNext();
      EmitUpTo(E, saves);
    }

    lemma FitRatios()
      requires Valid()
      ensures forall li | li in layers ::
                (layers[li].main.Some? ==> 0 < layers[li].main.value.ratio)
                  && (layers[li].idx.Some? ==> 0 < layers[li].idx.value.ratio)
    {
      forall li | li in layers
        ensures (layers[li].main.Some? ==> 0 < layers[li].main.value.ratio)
                && (layers[li].idx.Some? ==> 0 < layers[li].idx.value.ratio)
      {
        assert CarriesFit(layers[li]);
      }
    }

    /** The end file of layer li is its export for end position T. */
    ghost predicate EndFile(li: nat, T: nat)
      reads this
    {
      && li in layers && sealed.Some? && li in sealed.value
      && (layers[li].main.Some? ==> 0 < layers[li].main.value.ratio)
        && (layers[li].idx.Some? ==> 0 < layers[li].idx.value.ratio)
      && sealed.value[li] == Export(cfg, layers[li], T, partialStart == 0)
    }

    /** The end files. */
    method Seal(T: nat)
      requires Valid()
      modifies `sealed
      ensures Valid() && sealed.Some? && sealed.value.Keys == layers.Keys && forall li | li in layers :: EndFile(li, T)
    {
      hide CarriesFit, AllUnshipped, Rem, Export;
      FitRatios();
      var outs: map<nat, Out<K, R, P>> := map[];
      var todo := layers.Keys;
      while todo != {}
        invariant todo <= layers.Keys && outs.Keys == layers.Keys - todo
        invariant forall li | li in outs :: outs[li] == Export(cfg, layers[li], T, partialStart == 0)
      {
        var li :| li in todo;
        outs := outs[li := Export(cfg, layers[li], T, partialStart == 0)];
        todo := todo - {li};
      }
      sealed := Some(outs);
    }

    /** The streaming part of _finish: a last emission up to the position every layer has reached, then the end
        files. */
    method Finish(saves: nat -> bool) returns (T: nat)
      requires Valid() && layers.Keys != {} && sealed.None?
      modifies `layers, `files, `segments, `emittedB, `streamError, `sealed
      ensures Valid() && sealed.Some? && sealed.value.Keys == layers.Keys == old(layers).Keys
      ensures forall li | li in layers :: EndFile(li, T)
      ensures old(Faithful()) ==>
                SharedOk() && ((forall b :: saves(b)) ==> !streamError) && (!streamError ==> Faithful())
      ensures old(streamError) ==> streamError && (old(SharedOk()) ==> SharedOk())
    {
      hide LayersOk, FilesOk, CarriesFit, AllUnshipped, Rem, EndFile, AllFit;
      T := MaxNext();
      if !streamError && partialStart == 0 {
        var E := MinNext();
        EmitUpTo(E, saves);
      }
      Seal(T);
    }

    /** The rows of one layer-chunk go to the layer's accumulators. */
    method Feed(li: nat, x: Rows<K, R>, start: nat) returns (ok: bool)
      requires Valid() && Live() && li < |lcs|
      modifies `layers, `hist
      ensures Valid() && layers.Keys == old(layers).Keys + {li}
      ensures old(Faithful() && AllPresent()) && GapFree(old(hist), li, x, start) ==>
                ok && hist == Extended(old(hist), li, x) && Faithful() && AllPresent()
    {
      hide LayersOk, FilesOk, CarriesFit, Unshipped, Boundaries, Rem, Layer.Ingest, NewState;
      NewStateFits<K, R, L, P>(lcs[li], emittedB);
      if Faithful() && AllPresent() && GapFree(hist, li, x, start) {
        SameKeys(lcs, layers, hist, emittedB);
        FeedOk(lcs, layers, hist, emittedB, li, x);
        FilesFed(cfg.block, lcs, layers, files, segments, hist, emittedB, li, x);
      }
      var s := if li in layers then layers[li] else NewState(lcs[li]);
      var r := Layer.Ingest(lcs[li], s, x, start);
      IngestUnshipped(lcs[li], s, x, start, emittedB);
      layers := layers[li := r.0];
      hist := Extended(hist, li, x);
      ok := r.1;
    }

    /** ingest for one layer-chunk of this request, then the emission; a failed emission seals the request where the
        share stands. An exception out of a feed skips both. */
    method Ingest(li: nat, x: Rows<K, R>, start: nat, saves: nat -> bool) returns (ok: bool)
      requires Valid() && Live() && li < |lcs|
      modifies this
      ensures Valid() && (streamError <==> sealed.Some?) && li in layers
      ensures old(Faithful() && AllPresent()) && GapFree(old(hist), li, x, start) ==>
                && ok && hist == Extended(old(hist), li, x)
                && SharedOk() && ((forall b :: saves(b)) ==> !streamError)
                  && (!streamError ==> Faithful() && AllPresent())
    {
      hide LayersOk, FilesOk, Rem, AllFit, AllUnshipped, EndFile;
      ok := Feed(li, x, start);
      if !ok {
        return;
      }
      calls := calls + 1;
      StreamEmit(saves);
      if streamError {
        var T := Finish(saves);
      }
    }

    /** When nothing failed, the segments and the end file of a layer are its one-shot pooled rows. */
    lemma Conserves(li: nat, T: nat, kind: Kind)
      requires Faithful() && EndFile(li, T) && li < |lcs| && lcs[li].Has(kind)
      ensures li in hist
           && ShippedRows(files, segments, li, kind) + KeyRows(sealed.value[li], PooledTail(kind))
             == PooledOfPrompt(lcs[li], hist[li], kind)
    {
      hide PooledSpec, LayersOk, FilesOk, ShippedRows, KeyRows, Export, AllFit, AllUnshipped, Rem;
      SameKeys(lcs, layers, hist, emittedB);
      StreamConserves(cfg.block, lcs, layers, files, segments, hist, emittedB, li, T, kind);
    }
  }

  // ---- a whole request

  /** What each layer has been fed: layer and chunk, in the order the worker takes them. */
  function Fed<K, R>(feeds: seq<(nat, Rows<K, R>)>): map<nat, Rows<K, R>> {
    if feeds == [] then map[]
    else
      var last := feeds[|feeds| - 1];
      Extended(Fed(feeds[..|feeds| - 1]), last.0, last.1)
  }

  lemma FedNext<K, R>(feeds: seq<(nat, Rows<K, R>)>, i: nat)
    requires i < |feeds|
    ensures Fed(feeds[..i + 1]) == Extended(Fed(feeds[..i]), feeds[i].0, feeds[i].1)
  {
    assert feeds[..i + 1][..i] == feeds[..i];
  }

  lemma LayerStands<K, R(!new), L(!new), P(!new)>(lcs: seq<LayerCfg<R, L, P>>, layers: Layers<K, R, P>,
                                                  hist: map<nat, Rows<K, R>>, lo: nat, li: nat)
    requires LayersOk(lcs, layers, hist, lo)
    ensures (if li in layers then layers[li].kv.next else 0) == HistOf(hist, li).Len()
  {
    if li in layers {
      ShippedShape(lcs[li], layers[li], hist[li], lo);
    }
  }

  lemma NothingFed<K, R>(feeds: seq<(nat, Rows<K, R>)>)
    ensures Fed(feeds[..0]) == map[]
  {
  }

  /** The chunks of a request, until they are all in or a save fails. */
  method FeedRequest<K, R(!new), L(!new), P(!new)>(r: Request<K, R, L, P>, feeds: seq<(nat, Rows<K, R>)>,
                                                   saves: nat -> bool)
    requires r.Faithful() && r.AllPresent() && r.Live() && r.hist == map[]
    requires feeds != [] && forall i | 0 <= i < |feeds| ::
               feeds[i].0 < |r.lcs| && feeds[i].1.Ok() && 0 < feeds[i].1.Len()
    modifies r
    ensures r.Valid() && (r.streamError <==> r.sealed.Some?) && r.layers.Keys != {}
            && ((forall b :: saves(b)) ==> !r.streamError)
    ensures !r.streamError ==> r.Faithful() && r.hist == Fed(feeds)
  {
    hide Fed, Extended, LayersOk, FilesOk, AllFit, AllUnshipped, Rem;
    NothingFed(feeds);
    var i := 0;
    while i < |feeds| && !r.streamError
      invariant 0 <= i <= |feeds| && r.Valid() && (r.streamError <==> r.sealed.Some?)
      invariant (forall b :: saves(b)) ==> !r.streamError
      invariant 0 < i ==> r.layers.Keys != {}
      invariant r.streamError ==> 0 < i
      invariant !r.streamError ==> r.Faithful() && r.AllPresent() && r.hist == Fed(feeds[..i])
    {
      var (li, x) := feeds[i];
      var start := if li in r.layers then r.layers[li].kv.next else 0;
      LayerStands(r.lcs, r.layers, r.hist, r.emittedB, li);
      FedNext(feeds, i);
      var ok := r.Ingest(li, x, start, saves);
      i := i + 1;
    }
    assert feeds[..|feeds|] == feeds;
  }

  /** A streamed request from its first chunk to its end files, any layers' chunks in any order: unless a save fails,
      the segments and the end file of every layer together are its one-shot pooled rows. */
  method StreamRequest<K, R(!new), L(!new), P(!new)>(cfg: Config, lcs: seq<LayerCfg<R, L, P>>,
                                                     feeds: seq<(nat, Rows<K, R>)>, saves: nat -> bool)
    returns (files: Files<K, R, P>, segments: seq<nat>, outs: map<nat, Out<K, R, P>>, failed: bool)
    requires cfg.Ok() && lcs != [] && forall i | 0 <= i < |lcs| :: lcs[i].Ok() && lcs[i].cfg == cfg
    requires feeds != [] && forall i | 0 <= i < |feeds| :: feeds[i].0 < |lcs| && feeds[i].1.Ok() && 0 < feeds[i].1.Len()
    ensures (forall b :: saves(b)) ==> !failed
    ensures !failed ==> outs.Keys == Fed(feeds).Keys
    ensures !failed ==> forall li, kind | li in outs && li < |lcs| && lcs[li].Has(kind) ::
              ShippedRows(files, segments, li, kind) + KeyRows(outs[li], PooledTail(kind))
                == PooledOfPrompt(lcs[li], Fed(feeds)[li], kind)
  {
    hide Fed, KeyRows, ShippedRows, PooledOfPrompt, LayersOk, FilesOk, AllFit, AllUnshipped, Rem;
    var r := new Request(cfg, lcs, 0);
    FeedRequest(r, feeds, saves);
    failed := r.streamError;
    if !failed {
      var T := r.Finish(saves);
      failed := r.streamError;
      if !failed {
        SameKeys(lcs, r.layers, r.hist, r.emittedB);
        forall li, kind | li in r.layers && li < |lcs| && lcs[li].Has(kind)
          ensures ShippedRows(r.files, r.segments, li, kind) + KeyRows(r.sealed.value[li], PooledTail(kind))
               == PooledOfPrompt(lcs[li], Fed(feeds)[li], kind)
        {
          r.Conserves(li, T, kind);
        }
      }
    }
    files, segments, outs := r.files, r.segments, r.sealed.value;
  }
}
