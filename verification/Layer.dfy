/** One decoder layer of a capture: the kv accumulator, the compressor (ratio > 0) and the indexer (ratio 4), as
    `ingest` feeds them and `_finish` exports them. */
module Layer {
  import opened Blocks
  import opened Seqs
  import opened PoolTorch
  import opened CaptureState
  import opened CaptureSpec

  datatype LayerCfg<!R(!new), !L(!new), !P(!new)> = LayerCfg(cfg: Config, ratio: nat, main: Kernel<R, L, P>,
                                                             idx: Kernel<R, L, P>) {
    predicate Ok() { cfg.Ok() && (ratio > 0 ==> cfg.Supports(ratio)) }
    predicate Has(kind: Kind) { if kind == Main then ratio > 0 else ratio == 4 }
  }

  /** The projected rows of the same tokens: pre-rope kv, compressor kv_score, indexer kv_score. */
  datatype Rows<K, R> = Rows(kv: seq<K>, main: seq<R>, idx: seq<R>) {
    predicate Ok() { |kv| == |main| == |idx| }
    function Len(): nat { |kv| }
    function Take(n: nat): Rows<K, R>
      requires Ok() && n <= Len()
    {
      Rows(kv[..n], main[..n], idx[..n])
    }
    function Plus(x: Rows<K, R>): Rows<K, R> { Rows(kv + x.kv, main + x.main, idx + x.idx) }
  }

  datatype State<K, R, P> = State(kv: Kv<K>, main: Option<Pool<R, P>>, idx: Option<Pool<R, P>>)

  function NewState<K, R(!new), L(!new), P(!new)>(lc: LayerCfg<R, L, P>): State<K, R, P> {
    State(KvNew(),
          if lc.Has(Main) then Some(PoolNew(lc.ratio)) else None,
          if lc.Has(Idx) then Some(PoolNew(4)) else None)
  }

  /** Where each part of a layer stands relative to the prompt h. */
  ghost predicate Inv<K, R(!new), L(!new), P(!new)>(lc: LayerCfg<R, L, P>, s: State<K, R, P>, h: Rows<K, R>, lo: nat,
                                                    base: nat, poolBase: nat) {
    && lc.Ok() && h.Ok()
    && KvInv(lc.cfg, s.kv, h.kv, lo, base)
    && s.main.Some? == lc.Has(Main) && s.idx.Some? == lc.Has(Idx)
    && (s.main.Some? ==> s.main.value.ratio == lc.ratio && PoolInv(lc.cfg, lc.main, s.main.value, h.main, lo, poolBase))
    && (s.idx.Some? ==> s.idx.value.ratio == 4 && PoolInv(lc.cfg, lc.idx, s.idx.value, h.idx, lo, poolBase))
  }

  predicate CarriesFit<K, R, P>(s: State<K, R, P>) {
    (s.main.Some? ==> CarryFits(s.main.value.carry, s.main.value.ratio))
    && (s.idx.Some? ==> CarryFits(s.idx.value.carry, s.idx.value.ratio))
  }

  /** ingest for one layer-chunk: kv first, then the compressor, then the indexer; an exception skips what follows. */
  function Ingest<K, R(!new), L(!new), P(!new)>(lc: LayerCfg<R, L, P>, s: State<K, R, P>, x: Rows<K, R>, start: nat)
    : (res: (State<K, R, P>, bool))
    requires lc.Ok() && CarriesFit(s)
    ensures CarriesFit(res.0)
  {
    var s1 := s.(kv := KvFeed(lc.cfg, s.kv, x.kv, start));
    if s1.main.None? then (s1, true)
    else
      var m := PoolFeed(lc.cfg, lc.main, s1.main.value, x.main, start);
      var s2 := s1.(main := Some(m.0));
      if !m.1 || s2.idx.None? then (s2, m.1)
      else
        var i := PoolFeed(lc.cfg, lc.idx, s2.idx.value, x.idx, start);
        (s2.(idx := Some(i.0)), i.1)
  }

  /** The layer file `_finish` writes for end position T. */
  function Export<K, R, P>(cfg: Config, s: State<K, R, P>, T: nat, tailKey: bool): Out<K, R, P>
    requires (s.main.Some? ==> 0 < s.main.value.ratio) && (s.idx.Some? ==> 0 < s.idx.value.ratio)
  {
    var a := KvExport(cfg, s.kv, map[]);
    var b := if s.main.Some? then PoolExport(Main, s.main.value, T, tailKey, a) else a;
    if s.idx.Some? then PoolExport(Idx, s.idx.value, T, tailKey, b) else b
  }

  /** The layer file of a capture of h that began at lo, key by key. */
  ghost function LayerAt<K, R(!new), L(!new), P(!new)>(lc: LayerCfg<R, L, P>, h: Rows<K, R>, lo: nat, tailKey: bool,
                                                       key: Key)
    : Option<Val<K, R, P>>
    requires lc.Ok()
  {
    if OfKind(key, Main) then
      if lc.Has(Main) then PoolAt(lc.cfg, lc.main, Main, lc.ratio, h.main, lo, tailKey, key) else None
    else if OfKind(key, Idx) then
      if lc.Has(Idx) then PoolAt(lc.cfg, lc.idx, Idx, 4, h.idx, lo, tailKey, key) else None
    else
      KvAt(lc.cfg, h.kv, lo, key)
  }

  lemma NewInv<K, R(!new), L(!new), P(!new)>(lc: LayerCfg<R, L, P>)
    requires lc.Ok()
    ensures Inv(lc, NewState<K, R, L, P>(lc), Rows([], [], []), 0, 0, 0)
  {
    hide KvInv, PoolInv;
    KvNewInv<K>(lc.cfg);
    if lc.Has(Main) {
      PoolNewInv(lc.cfg, lc.main, lc.ratio);
    }
    if lc.Has(Idx) {
      PoolNewInv(lc.cfg, lc.idx, 4);
    }
  }

  lemma InvCarriesFit<K, R(!new), L(!new), P(!new)>(lc: LayerCfg<R, L, P>, s: State<K, R, P>, h: Rows<K, R>, lo: nat,
                                                    base: nat, poolBase: nat)
    requires Inv(lc, s, h, lo, base, poolBase)
    ensures lc.Ok() && CarriesFit(s)
  {
  }

  /** A gap-free chunk never raises and keeps every part's meaning. */
  lemma IngestKeeps<K, R(!new), L(!new), P(!new)>(lc: LayerCfg<R, L, P>, s: State<K, R, P>, h: Rows<K, R>,
                                                  x: Rows<K, R>, lo: nat, base: nat, poolBase: nat)
    requires Inv(lc, s, h, lo, base, poolBase) && x.Ok() && 0 < x.Len()
    ensures CarriesFit(s)
    ensures var (next, ok) := Ingest(lc, s, x, h.Len()); ok && Inv(lc, next, h.Plus(x), lo, base, poolBase)
  {
    hide KvInv, PoolInv, KvFeed, PoolFeed;
    InvCarriesFit(lc, s, h, lo, base, poolBase);
    KvFeedKeeps(lc.cfg, s.kv, h.kv, x.kv, lo, base);
    if s.main.Some? {
      PoolFeedKeeps(lc.cfg, lc.main, s.main.value, h.main, x.main, lo, poolBase);
    }
    if s.idx.Some? {
      PoolFeedKeeps(lc.cfg, lc.idx, s.idx.value, h.idx, x.idx, lo, poolBase);
    }
  }

  lemma PoolInvRatio<K, R(!new), L(!new), P(!new)>(lc: LayerCfg<R, L, P>, s: State<K, R, P>, h: Rows<K, R>, lo: nat,
                                                   base: nat, poolBase: nat)
    requires Inv(lc, s, h, lo, base, poolBase)
    ensures (s.main.Some? ==> 0 < s.main.value.ratio) && (s.idx.Some? ==> s.main.Some? && 0 < s.idx.value.ratio)
  {
  }

  lemma KvAtKind<K, R, P>(cfg: Config, h: seq<K>, lo: nat, key: Key)
    requires cfg.Ok()
    ensures OfKind(key, Main) || OfKind(key, Idx) ==> KvAt<K, R, P>(cfg, h, lo, key) == None
  {
  }

  /** What is exported is what the rows mean, key for key. */
  lemma ExportMeans<K, R(!new), L(!new), P(!new)>(lc: LayerCfg<R, L, P>, s: State<K, R, P>, h: Rows<K, R>, lo: nat,
                                                  base: nat, poolBase: nat, tailKey: bool, key: Key)
    requires Inv(lc, s, h, lo, base, poolBase) && Reaches(base, h.Len(), lc.cfg.win)
    ensures Lookup(Export(lc.cfg, s, h.Len(), tailKey), key) == LayerAt(lc, h, lo, tailKey, key)
  {
    hide KvInv, PoolInv, KvExport, PoolExport, PoolAt, KvAt;
    PoolInvRatio(lc, s, h, lo, base, poolBase);
    KvExportMeans<K, R, P>(lc.cfg, s.kv, h.kv, lo, base, key);
    var a: Out<K, R, P> := KvExport(lc.cfg, s.kv, map[]);
    KvAtKind<K, R, P>(lc.cfg, h.kv, lo, key);
    if s.main.Some? {
      PoolExportMeans(lc.cfg, lc.main, Main, s.main.value, h.main, lo, poolBase, tailKey, a, key);
      var b := PoolExport(Main, s.main.value, h.Len(), tailKey, a);
      if s.idx.Some? {
        PoolExportMeans(lc.cfg, lc.idx, Idx, s.idx.value, h.idx, lo, poolBase, tailKey, b, key);
      }
    }
  }

  // ---- whole runs

  /** The chunks of one request, fed in order from position start. */
  ghost function FeedAll<K, R(!new), L(!new), P(!new)>(lc: LayerCfg<R, L, P>, s: State<K, R, P>, xs: seq<Rows<K, R>>,
                                                       start: nat)
    : (res: (State<K, R, P>, bool))
    requires lc.Ok() && CarriesFit(s)
    ensures CarriesFit(res.0)
    decreases |xs|
  {
    if xs == [] then (s, true)
    else
      var (next, ok) := Ingest(lc, s, xs[0], start);
      if ok then FeedAll(lc, next, xs[1..], start + xs[0].Len()) else (next, false)
  }

  ghost predicate Chunks<K, R>(xs: seq<Rows<K, R>>) {
    forall i | 0 <= i < |xs| :: xs[i].Ok() && 0 < xs[i].Len()
  }

  ghost function Concat<K, R>(h: Rows<K, R>, xs: seq<Rows<K, R>>): Rows<K, R>
    decreases |xs|
  {
    if xs == [] then h else Concat(h.Plus(xs[0]), xs[1..])
  }

  lemma {:induction false} FeedAllKeeps<K, R(!new), L(!new), P(!new)>(lc: LayerCfg<R, L, P>, s: State<K, R, P>,
                                                                      h: Rows<K, R>, xs: seq<Rows<K, R>>, lo: nat,
                                                                      base: nat, poolBase: nat)
    requires Inv(lc, s, h, lo, base, poolBase) && Chunks(xs)
    ensures CarriesFit(s)
    ensures var (next, ok) := FeedAll(lc, s, xs, h.Len()); ok && Inv(lc, next, Concat(h, xs), lo, base, poolBase)
    decreases |xs|
  {
    hide Inv, Ingest;
    InvCarriesFit(lc, s, h, lo, base, poolBase);
    if xs != [] {
      IngestKeeps(lc, s, h, xs[0], lo, base, poolBase);
      FeedAllKeeps(lc, Ingest(lc, s, xs[0], h.Len()).0, h.Plus(xs[0]), xs[1..], lo, base, poolBase);
    }
  }

  /** Chunk independence of a capture: for every chunking the layer file is the one the whole prompt means. */
  lemma CaptureIsChunkIndependent<K, R(!new), L(!new), P(!new)>(lc: LayerCfg<R, L, P>, xs: seq<Rows<K, R>>, key: Key)
    requires lc.Ok() && Chunks(xs)
    ensures CarriesFit(NewState<K, R, L, P>(lc))
    ensures var (s, ok) := FeedAll(lc, NewState<K, R, L, P>(lc), xs, 0);
            var h := Concat(Rows([], [], []), xs);
            && ok && (s.main.Some? ==> 0 < s.main.value.ratio) && (s.idx.Some? ==> 0 < s.idx.value.ratio)
            && Lookup(Export(lc.cfg, s, h.Len(), false), key) == LayerAt(lc, h, 0, false, key)
  {
    hide Inv, FeedAll;
    NewInv<K, R, L, P>(lc);
    FeedAllKeeps(lc, NewState<K, R, L, P>(lc), Rows([], [], []), xs, 0, 0, 0);
    var s := FeedAll(lc, NewState<K, R, L, P>(lc), xs, 0).0;
    PoolInvRatio(lc, s, Concat(Rows([], [], []), xs), 0, 0, 0);
    ExportMeans(lc, s, Concat(Rows([], [], []), xs), 0, 0, 0, false, key);
  }
}
