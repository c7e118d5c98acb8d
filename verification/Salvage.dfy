/** studio/pd_assemble_blocks.py: cache states restored from a capture that may have been closed mid-chunk, with its
    layers at different positions. The manifest lists boundaries up to the furthest layer; the assembler stops at the
    first boundary a layer file lacks. */
module Salvage {
  import opened Blocks
  import opened Seqs
  import opened PoolTorch
  import opened CaptureState
  import opened CaptureSpec
  import opened Layer

  /** PoolingCache.state: (buf_kv, buf_gate, pooled, prev_kv, prev_gate). */
  datatype PoolCache<R, P> = PoolCache(bufKv: Option<seq<R>>, bufGate: Option<seq<R>>, pooled: seq<P>,
                                       prevKv: Option<seq<R>>, prevGate: Option<seq<R>>)

  /** One layer's cache list: the rotating window, whose first row sits at position kvStart, then compressor and
      indexer. */
  datatype Cache<K, R, P> = Cache(kv: seq<K>, kvStart: int, offset: nat, main: Option<PoolCache<R, P>>,
                                  idx: Option<PoolCache<R, P>>)

  function KvOf<K, R, P>(v: Val<K, R, P>): seq<K> {
    if v.KvRows? then v.kv else []
  }

  function RawOf<K, R, P>(v: Val<K, R, P>): seq<R> {
    if v.KvCols? || v.GateCols? then v.raw else []
  }

  /** The compressor or indexer part of _set_layer. None is the KeyError. */
  function SetPool<K, R, P>(d: Out<K, R, P>, kind: Kind, ratio: nat, b: nat): Option<PoolCache<R, P>>
    requires 0 < ratio
  {
    if Pooled(kind) !in d then None
    else
      var pooled := PooledOf(d[Pooled(kind)]);
      var upTo := PySlice(pooled, 0, Count(b, ratio));
      if ratio != 4 then Some(PoolCache(None, None, upTo, None, None))
      else if PrevKv(kind, b) !in d || PrevGate(kind, b) !in d then None
      else Some(PoolCache(None, None, upTo, Some(RawOf(d[PrevKv(kind, b)])), Some(RawOf(d[PrevGate(kind, b)]))))
  }

  /** _set_layer: one layer's cache at boundary b out of its capture file. None is the KeyError. */
  function SetLayer<K, R(!new), L(!new), P(!new)>(lc: LayerCfg<R, L, P>, d: Out<K, R, P>,
                                                  b: nat): Option<Cache<K, R, P>> {
    if KvWin(b) !in d then None
    else
      var kv := KvOf(d[KvWin(b)]);
      if lc.ratio == 0 then Some(Cache(kv, b - lc.cfg.win, b, None, None))
      else
        var main := SetPool(d, Main, lc.ratio, b);
        if main.None? then None
        else if !lc.Has(Idx) then Some(Cache(kv, b - lc.cfg.win, b, main, None))
        else
          var idx := SetPool(d, Idx, 4, b);
          if idx.None? then None else Some(Cache(kv, b - lc.cfg.win, b, main, idx))
  }

  // ---- what a cache must be: the state a prefill of exactly those rows leaves

  /** The pooling cache after a one-shot prefill of h: pool_layer's output and its carry. */
  ghost function LivePool<R(!new), L(!new), P(!new)>(k: Kernel<R, L, P>, ratio: nat, h: seq<R>): PoolCache<R, P>
    requires 0 < ratio
  {
    var c := CarrySpec(ratio, h);
    PoolCache(c.buf, c.buf, PooledSpec(k, ratio, h), c.prev, c.prev)
  }

  ghost function LiveCache<K, R(!new), L(!new), P(!new)>(lc: LayerCfg<R, L, P>, h: Rows<K, R>): Cache<K, R, P>
    requires lc.Ok() && h.Ok()
  {
    var from := Max(0, h.Len() - lc.cfg.win);
    Cache(h.kv[from..], from, h.Len(),
          if lc.Has(Main) then Some(LivePool(lc.main, lc.ratio, h.main)) else None,
          if lc.Has(Idx) then Some(LivePool(lc.idx, 4, h.idx)) else None)
  }

  /** What the fixed sizes of the system satisfy (block 1024, window 128, ratios 4 and 128). */
  predicate Aligned<R(!new), L(!new), P(!new)>(lc: LayerCfg<R, L, P>) {
    lc.Ok() && lc.cfg.win <= lc.cfg.block && Rem(lc.cfg.block, 4) == 0
      && (lc.ratio > 0 ==> Rem(lc.cfg.block, lc.ratio) == 0)
  }

  lemma WindowIsLast<R>(h: seq<R>, q: nat)
    requires Off(q, 4) == |h| && 0 < q
    ensures Window(4, h, q - 1) == LastN(h, 4)
  {
  }

  /** At a multiple of the ratio the carry is just the last four rows. */
  lemma CarryAtBoundary<R>(ratio: nat, h: seq<R>)
    requires 0 < ratio && Rem(|h|, ratio) == 0 && h != []
    ensures CarrySpec(ratio, h).buf == None && 0 < Count(|h|, ratio)
    ensures CarrySpec(ratio, h).prev == if ratio == 4 then Some(LastN(h, 4)) else None
  {
    Split(|h|, ratio);
    OneBlock(ratio);
    if ratio == 4 {
      WindowIsLast(h, Count(|h|, 4));
    }
  }

  /** One pooling part: restored from a file whose own rows are h, at a boundary within them. */
  lemma SetPoolMeans<K, R(!new), L(!new), P(!new)>(cfg: Config, k: Kernel<R, L, P>, kind: Kind, s: Pool<R, P>,
                                                   h: seq<R>, T: nat, out: Out<K, R, P>, b: nat)
    requires PoolInv(cfg, k, s, h, 0, 0) && 0 < b <= |h| && Rem(b, cfg.block) == 0 && Rem(cfg.block, s.ratio) == 0
    requires forall key | key in out :: !OfKind(key, kind)
    ensures SetPool(PoolExport(kind, s, T, false, out), kind, s.ratio, b) == Some(LivePool(k, s.ratio, h[..b]))
  {
    hide LastN, PooledSpec, Count, Rem, CarrySpec, Flatten, PoolExport;
    MultipleOfMultiple(b, cfg.block, s.ratio);
    CarryAtBoundary(s.ratio, h[..b]);
    PooledPrefix(k, s.ratio, h[..b], h[b..]);
    assert h[..b] + h[b..] == h;
    CountMonotone(0, |h|, s.ratio);
    OneBlock(s.ratio);
    PooledNonEmpty(s.pooled);
    PoolExportAt(kind, s, T, false, out, Pooled(kind));
    PoolExportAt(kind, s, T, false, out, PrevKv(kind, b));
    PoolExportAt(kind, s, T, false, out, PrevGate(kind, b));
  }

  lemma SetPoolLocal<K, R, P>(d: Out<K, R, P>, e: Out<K, R, P>, kind: Kind, ratio: nat, b: nat)
    requires 0 < ratio && forall key | OfKind(key, kind) :: Lookup(d, key) == Lookup(e, key)
    ensures SetPool(d, kind, ratio, b) == SetPool(e, kind, ratio, b)
  {
    assert Lookup(d, Pooled(kind)) == Lookup(e, Pooled(kind));
    assert Lookup(d, PrevKv(kind, b)) == Lookup(e, PrevKv(kind, b));
    assert Lookup(d, PrevGate(kind, b)) == Lookup(e, PrevGate(kind, b));
  }

  lemma ExportLocal<K, R, P>(kind: Kind, s: Pool<R, P>, T: nat, out: Out<K, R, P>, key: Key)
    requires 0 < s.ratio && !OfKind(key, kind)
    requires forall key | key in out :: !OfKind(key, kind)
    ensures Lookup(PoolExport(kind, s, T, false, out), key) == Lookup(out, key)
  {
    hide PoolExport;
    PoolExportAt(kind, s, T, false, out, key);
  }

  lemma LastRows<T>(h: seq<T>, b: nat, w: nat)
    requires w <= b <= |h|
    ensures LastN(h[..b], w) == h[b - w..b]
  {
  }

  lemma KvWinAt<K, R, P>(cfg: Config, s: Kv<K>, h: seq<K>, b: nat)
    requires KvInv(cfg, s, h, 0, 0) && 0 < b && Rem(b, cfg.block) == 0 && cfg.win <= cfg.block
    ensures KvWin(b) in KvExport<K, R, P>(cfg, s, map[]) <==> b <= |h|
    ensures b <= |h| ==> cfg.win <= b && KvExport<K, R, P>(cfg, s, map[])[KvWin(b)] == KvRows(h[b - cfg.win..b])
    ensures forall key | key in KvExport<K, R, P>(cfg, s, map[]) :: !OfKind(key, Main) && !OfKind(key, Idx)
  {
    hide LastN, Rem, KvExport, KvInv;
    var d: Out<K, R, P> := KvExport(cfg, s, map[]);
    KvExportMeans<K, R, P>(cfg, s, h, 0, 0, KvWin(b));
    assert Lookup(d, KvWin(b)) == if b <= |h| then Some(KvRows(LastN(h[..b], cfg.win))) else None;
    BlockFloor(b, cfg.block);
    if b <= |h| {
      LastRows(h, b, cfg.win);
    }
    forall key | key in d
      ensures !OfKind(key, Main) && !OfKind(key, Idx)
    {
      if OfKind(key, Main) || OfKind(key, Idx) {
        KvKeysOnly<K, R, P>(cfg, s, key);
      }
    }
  }

  /** Exporting the compressor adds no indexer key. */
  lemma OnlyOld<K, R, P>(kind: Kind, s: Pool<R, P>, T: nat, out: Out<K, R, P>)
    requires 0 < s.ratio && kind == Main
    requires forall key | key in out :: !OfKind(key, Main) && !OfKind(key, Idx)
    ensures forall key | key in PoolExport(kind, s, T, false, out) :: !OfKind(key, Idx)
  {
    hide PoolExport;
    forall key | key in PoolExport(kind, s, T, false, out)
      ensures !OfKind(key, Idx)
    {
      if OfKind(key, Idx) {
        ExportLocal(kind, s, T, out, key);
      }
    }
  }

  lemma MainUntouched<K, R, P>(s: Pool<R, P>, T: nat, m: Out<K, R, P>, ratio: nat, b: nat)
    requires 0 < s.ratio && 0 < ratio && forall key | key in m :: !OfKind(key, Idx)
    ensures SetPool(PoolExport(Idx, s, T, false, m), Main, ratio, b) == SetPool(m, Main, ratio, b)
  {
    hide PoolExport, SetPool;
    var d := PoolExport(Idx, s, T, false, m);
    forall key | OfKind(key, Main)
      ensures Lookup(d, key) == Lookup(m, key)
    {
      ExportLocal(Idx, s, T, m, key);
    }
    SetPoolLocal(d, m, Main, ratio, b);
  }

  /** One layer, whatever end position T the file was closed with: boundary b can be restored exactly when the layer
      itself has reached it, and the restored cache is the one a prefill of the first b rows would have left. */
  lemma SetLayerMeans<K, R(!new), L(!new), P(!new)>(lc: LayerCfg<R, L, P>, s: State<K, R, P>, h: Rows<K, R>, T: nat,
                                                    b: nat)
    requires Inv(lc, s, h, 0, 0, 0) && Aligned(lc) && 0 < b && Rem(b, lc.cfg.block) == 0
    ensures (s.main.Some? ==> 0 < s.main.value.ratio) && (s.idx.Some? ==> 0 < s.idx.value.ratio)
    ensures SetLayer(lc, Export(lc.cfg, s, T, false), b) == if b <= h.Len() then Some(LiveCache(lc, h.Take(b)))
            else None
  {
    hide KvInv, PoolInv, LivePool, SetPool, KvExport, PoolExport, Rem;
    PoolInvRatio(lc, s, h, 0, 0, 0);
    KvWinAt<K, R, P>(lc.cfg, s.kv, h.kv, b);
    var a: Out<K, R, P> := KvExport(lc.cfg, s.kv, map[]);
    if s.main.Some? {
      var m := PoolExport(Main, s.main.value, T, false, a);
      ExportLocal(Main, s.main.value, T, a, KvWin(b));
      if b <= h.Len() {
        SetPoolMeans(lc.cfg, lc.main, Main, s.main.value, h.main, T, a, b);
      }
      if s.idx.Some? {
        OnlyOld(Main, s.main.value, T, a);
        ExportLocal(Idx, s.idx.value, T, m, KvWin(b));
        if b <= h.Len() {
          SetPoolMeans(lc.cfg, lc.idx, Idx, s.idx.value, h.idx, T, m, b);
          MainUntouched(s.idx.value, T, m, lc.ratio, b);
        }
      }
    }
  }

  // ---- the loop

  /** `[b for b in man["boundaries"] if 0 < b <= T]` */
  function UpTo(bs: seq<nat>, T: nat): seq<nat> {
    if bs == [] then [] else (if 0 < bs[0] <= T then [bs[0]] else []) + UpTo(bs[1..], T)
  }

  ghost predicate Restored<K, R(!new), L(!new), P(!new)>(lcs: seq<LayerCfg<R, L, P>>, files: seq<Out<K, R, P>>, b: nat,
                                                         caches: seq<Cache<K, R, P>>)
    requires |files| == |lcs|
  {
    |caches| == |lcs| && forall i | 0 <= i < |lcs| :: SetLayer(lcs[i], files[i], b) == Some(caches[i])
  }

  ghost predicate Missing<K, R(!new), L(!new), P(!new)>(lcs: seq<LayerCfg<R, L, P>>, files: seq<Out<K, R, P>>, b: nat)
    requires |files| == |lcs|
  {
    exists i :: 0 <= i < |lcs| && SetLayer(lcs[i], files[i], b) == None
  }

  /** Every stored boundary was restored whole, and the first that was not stored lacked a key or failed to store. */
  ghost predicate StoppedRight<K, R(!new), L(!new), P(!new)>(lcs: seq<LayerCfg<R, L, P>>, files: seq<Out<K, R, P>>,
                                                             bounds: seq<nat>, stores: nat -> bool,
                                                             written: seq<(nat, seq<Cache<K, R, P>>)>)
    requires |files| == |lcs|
  {
    && |written| <= |bounds|
    && (forall j | 0 <= j < |written| ::
        written[j].0 == bounds[j] && stores(bounds[j]) && Restored(lcs, files, bounds[j], written[j].1))
    && (|written| < |bounds| ==> Missing(lcs, files, bounds[|written|]) || !stores(bounds[|written|]))
  }

  /** All layers of one boundary; None at the first missing key. */
  method SetLayers<K, R(!new), L(!new), P(!new)>(lcs: seq<LayerCfg<R, L, P>>, files: seq<Out<K, R, P>>, b: nat)
    returns (res: Option<seq<Cache<K, R, P>>>)
    requires |files| == |lcs|
    ensures res.Some? ==> Restored(lcs, files, b, res.value)
    ensures res.None? ==> Missing(lcs, files, b)
  {
    hide SetLayer;
    var caches: seq<Cache<K, R, P>> := [];
    for i := 0 to |lcs|
      invariant |caches| == i && forall j | 0 <= j < i :: SetLayer(lcs[j], files[j], b) == Some(caches[j])
    {
      var c := SetLayer(lcs[i], files[i], b);
      if c.None? {
        return None;
      }
      caches := caches + [c.value];
    }
    return Some(caches);
  }

  /** assemble_and_write: the boundaries stored, with their cache states, and B, the last of them. */
  method Assemble<K, R(!new), L(!new), P(!new)>(lcs: seq<LayerCfg<R, L, P>>, files: seq<Out<K, R, P>>,
                                                manifest: seq<nat>, T: nat, stores: nat -> bool)
    returns (written: seq<(nat, seq<Cache<K, R, P>>)>, B: nat)
    requires |files| == |lcs|
    ensures StoppedRight(lcs, files, UpTo(manifest, T), stores, written)
    ensures B == if written == [] then 0 else written[|written| - 1].0
  {
    hide Restored, Missing;
    var bounds := UpTo(manifest, T);
    written := [];
    var ok := 0;
    while ok < |bounds|
      invariant 0 <= ok <= |bounds| && |written| == ok
      invariant forall j | 0 <= j < ok ::
                  written[j].0 == bounds[j] && stores(bounds[j]) && Restored(lcs, files, bounds[j], written[j].1)
    {
      var b := bounds[ok];
      var caches := SetLayers(lcs, files, b);
      if caches.None? {
        break;
      }
      if !stores(b) {
        break;
      }
      written := written + [(b, caches.value)];
      ok := ok + 1;
    }
    B := if ok > 0 then bounds[ok - 1] else 0;
  }

  lemma {:induction false} UpToRange(first: nat, hi: nat, T: nat, block: nat)
    requires 0 < first && 0 < block
    ensures UpTo(Range(first, hi, block), T) == Range(first, Min(hi, T), block)
    decreases hi + 1 - first
  {
    if first <= hi {
      UpToRange(first + block, hi, T, block);
    }
  }

  /** The boundaries up to lo come first, the next one is past lo. */
  lemma {:induction false} RangePrefix(first: nat, lo: nat, hi: nat, block: nat)
    requires 0 < block && lo <= hi
    ensures var a, c := Range(first, lo, block), Range(first, hi, block);
            |a| <= |c| && a == c[..|a|] && (|a| < |c| ==> lo < c[|a|] <= hi)
    decreases hi + 1 - first
  {
    if first <= lo {
      RangePrefix(first + block, lo, hi, block);
    }
  }

  /** A capture closed with layer i at position at[i] of the prompt, each layer fed gap-free from 0. */
  ghost predicate ClosedAt<K, R(!new), L(!new), P(!new)>(lcs: seq<LayerCfg<R, L, P>>, states: seq<State<K, R, P>>,
                                                         prompt: seq<Rows<K, R>>, at: seq<nat>) {
    && |states| == |lcs| == |prompt| == |at|
    && forall i | 0 <= i < |lcs| ::
         Aligned(lcs[i]) && lcs[i].cfg == lcs[0].cfg && prompt[i].Ok() && at[i] <= prompt[i].Len()
           && Inv(lcs[i], states[i], prompt[i].Take(at[i]), 0, 0, 0)
  }

  /** The layer files of that capture, all exported with the same end position. */
  ghost predicate FilesOf<K, R(!new), L(!new), P(!new)>(lcs: seq<LayerCfg<R, L, P>>, states: seq<State<K, R, P>>,
                                                        end: nat, files: seq<Out<K, R, P>>) {
    && |files| == |states| == |lcs|
    && forall i | 0 <= i < |lcs| ::
         (states[i].main.Some? ==> 0 < states[i].main.value.ratio)
           && (states[i].idx.Some? ==> 0 < states[i].idx.value.ratio)
         && files[i] == Export(lcs[i].cfg, states[i], end, false)
  }

  ghost predicate IsMin(at: seq<nat>, least: nat) {
    least in at && forall i | 0 <= i < |at| :: least <= at[i]
  }

  ghost predicate LiveAt<K, R(!new), L(!new), P(!new)>(lcs: seq<LayerCfg<R, L, P>>, prompt: seq<Rows<K, R>>, b: nat,
                                                       caches: seq<Cache<K, R, P>>) {
    && |caches| == |lcs| == |prompt|
    && forall i | 0 <= i < |lcs| ::
        lcs[i].Ok() && prompt[i].Ok() && b <= prompt[i].Len() && caches[i] == LiveCache(lcs[i], prompt[i].Take(b))
  }

  /** Every layer's file restores boundary b exactly when the layer has reached it, and then to its live state. */
  ghost predicate EachRestores<K, R(!new), L(!new), P(!new)>(lcs: seq<LayerCfg<R, L, P>>, files: seq<Out<K, R, P>>,
                                                             prompt: seq<Rows<K, R>>, at: seq<nat>, b: nat) {
    && |files| == |lcs| == |prompt| == |at|
    && forall i | 0 <= i < |lcs| ::
         lcs[i].Ok() && prompt[i].Ok() && at[i] <= prompt[i].Len()
         && SetLayer(lcs[i], files[i], b) == if b <= at[i] then Some(LiveCache(lcs[i], prompt[i].Take(b))) else None
  }

  /** One boundary: it misses a key exactly when the slowest layer has not reached it, and is live otherwise. */
  lemma BoundaryRestores<K, R(!new), L(!new), P(!new)>(lcs: seq<LayerCfg<R, L, P>>, files: seq<Out<K, R, P>>,
                                                       prompt: seq<Rows<K, R>>, at: seq<nat>, least: nat, b: nat)
    requires EachRestores(lcs, files, prompt, at, b) && IsMin(at, least)
    ensures Missing(lcs, files, b) <==> least < b
    ensures forall caches :: Restored(lcs, files, b, caches) ==> b <= least && LiveAt(lcs, prompt, b, caches)
  {
    hide SetLayer, LiveCache;
    var slow :| 0 <= slow < |at| && at[slow] == least;
    assert least < b ==> SetLayer(lcs[slow], files[slow], b) == None;
  }

  lemma LayerRestores<K, R(!new), L(!new), P(!new)>(lc: LayerCfg<R, L, P>, s: State<K, R, P>, prompt: Rows<K, R>,
                                                    at: nat, end: nat, b: nat)
    requires Aligned(lc) && prompt.Ok() && at <= prompt.Len() && Inv(lc, s, prompt.Take(at), 0, 0, 0) && 0 < b
             && Rem(b, lc.cfg.block) == 0
    ensures (s.main.Some? ==> 0 < s.main.value.ratio) && (s.idx.Some? ==> 0 < s.idx.value.ratio)
    ensures lc.Ok() && SetLayer(lc, Export(lc.cfg, s, end, false), b) == if b <= at
            then Some(LiveCache(lc, prompt.Take(b))) else None
  {
    hide Inv, SetLayer, Export, LiveCache, Rem;
    SetLayerMeans(lc, s, prompt.Take(at), end, b);
    if b <= at {
      assert prompt.Take(at).kv[..b] == prompt.kv[..b];
      assert prompt.Take(at).main[..b] == prompt.main[..b];
      assert prompt.Take(at).idx[..b] == prompt.idx[..b];
    }
  }

  lemma AllRestore<K, R(!new), L(!new), P(!new)>(lcs: seq<LayerCfg<R, L, P>>, states: seq<State<K, R, P>>,
                                                 prompt: seq<Rows<K, R>>, at: seq<nat>, end: nat,
                                                 files: seq<Out<K, R, P>>, b: nat)
    requires ClosedAt(lcs, states, prompt, at) && FilesOf(lcs, states, end, files)
    ensures lcs != [] && 0 < b && lcs[0].cfg.Ok() && Rem(b, lcs[0].cfg.block) == 0 ==>
              EachRestores(lcs, files, prompt, at, b)
  {
    hide Inv, SetLayer, Export, LiveCache, Aligned, Rem;
    if lcs != [] && 0 < b && lcs[0].cfg.Ok() && Rem(b, lcs[0].cfg.block) == 0 {
      forall i | 0 <= i < |lcs|
        ensures lcs[i].Ok()
        ensures SetLayer(lcs[i], files[i], b) == if b <= at[i] then Some(LiveCache(lcs[i], prompt[i].Take(b))) else None
      {
        LayerRestores(lcs[i], states[i], prompt[i], at[i], end, b);
      }
    }
  }

  /** The boundaries every layer has passed are the first ones of the manifest's, and the next is past the slowest
      layer. */
  lemma ExactIsPrefix(end: nat, least: nat, T: nat, block: nat)
    requires 0 < block && least <= end
    ensures var bounds, exact := UpTo(Boundaries(0, end, block), T), Boundaries(0, Min(least, T), block);
            && |exact| <= |bounds| && exact == bounds[..|exact|]
            && (forall j | 0 <= j < |bounds| :: 0 < bounds[j] && Rem(bounds[j], block) == 0)
            && (forall j | 0 <= j < |exact| :: exact[j] <= least)
            && (|exact| < |bounds| ==> least < bounds[|exact|])
  {
    hide Rem, Off, Range;
    var first := Off(Count(0, block) + 1, block);
    OneBlock(block);
    UpToRange(first, end, T, block);
    var bounds, exact := Boundaries(0, Min(end, T), block), Boundaries(0, Min(least, T), block);
    RangePrefix(first, Min(least, T), Min(end, T), block);
    BoundariesSpec(0, Min(end, T), block);
    BoundariesSpec(0, Min(least, T), block);
    forall j | 0 <= j < |bounds|
      ensures bounds[j] in BSet(0, Min(end, T), block)
    {
      assert bounds[j] in bounds;
    }
    forall j | 0 <= j < |exact|
      ensures exact[j] in BSet(0, Min(least, T), block)
    {
      assert exact[j] in exact;
    }
  }

  lemma SameLength<K, R(!new), L(!new), P(!new)>(lcs: seq<LayerCfg<R, L, P>>, states: seq<State<K, R, P>>,
                                                 prompt: seq<Rows<K, R>>, at: seq<nat>, end: nat,
                                                 files: seq<Out<K, R, P>>, least: nat)
    requires ClosedAt(lcs, states, prompt, at) && FilesOf(lcs, states, end, files) && IsMin(at, least)
    ensures |files| == |lcs| > 0
  {
  }

  /** Salvage is exact: a capture closed with its layers anywhere, exported at the furthest position, yields exactly the
      boundaries that every layer has passed and the request covers, each with every layer's live state. */
  lemma SalvageIsExact<K, R(!new), L(!new), P(!new)>(lcs: seq<LayerCfg<R, L, P>>, states: seq<State<K, R, P>>,
                                                     prompt: seq<Rows<K, R>>, at: seq<nat>, end: nat,
                                                     files: seq<Out<K, R, P>>, least: nat, T: nat, stores: nat -> bool,
                                                     written: seq<(nat, seq<Cache<K, R, P>>)>)
    requires ClosedAt(lcs, states, prompt, at) && FilesOf(lcs, states, end, files) && IsMin(at, least)
    requires least <= end && forall b :: stores(b)
    requires lcs[0].cfg.Ok() && StoppedRight(lcs, files, UpTo(Boundaries(0, end, lcs[0].cfg.block), T), stores, written)
    ensures var exact := Boundaries(0, Min(least, T), lcs[0].cfg.block);
            |written| == |exact| && forall j | 0 <= j < |written| ::
                written[j].0 == exact[j] && LiveAt(lcs, prompt, exact[j], written[j].1)
  {
    hide ClosedAt, FilesOf, IsMin, Restored, Missing, LiveAt, EachRestores, Rem, Boundaries, UpTo, Min;
    SameLength(lcs, states, prompt, at, end, files, least);
    var block := lcs[0].cfg.block;
    var bounds := UpTo(Boundaries(0, end, block), T);
    ExactIsPrefix(end, least, T, block);
    forall j | 0 <= j < |bounds|
      ensures Missing(lcs, files, bounds[j]) <==> least < bounds[j]
      ensures forall caches :: Restored(lcs, files, bounds[j], caches) ==>
                bounds[j] <= least && LiveAt(lcs, prompt, bounds[j], caches)
    {
      AllRestore(lcs, states, prompt, at, end, files, bounds[j]);
      BoundaryRestores(lcs, files, prompt, at, least, bounds[j]);
    }
  }
}
