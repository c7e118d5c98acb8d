/** What a capture means: every exported key as a function of the rows of the prompt. `lo` is where this capture's own
    output begins: 0 for a fresh one, S for one resumed at S, the last shipped boundary for a streaming one. `base` is
    the first row a resumed capture still has raw. */
module CaptureSpec {
  import opened Blocks
  import opened Seqs
  import opened PoolTorch
  import opened CaptureState

  /** The `need` rows before lo are held raw, or all there are. */
  predicate Reaches(base: nat, lo: nat, need: nat) {
    base == 0 || base + need <= lo
  }

  ghost predicate KvInv<K>(cfg: Config, s: Kv<K>, h: seq<K>, lo: nat, base: nat) {
    && cfg.Ok() && base <= lo <= |h| && Reaches(base, lo, cfg.win - 1)
    && s.next == |h| && s.gaps == [] && (s.tail.None? <==> h == [])
    && s.tail.GetOr([]) == LastN(h[base..], cfg.KvTail())
    && (forall b: nat :: b in s.snaps <==> lo < b <= |h| && Rem(b, cfg.block) == 0)
    && (forall b: nat :: b in s.snaps ==> s.snaps[b] == LastN(h[..b], cfg.win))
  }

  /** The raw side of _PoolState: position, rolling tail, boundary windows. */
  ghost predicate RawInv<R, P>(cfg: Config, s: Pool<R, P>, h: seq<R>, lo: nat, base: nat)
    requires cfg.Ok()
  {
    && base <= lo <= |h| && Reaches(base, lo, CarryNeed(s.ratio))
    && s.next == |h| && s.gaps == [] && (s.tail.None? <==> h == [])
    && s.tail.GetOr([]) == LastN(h[base..], cfg.PoolTail())
    && (forall b: nat :: b in s.prev <==> s.ratio == 4 && lo < b <= |h| && Rem(b, cfg.block) == 0)
    && (forall b: nat :: b in s.prev ==> b <= |h| && s.prev[b] == LastN(h[..b], 4))
  }

  /** The pooled side: the carry is the one of the whole prompt, the pieces are its pooled rows from lo on. */
  ghost predicate PooledInv<R(!new), L(!new), P(!new)>(k: Kernel<R, L, P>, s: Pool<R, P>, h: seq<R>, lo: nat)
    requires 0 < s.ratio
  {
    var from := Count(lo, s.ratio);
    && CarryIn(s.carry) == CarrySpec(s.ratio, h)
    && from <= Count(|h|, s.ratio)
    && Flatten(s.pooled) == PooledSpec(k, s.ratio, h)[from..] && NoneEmpty(s.pooled)
  }

  ghost predicate PoolInv<R(!new), L(!new), P(!new)>(cfg: Config, k: Kernel<R, L, P>, s: Pool<R, P>, h: seq<R>,
                                                     lo: nat, base: nat) {
    cfg.Supports(s.ratio) && RawInv(cfg, s, h, lo, base) && PooledInv(k, s, h, lo)
  }

  lemma KvNewInv<K>(cfg: Config)
    requires cfg.Ok()
    ensures KvInv<K>(cfg, KvNew(), [], 0, 0)
  {
  }

  lemma LastNOfNothing<T>(n: nat)
    ensures LastN<T>([], n) == []
  {
  }

  lemma PoolNewInv<R(!new), L(!new), P(!new)>(cfg: Config, k: Kernel<R, L, P>, ratio: nat)
    requires cfg.Supports(ratio)
    ensures PoolInv(cfg, k, PoolNew(ratio), [], 0, 0)
  {
    hide Count, Rem, Off, PooledSpec, CarrySpec, LastN;
    OneBlock(ratio);
    Nothing(k, ratio);
    var none: seq<R> := [];
    assert LastN(none, cfg.PoolTail()) == [] by { LastNOfNothing<R>(cfg.PoolTail()); }
  }

  // ---- feeding keeps the invariants, whatever the chunk lengths

  lemma SuffixLastN<T>(c: seq<T>, o: nat, w: nat)
    requires o <= |c| && (o == 0 || w <= |c| - o)
    ensures LastN(c[o..], w) == LastN(c, w)
  {
  }

  /** A window that ends inside the chunk reads the same rows from the rolling tail as from the whole prompt. */
  lemma TailWindow<T>(h: seq<T>, x: seq<T>, base: nat, n: nat, d: nat, w: nat)
    requires base <= |h| && 0 < d <= |x| && w <= n && (base == 0 || |h| - base + d >= w)
    ensures var held := LastN(h[base..], n);
            Cut(held + x, |held| + d, w) == LastN((h + x)[..|h| + d], w)
    ensures |LastN(h[base..], n)| + d >= w <==> |h| - base + d >= w
  {
    var held := LastN(h[base..], n);
    var a, c := held + x[..d], h + x[..d];
    assert (held + x)[..|held| + d] == a;
    assert (h + x)[..|h| + d] == c;
    var o := |h| - |held|;
    assert a == c[o..];
    SuffixLastN(c, o, w);
  }

  lemma RollTail<T>(h: seq<T>, x: seq<T>, base: nat, n: nat)
    requires base <= |h|
    ensures LastN(LastN(h[base..], n) + x, n) == LastN((h + x)[base..], n)
  {
    LastNAppend(h[base..], x, n);
    assert h[base..] + x == (h + x)[base..];
  }

  lemma BlockFloor(b: nat, block: nat)
    requires 0 < block && 0 < b && Rem(b, block) == 0
    ensures block <= b
  {
  }

  /** The windows a chunk adds: exactly its boundaries, each with the w rows of the prompt before it. */
  lemma ChunkCuts<T>(cfg: Config, h: seq<T>, x: seq<T>, lo: nat, base: nat, n: nat, w: nat, whole: bool,
                     into: map<nat, seq<T>>)
    requires cfg.Ok() && base <= lo <= |h| && w <= n && (base == 0 || |h| - base + 1 >= w) && (whole ==> w <= cfg.block)
    requires forall b: nat :: b in into <==> lo < b <= |h| && Rem(b, cfg.block) == 0
    requires forall b: nat :: b in into ==> into[b] == LastN(h[..b], w)
    ensures var held := LastN(h[base..], n);
            var m := Cuts(held + x, |held|, |h|, Boundaries(|h|, |h| + |x|, cfg.block), w, whole, into);
            && (forall b: nat :: b in m <==> lo < b <= |h + x| && Rem(b, cfg.block) == 0)
            && (forall b: nat :: b in m ==> m[b] == LastN((h + x)[..b], w))
  {
    hide LastN, Cut, Cuts, Boundaries, Rem;
    var held := LastN(h[base..], n);
    var bs := Boundaries(|h|, |h| + |x|, cfg.block);
    BoundariesSpec(|h|, |h| + |x|, cfg.block);
    var m := Cuts(held + x, |held|, |h|, bs, w, whole, into);
    forall b: nat
      ensures b in m <==> lo < b <= |h + x| && Rem(b, cfg.block) == 0
      ensures b in m ==> m[b] == LastN((h + x)[..b], w)
    {
      CutsAt(held + x, |held|, |h|, bs, w, whole, into, b);
      if b in bs {
        TailWindow(h, x, base, n, b - |h|, w);
        BlockFloor(b, cfg.block);
      } else if b in into {
        assert (h + x)[..b] == h[..b];
      }
    }
  }

  lemma KvFeedKeeps<K>(cfg: Config, s: Kv<K>, h: seq<K>, x: seq<K>, lo: nat, base: nat)
    requires KvInv(cfg, s, h, lo, base) && x != []
    ensures KvInv(cfg, KvFeed(cfg, s, x, |h|), h + x, lo, base)
  {
    hide LastN, Cuts, Boundaries, Rem;
    RollTail(h, x, base, cfg.KvTail());
    ChunkCuts(cfg, h, x, lo, base, cfg.KvTail(), cfg.win, false, s.snaps);
  }

  /** The raw side of one fed chunk, whatever pool_layer made of it. */
  lemma RawFeedKeeps<R, P>(cfg: Config, s: Pool<R, P>, t: Pool<R, P>, h: seq<R>, x: seq<R>, lo: nat, base: nat)
    requires cfg.Supports(s.ratio) && RawInv(cfg, s, h, lo, base) && x != []
    requires t.ratio == s.ratio && t.gaps == s.gaps && t.next == |h| + |x|
    requires t.tail == Some(LastN(s.tail.GetOr([]) + x, cfg.PoolTail()))
    requires t.prev == if s.ratio == 4
                       then Cuts(s.tail.GetOr([]) + x, |s.tail.GetOr([])|, |h|,
                                 Boundaries(|h|, |h| + |x|, cfg.block), 4, true, s.prev)
                       else s.prev
    ensures RawInv(cfg, t, h + x, lo, base)
  {
    hide LastN, Cuts, Boundaries, Rem;
    RollTail(h, x, base, cfg.PoolTail());
    if s.ratio == 4 {
      ChunkCuts(cfg, h, x, lo, base, cfg.PoolTail(), 4, true, s.prev);
    }
  }

  /** The pooled side. */
  lemma PooledFeedKeeps<R(!new), L(!new), P(!new)>(k: Kernel<R, L, P>, s: Pool<R, P>, t: Pool<R, P>, h: seq<R>,
                                                   x: seq<R>, lo: nat)
    requires 0 < s.ratio && lo <= |h| && PooledInv(k, s, h, lo)
    requires Count(|h|, s.ratio) <= Count(|h + x|, s.ratio)
    requires t.ratio == s.ratio && t.carry == Some(CarrySpec(s.ratio, h + x))
    requires var added := PooledSpec(k, s.ratio, h + x)[Count(|h|, s.ratio)..];
             t.pooled == if added == [] then s.pooled else s.pooled + [added]
    ensures PooledInv(k, t, h + x, lo)
  {
    hide PooledSpec, CarrySpec, Count, Flatten;
    PooledPrefix(k, s.ratio, h, x);
    var added := PooledSpec(k, s.ratio, h + x)[Count(|h|, s.ratio)..];
    FlattenAppend(s.pooled, added);
    assert PooledSpec(k, s.ratio, h + x)[Count(lo, s.ratio)..]
           == PooledSpec(k, s.ratio, h)[Count(lo, s.ratio)..] + added;
  }

  lemma HeldLength<R, P>(s: Pool<R, P>, h: seq<R>, cfg: Config, lo: nat, base: nat)
    requires cfg.Ok() && RawInv(cfg, s, h, lo, base)
    ensures s.next == |h| && lo <= |h|
  {
  }

  lemma PoolFeedKeeps<R(!new), L(!new), P(!new)>(cfg: Config, k: Kernel<R, L, P>, s: Pool<R, P>, h: seq<R>, x: seq<R>,
                                                 lo: nat, base: nat)
    requires PoolInv(cfg, k, s, h, lo, base) && x != []
    ensures CarryFits(s.carry, s.ratio)
    ensures var (next, ok) := PoolFeed(cfg, k, s, x, |h|); ok && PoolInv(cfg, k, next, h + x, lo, base)
  {
    hide LastN, Cuts, Boundaries, PoolLayer, PooledSpec, CarrySpec, Rem, Count, Flatten;
    PoolStep(k, s.ratio, h, x);
    PooledPrefix(k, s.ratio, h, x);
    var t := PoolFeed(cfg, k, s, x, |h|).0;
    HeldLength(s, h, cfg, lo, base);
    hide RawInv, PooledInv;
    RawFeedKeeps(cfg, s, t, h, x, lo, base);
    PooledFeedKeeps(k, s, t, h, x, lo);
  }

  // ---- reading the carry back from the rolling tail

  /** The remainder rows in the rolling tail are pool_layer's own buffer. */
  lemma TailHoldsRemainder<R>(cfg: Config, ratio: nat, h: seq<R>, lo: nat, base: nat)
    requires cfg.Supports(ratio) && base <= lo <= |h| && Reaches(base, lo, CarryNeed(ratio))
    ensures var tail := LastN(h[base..], cfg.PoolTail()); var rem := Rem(|h|, ratio);
            PySlice(tail, |tail| - rem, |tail|) == CarrySpec(ratio, h).buf.GetOr([])
  {
    hide Off, Count, Rem;
    Split(|h|, ratio);
    var tail := LastN(h[base..], cfg.PoolTail());
    assert tail == h[|h| - |tail|..];
  }

  /** The window before the remainder is in the tail exactly when there is one, and is pool_layer's own prev. */
  lemma TailHoldsWindow<R>(cfg: Config, h: seq<R>, lo: nat, base: nat)
    requires cfg.Supports(4) && base <= lo <= |h| && Reaches(base, lo, CarryNeed(4))
    ensures var tail := LastN(h[base..], cfg.PoolTail()); var rem := Rem(|h|, 4);
            && (|tail| - rem - 4 >= 0 <==> CarrySpec(4, h).prev.Some?)
            && (|tail| - rem - 4 >= 0 ==> Some(tail[|tail| - rem - 4..|tail| - rem]) == CarrySpec(4, h).prev)
  {
    hide Off, Count, Rem;
    Split(|h|, 4);
    OneBlock(4);
    var q := Count(|h|, 4);
    var tail, rem := LastN(h[base..], cfg.PoolTail()), Rem(|h|, 4);
    assert tail == h[|h| - |tail|..|h|];
    if q > 0 {
      OffAdd(q - 1, 1, 4);
      SliceOfSlice(h, |h| - |tail|, |h|, |tail| - rem - 4, |tail| - rem);
    }
  }

  // ---- what a layer file holds

  /** The kv keys of a capture of h that began at lo. */
  ghost function KvAt<K, R, P>(cfg: Config, h: seq<K>, lo: nat, key: Key): Option<Val<K, R, P>>
    requires cfg.Ok()
  {
    match key
    case KvWin(b) => if lo < b <= |h| && Rem(b, cfg.block) == 0 then Some(KvRows(LastN(h[..b], cfg.win))) else None
    case KvWinEnd => if h != [] then Some(KvRows(LastN(h, cfg.win))) else None
    case _ => None
  }

  /** Pooled rows of h from the first window not complete at lo. */
  ghost function PooledFrom<R(!new), L(!new), P(!new)>(k: Kernel<R, L, P>, ratio: nat, h: seq<R>, lo: nat): seq<P>
    requires 0 < ratio && lo <= |h|
  {
    CountMonotone(lo, |h|, ratio);
    PooledSpec(k, ratio, h)[Count(lo, ratio)..]
  }

  /** The compressor (Main) or indexer (Idx) keys; buf_* and prev_*_end are pool_layer's carry of the whole prompt. */
  ghost function PoolAt<K, R(!new), L(!new), P(!new)>(cfg: Config, k: Kernel<R, L, P>, kind: Kind, ratio: nat,
                                                      h: seq<R>, lo: nat, tailKey: bool, key: Key): Option<Val<K, R, P>>
    requires cfg.Ok() && 0 < ratio
  {
    var out := if lo <= |h| then PooledFrom(k, ratio, h, lo) else [];
    var c := CarrySpec(ratio, h);
    match key
    case Pooled(kd) => if kd == kind && !tailKey && out != [] then Some(PooledRows(out)) else None
    case PooledTail(kd) => if kd == kind && tailKey && out != [] then Some(PooledRows(out)) else None
    case BufKv(kd) => if kd == kind && c.buf.Some? then Some(KvCols(c.buf.value)) else None
    case BufGate(kd) => if kd == kind && c.buf.Some? then Some(GateCols(c.buf.value)) else None
    case PrevKv(kd, b) => if kd == kind && ratio == 4 && lo < b <= |h| && Rem(b, cfg.block) == 0
      then Some(KvCols(LastN(h[..b], 4))) else None
    case PrevGate(kd, b) => if kd == kind && ratio == 4 && lo < b <= |h| && Rem(b, cfg.block) == 0
      then Some(GateCols(LastN(h[..b], 4))) else None
    case PrevKvEnd(kd) => if kd == kind && c.prev.Some? then Some(KvCols(c.prev.value)) else None
    case PrevGateEnd(kd) => if kd == kind && c.prev.Some? then Some(GateCols(c.prev.value)) else None
    case _ => None
  }

  /** A stored `pooled` tensor's rows. */
  function PooledOf<K, R, P>(v: Val<K, R, P>): seq<P> {
    if v.PooledRows? then v.pooled else []
  }

  predicate OfKind(key: Key, kind: Kind) {
    match key
    case KvWin(_) => false
    case KvWinEnd => false
    case _ => key.kind == kind
  }

  /** out holds exactly what f says for the keys in scope. */
  ghost function Lookup<K, R, P>(out: Out<K, R, P>, key: Key): Option<Val<K, R, P>> {
    if key in out then Some(out[key]) else None
  }

  lemma KvExportAt<K, R, P>(cfg: Config, s: Kv<K>, key: Key)
    ensures Lookup(KvExport<K, R, P>(cfg, s, map[]), key)
         == match key
            case KvWin(b) => if b in s.snaps then Some(KvRows(s.snaps[b])) else None
            case KvWinEnd => if s.tail.Some? then Some(KvRows(LastN(s.tail.value, cfg.win))) else None
            case _ => None
  {
    hide LastN;
  }

  lemma KvExportMeans<K, R, P>(cfg: Config, s: Kv<K>, h: seq<K>, lo: nat, base: nat, key: Key)
    requires KvInv(cfg, s, h, lo, base) && Reaches(base, |h|, cfg.win)
    ensures Lookup(KvExport<K, R, P>(cfg, s, map[]), key) == KvAt(cfg, h, lo, key)
  {
    hide LastN, Rem, KvExport;
    KvExportAt<K, R, P>(cfg, s, key);
    if h != [] {
      LastNOfLastN(h[base..], cfg.KvTail(), cfg.win);
      SuffixLastN(h, base, cfg.win);
    }
  }

  lemma KvKeysOnly<K, R, P>(cfg: Config, s: Kv<K>, key: Key)
    requires OfKind(key, Main) || OfKind(key, Idx)
    ensures key !in KvExport<K, R, P>(cfg, s, map[])
  {
    hide LastN, KvExport;
    KvExportAt<K, R, P>(cfg, s, key);
  }

  lemma PooledNonEmpty<P>(ss: seq<seq<P>>)
    requires NoneEmpty(ss)
    ensures ss == [] <==> Flatten(ss) == []
  {
  }

  lemma PrevKeysAt<K, R, P>(kind: Kind, prev: map<nat, seq<R>>, key: Key)
    ensures Lookup(PrevKeys<K, R, P>(kind, prev), key)
         == match key
            case PrevKv(kd, b) => if kd == kind && b in prev then Some(KvCols(prev[b])) else None
            case PrevGate(kd, b) => if kd == kind && b in prev then Some(GateCols(prev[b])) else None
            case _ => None
  {
  }

  lemma CarryShape<R>(ratio: nat, h: seq<R>)
    requires 0 < ratio
    ensures CarrySpec(ratio, h).buf.Some? <==> Rem(|h|, ratio) != 0
    ensures CarrySpec(ratio, h).prev.Some? ==> ratio == 4
  {
  }

  /** PoolExport, entry by entry. */
  lemma PoolExportAt<K, R, P>(kind: Kind, s: Pool<R, P>, T: nat, tailKey: bool, out: Out<K, R, P>, key: Key)
    requires 0 < s.ratio
    requires OfKind(key, kind) ==> key !in out
    ensures var rem := Rem(T, s.ratio); var n := |s.tail.GetOr([])|;
            var pooled := if s.pooled == [] then None else Some(PooledRows(Flatten(s.pooled)));
            var buf := if s.tail.None? || rem == 0 then None else Some(PySlice(s.tail.value, n - rem, n));
            var end := if s.ratio == 4 && s.tail.Some? && n - rem - 4 >= 0
              then Some(s.tail.value[n - rem - 4..n - rem]) else None;
            Lookup(PoolExport(kind, s, T, tailKey, out), key)
            == if !OfKind(key, kind) then Lookup(out, key)
               else match key
                    case Pooled(_) => if tailKey then None else pooled
                    case PooledTail(_) => if tailKey then pooled else None
                    case BufKv(_) => if buf.Some? then Some(KvCols(buf.value)) else None
                    case BufGate(_) => if buf.Some? then Some(GateCols(buf.value)) else None
                    case PrevKvEnd(_) => if end.Some? then Some(KvCols(end.value)) else None
                    case PrevGateEnd(_) => if end.Some? then Some(GateCols(end.value)) else None
                    case PrevKv(_, b) => if s.ratio == 4 && b in s.prev then Some(KvCols(s.prev[b])) else None
                    case PrevGate(_, b) => if s.ratio == 4 && b in s.prev then Some(GateCols(s.prev[b])) else None
                    case _ => None
  {
    hide PySlice, PrevKeys, Flatten, Rem;
    PrevKeysAt<K, R, P>(kind, s.prev, key);
  }

  lemma EmptyCarry<R>(ratio: nat)
    requires 0 < ratio
    ensures CarrySpec<R>(ratio, []) == NewCarry()
  {
  }

  lemma PoolExportMeans<K, R(!new), L(!new), P(!new)>(cfg: Config, k: Kernel<R, L, P>, kind: Kind, s: Pool<R, P>,
                                                      h: seq<R>, lo: nat, base: nat, tailKey: bool, out: Out<K, R, P>,
                                                      key: Key)
    requires PoolInv(cfg, k, s, h, lo, base)
    requires OfKind(key, kind) ==> key !in out
    ensures Lookup(PoolExport(kind, s, |h|, tailKey, out), key)
         == if OfKind(key, kind) then PoolAt(cfg, k, kind, s.ratio, h, lo, tailKey, key) else Lookup(out, key)
  {
    hide LastN, PooledSpec, PySlice, Count, Rem, CarrySpec, Flatten, PoolExport;
    PoolExportAt(kind, s, |h|, tailKey, out, key);
    PooledNonEmpty(s.pooled);
    TailHoldsRemainder(cfg, s.ratio, h, lo, base);
    CarryShape(s.ratio, h);
    if s.ratio == 4 {
      TailHoldsWindow(cfg, h, lo, base);
    }
    if h == [] {
      EmptyCarry<R>(s.ratio);
    }
  }
}
