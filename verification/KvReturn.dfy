/** KV return: a finished capture saves its short raw tails; the next turn resumes from them at S (_kvr_resume), and the
    decoder merges the new layer files with the kept parent (studio/kv_return/pd_kv_return.py). */
module KvReturn {
  import opened Blocks
  import opened Seqs
  import opened PoolTorch
  import opened CaptureState
  import opened CaptureSpec
  import opened Layer

  /** kvstate.safetensors of one layer: raw tails ending at T. */
  datatype Saved<K, R> = Saved(T: nat, kv: Option<seq<K>>, main: Option<seq<R>>, idx: Option<seq<R>>)

  /** What `_finish` saves: the tail of every accumulator that stands exactly at T. */
  function Save<K, R, P>(s: State<K, R, P>, T: nat): Saved<K, R> {
    Saved(T,
          if s.kv.next == T then s.kv.tail else None,
          if s.main.Some? && s.main.value.next == T then s.main.value.tail else None,
          if s.idx.Some? && s.idx.value.next == T then s.idx.value.tail else None)
  }

  /** `v[:v.shape[0] - cut]` as Python slices it, dropped when empty. */
  function Trim<T>(v: Option<seq<T>>, cut: nat): Option<seq<T>> {
    if v.None? then None
    else
      var kept := if cut == 0 then v.value else PySlice(v.value, 0, |v.value| - cut);
      if kept == [] then None else Some(kept)
  }

  /** _kvr_resume's test on a saved state. */
  predicate Covers(cfg: Config, T: nat, S: nat) {
    T - cfg.keep <= S <= T
  }

  /** The accumulators a request starts with when it resumes at S from this saved state. */
  function Resume<K, R(!new), L(!new), P(!new)>(lc: LayerCfg<R, L, P>, saved: Saved<K, R>, S: nat): (s: State<K, R, P>)
    requires lc.Ok() && S <= saved.T
    ensures s.main.Some? == lc.Has(Main) && s.idx.Some? == lc.Has(Idx)
    ensures CarriesFit(s)
  {
    var cut := saved.T - S;
    var kv, main, idx := Trim(saved.kv, cut), Trim(saved.main, cut), Trim(saved.idx, cut);
    var newMain, newIdx: Pool<R, P> := PoolNew(lc.ratio), PoolNew(4);
    if lc.Has(Main) then SeedFits(lc.cfg, newMain, main, S); SeedFits(lc.cfg, newIdx, idx, S);
      State(if kv.Some? then KvSeed(lc.cfg, KvNew(), kv.value, S) else KvNew(),
            Some(if main.Some? then PoolSeed(lc.cfg, newMain, main, S) else newMain),
            if lc.Has(Idx) then Some(if idx.Some? then PoolSeed(lc.cfg, newIdx, idx, S) else newIdx) else None)
    else State(if kv.Some? then KvSeed(lc.cfg, KvNew(), kv.value, S) else KvNew(), None, None)
  }

  // ---- resuming from a tail that reaches far enough back

  /** The first row a tail of at most n rows still has of a prompt of T rows. */
  function TailBase(T: nat, n: nat): nat {
    if T <= n then 0 else T - n
  }

  /** What a saved state holds of a capture of h: every tail from a first row on. */
  ghost predicate Tails<K, R(!new), L(!new), P(!new)>(lc: LayerCfg<R, L, P>, saved: Saved<K, R>, h: Rows<K, R>,
                                                      kvBase: nat, poolBase: nat)
  {
    && h.Ok() && saved.T == h.Len()
    && kvBase < h.Len() <= kvBase + lc.cfg.KvTail() && saved.kv == Some(h.kv[kvBase..])
    && (lc.Has(Main) ==> poolBase < h.Len() <= poolBase + lc.cfg.PoolTail() && saved.main == Some(h.main[poolBase..]))
    && (lc.Has(Idx) ==> poolBase < h.Len() && saved.idx == Some(h.idx[poolBase..]))
  }

  /** Tails that begin at these rows hold what each accumulator reads before S. */
  predicate InReach<R(!new), L(!new), P(!new)>(lc: LayerCfg<R, L, P>, S: nat, kvBase: nat, poolBase: nat)
    requires lc.Ok()
  {
    && kvBase < S && Reaches(kvBase, S, lc.cfg.win - 1)
    && (lc.Has(Main) ==> poolBase < S && Reaches(poolBase, S, CarryNeed(lc.ratio)))
  }

  /** A saved tail cut back to S is the rows [base, S). */
  lemma TrimSuffix<T>(h: seq<T>, S: nat, base: nat, n: nat)
    requires base < S <= |h| <= base + n
    ensures Trim(Some(h[base..]), |h| - S) == Some(h[..S][base..])
    ensures LastN(h[..S][base..], n) == h[..S][base..]
  {
    assert h[..|h|] == h;
    assert h[base..][..S - base] == h[..S][base..];
  }

  lemma KvSeedInv<K>(cfg: Config, h: seq<K>, S: nat, base: nat)
    requires cfg.Ok() && 1 <= S <= |h| && base <= S && Reaches(base, S, cfg.win - 1)
    requires LastN(h[..S][base..], cfg.KvTail()) == h[..S][base..]
    ensures KvInv(cfg, KvSeed(cfg, KvNew(), h[..S][base..], S), h[..S], S, base)
  {
    hide LastN, Rem;
  }

  /** Rows that reach far enough back hold the remainder and, for ratio 4, the window before it. */
  lemma SeedFitsIn(cfg: Config, ratio: nat, n: nat, base: nat)
    requires cfg.Supports(ratio) && base <= n && Reaches(base, n, CarryNeed(ratio))
    ensures var rem := Rem(n, ratio); base + rem <= n && (ratio == 4 && n - rem >= 4 ==> base + rem + 4 <= n)
    ensures Off(Count(n, ratio), ratio) == n - Rem(n, ratio)
  {
    hide Rem, Count, Off;
    Split(n, ratio);
  }

  lemma SuffixSlice<T>(h: seq<T>, base: nat, m: nat)
    requires base + m <= |h|
    ensures PySlice(h[base..], |h| - base - m, |h| - base) == h[|h| - m..]
  {
  }

  /** The remainder read from raw rows that reach far enough back. */
  lemma SeedBuf<R>(cfg: Config, ratio: nat, h: seq<R>, base: nat)
    requires cfg.Supports(ratio) && base <= |h| && Reaches(base, |h|, CarryNeed(ratio))
    ensures var rows := h[base..]; var n := |rows|; var rem := Rem(|h|, ratio);
            && rem <= n && (ratio == 4 && |h| - rem >= 4 ==> rem + 4 <= n)
            && PySlice(rows, n - rem, n) == Remainder(ratio, h)
  {
    hide Rem, Count, Off, Remainder, PySlice;
    SeedFitsIn(cfg, ratio, |h|, base);
    RemainderIs(ratio, h);
    SuffixSlice(h, base, Rem(|h|, ratio));
  }

  /** Where the last complete group of four begins and ends. */
  lemma LastFour(n: nat)
    ensures var q, end := Count(n, 4), n - Rem(n, 4);
            && (q > 0 <==> 4 <= end) && (q > 0 ==> Off(q, 4) == end && Off(q - 1, 4) == end - 4)
  {
    hide Rem, Count, Off;
    Split(n, 4);
    OneBlock(4);
    if Count(n, 4) > 0 {
      OffAdd(Count(n, 4) - 1, 1, 4);
    }
  }

  lemma WindowBefore<R>(h: seq<R>)
    ensures var end := |h| - Rem(|h|, 4);
            LastWindow(4, h) == if end >= 4 then Some(h[end - 4..end]) else None
  {
    hide Rem, Count, Off;
    LastFour(|h|);
  }

  lemma NoWindow<R>(ratio: nat, h: seq<R>)
    requires 0 < ratio
    ensures ratio != 4 ==> LastWindow(ratio, h) == None
  {
  }

  /** The reseeded carry is pool_layer's own carry at S. */
  lemma SeedCarry<R>(cfg: Config, ratio: nat, h: seq<R>, base: nat)
    requires cfg.Supports(ratio) && h != [] && base <= |h| && Reaches(base, |h|, CarryNeed(ratio))
    ensures var rows := h[base..]; var n := |rows|; var rem := Rem(|h|, ratio);
            && (rem > 0 ==> CarrySpec(ratio, h).buf == Some(PySlice(rows, n - rem, n)))
            && (rem == 0 ==> CarrySpec(ratio, h).buf == None)
            && (ratio == 4 && |h| - rem >= 4 ==> CarrySpec(ratio, h).prev == Some(PySlice(rows, n - rem - 4, n - rem)))
            && (!(ratio == 4 && |h| - rem >= 4) ==> CarrySpec(ratio, h).prev == None)
  {
    hide Rem, Count, Off, LastWindow, Remainder, PySlice;
    var rows, rem := h[base..], Rem(|h|, ratio);
    SeedBuf(cfg, ratio, h, base);
    NoWindow(ratio, h);
    if ratio == 4 {
      WindowBefore(h);
      if |h| - rem >= 4 {
        assert rows == h[base..|h|];
        PlainSlice(rows, |rows| - rem - 4, |rows| - rem);
        SliceOfSlice(h, base, |h|, |rows| - rem - 4, |rows| - rem);
        assert h[|h| - rem - 4..|h| - rem] == rows[|rows| - rem - 4..|rows| - rem];
      }
    }
  }

  lemma CarryHead<R>(ratio: nat, h: seq<R>)
    requires 0 < ratio
    ensures CarrySpec(ratio, h).processed == |h|
  {
  }

  lemma PoolSeedInv<R(!new), L(!new), P(!new)>(cfg: Config, k: Kernel<R, L, P>, ratio: nat, h: seq<R>, S: nat,
                                               base: nat)
    requires cfg.Supports(ratio) && 1 <= S <= |h| && base <= S && Reaches(base, S, CarryNeed(ratio))
    requires LastN(h[..S][base..], cfg.PoolTail()) == h[..S][base..]
    ensures PoolInv(cfg, k, PoolSeed(cfg, PoolNew(ratio), Some(h[..S][base..]), S), h[..S], S, base)
  {
    hide LastN, Rem, PySlice, CarrySpec, PooledSpec, Count;
    SeedCarry(cfg, ratio, h[..S], base);
    CarryHead<R>(ratio, h[..S]);
    assert PooledSpec(k, ratio, h[..S])[Count(S, ratio)..] == [];
  }

  lemma SeedRatio<R, P>(cfg: Config, s: Pool<R, P>, rows: Option<seq<R>>, S: nat)
    requires 0 < s.ratio
    ensures PoolSeed(cfg, s, rows, S).ratio == s.ratio
  {
  }

  /** Resuming at S from any tails that reach far enough back continues the meaning of the prompt at S. */
  lemma ResumeInv<K, R(!new), L(!new), P(!new)>(lc: LayerCfg<R, L, P>, saved: Saved<K, R>, h: Rows<K, R>, S: nat,
                                                kvBase: nat, poolBase: nat)
    requires lc.Ok() && Tails(lc, saved, h, kvBase, poolBase) && 1 <= S <= h.Len() && InReach(lc, S, kvBase, poolBase)
    ensures Inv(lc, Resume(lc, saved, S), h.Take(S), S, kvBase, poolBase)
  {
    hide KvInv, PoolInv, Trim, LastN, PoolSeed, KvSeed;
    TrimSuffix(h.kv, S, kvBase, lc.cfg.KvTail());
    KvSeedInv(lc.cfg, h.kv, S, kvBase);
    if lc.Has(Main) {
      TrimSuffix(h.main, S, poolBase, lc.cfg.PoolTail());
      PoolSeedInv(lc.cfg, lc.main, lc.ratio, h.main, S, poolBase);
      SeedRatio(lc.cfg, PoolNew<R, P>(lc.ratio), Some(h.main[..S][poolBase..]), S);
    }
    if lc.Has(Idx) {
      TrimSuffix(h.idx, S, poolBase, lc.cfg.PoolTail());
      PoolSeedInv(lc.cfg, lc.idx, 4, h.idx, S, poolBase);
      SeedRatio(lc.cfg, PoolNew<R, P>(4), Some(h.idx[..S][poolBase..]), S);
    }
  }

  lemma TailOf<T>(h: seq<T>, base: nat, n: nat)
    ensures base <= |h| ==> LastN(h[base..], n) == h[Max(base, TailBase(|h|, n))..]
  {
  }

  /** What is saved begins where it began before, or as far back as a tail is long, whichever is later. */
  lemma SaveTails<K, R(!new), L(!new), P(!new)>(lc: LayerCfg<R, L, P>, s: State<K, R, P>, h: Rows<K, R>, lo: nat,
                                                kvBase: nat, poolBase: nat)
    requires Inv(lc, s, h, lo, kvBase, poolBase) && kvBase < h.Len() && (lc.Has(Main) ==> poolBase < h.Len())
    ensures Tails(lc, Save(s, h.Len()), h, Max(kvBase, TailBase(h.Len(), lc.cfg.KvTail())),
                  Max(poolBase, TailBase(h.Len(), lc.cfg.PoolTail())))
  {
    hide PooledInv;
    TailOf(h.kv, kvBase, lc.cfg.KvTail());
    TailOf(h.main, poolBase, lc.cfg.PoolTail());
    TailOf(h.idx, poolBase, lc.cfg.PoolTail());
  }

  // ---- merge_prefix

  /** _INT_B: the boundary number of a kvwin_b / prev_*_b key. */
  function IntB(key: Key): Option<nat> {
    match key
    case KvWin(b) => Some(b)
    case PrevKv(_, b) => Some(b)
    case PrevGate(_, b) => Some(b)
    case _ => None
  }

  function Within(key: Key, S: nat): bool {
    IntB(key).Some? && IntB(key).value <= S
  }

  /** `head` of the parent's pooled rows, then the new ones if there are any. */
  function JoinPooled<K, R, P>(par: Out<K, R, P>, new': Out<K, R, P>, key: Key, keep: nat): Val<K, R, P>
    requires key in par
  {
    var head := PySlice(PooledOf(par[key]), 0, keep);
    PooledRows(if key in new' then head + PooledOf(new'[key]) else head)
  }

  /** The merged layer file, key by key. */
  function MergedAt<K, R, P>(par: Out<K, R, P>, new': Out<K, R, P>, S: nat, ratio: nat,
                             key: Key): Option<Val<K, R, P>> {
    if key == Pooled(Main) && ratio > 0 && key in par then Some(JoinPooled(par, new', key, Count(S, ratio)))
    else if key == Pooled(Idx) && key in par then Some(JoinPooled(par, new', key, Count(S, 4)))
    else if Within(key, S) then if key in par then Some(par[key]) else None
    else if key in new' then Some(new'[key]) else None
  }

  /** merge_prefix for one layer file: two passes over the dictionaries, then the pooled rows are joined. */
  method MergeLayer<K, R, P>(par: Out<K, R, P>, new': Out<K, R, P>, S: nat, ratio: nat) returns (out: Out<K, R, P>)
    ensures forall key :: Lookup(out, key) == MergedAt(par, new', S, ratio, key)
  {
    out := map[];
    var todo := par.Keys;
    while todo != {}
      invariant todo <= par.Keys
      invariant forall key :: key in out <==> key in par && key !in todo && Within(key, S)
      invariant forall key :: key in out ==> out[key] == par[key]
    {
      var key :| key in todo;
      todo := todo - {key};
      if Within(key, S) {
        out := out[key := par[key]];
      }
    }
    todo := new'.Keys;
    while todo != {}
      invariant todo <= new'.Keys
      invariant forall key :: key in out <==> if Within(key, S) then key in par else key in new' && key !in todo
      invariant forall key :: key in out ==> out[key] == if Within(key, S) then par[key] else new'[key]
    {
      var key :| key in todo;
      todo := todo - {key};
      if !Within(key, S) {
        out := out[key := new'[key]];
      }
    }
    if ratio > 0 && Pooled(Main) in par {
      out := out[Pooled(Main) := JoinPooled(par, new', Pooled(Main), Count(S, ratio))];
    }
    if Pooled(Idx) in par {
      out := out[Pooled(Idx) := JoinPooled(par, new', Pooled(Idx), Count(S, 4))];
    }
  }

  /** The parent's pooled rows up to S and the resumed run's rows are the pooled rows of the whole prompt. */
  lemma PooledJoin<R(!new), L(!new), P(!new)>(k: Kernel<R, L, P>, ratio: nat, h1: seq<R>, h2: seq<R>, S: nat)
    requires 0 < ratio && S <= |h1| && S <= |h2| && h1[..S] == h2[..S]
    ensures Count(S, ratio) <= Count(|h1|, ratio) && Count(S, ratio) <= Count(|h2|, ratio)
    ensures PySlice(PooledSpec(k, ratio, h1), 0, Count(S, ratio)) + PooledFrom(k, ratio, h2, S)
            == PooledSpec(k, ratio, h2)
  {
    hide PooledAt, Count;
    assert h1 == h1[..S] + h1[S..] && h2 == h2[..S] + h2[S..];
    PooledPrefix(k, ratio, h1[..S], h1[S..]);
    PooledPrefix(k, ratio, h2[..S], h2[S..]);
  }

  /** A prompt has a pooled row exactly when it is as long as one window. */
  lemma SomePooled<R(!new), L(!new), P(!new)>(k: Kernel<R, L, P>, ratio: nat, h: seq<R>)
    requires 0 < ratio
    ensures PooledFrom(k, ratio, h, 0) == PooledSpec(k, ratio, h)
    ensures PooledSpec(k, ratio, h) != [] <==> ratio <= |h|
  {
    hide PooledAt, Count;
    OneBlock(ratio);
    Fits(1, |h|, ratio);
  }

  lemma PySliceOfNothing<T>(n: nat)
    ensures PySlice<T>([], 0, n) == []
  {
  }

  /** What the two files hold under the pooled key, and what their join is. */
  lemma PooledMerge<R(!new), L(!new), P(!new)>(k: Kernel<R, L, P>, ratio: nat, h1: seq<R>, h2: seq<R>, S: nat)
    requires 0 < ratio && S <= |h1| && S <= |h2| && h1[..S] == h2[..S] && (ratio <= |h1| ==> ratio <= |h2|)
    ensures PooledFrom(k, ratio, h1, 0) == PooledSpec(k, ratio, h1)
            && PooledFrom(k, ratio, h2, 0) == PooledSpec(k, ratio, h2)
    ensures PooledSpec(k, ratio, h1) != [] ==> PooledSpec(k, ratio, h2) != []
    ensures PySlice(PooledSpec(k, ratio, h1), 0, Count(S, ratio)) + PooledFrom(k, ratio, h2, S)
            == PooledSpec(k, ratio, h2)
    ensures PooledSpec(k, ratio, h1) == [] ==> PooledFrom(k, ratio, h2, S) == PooledSpec(k, ratio, h2)
  {
    hide PooledSpec, Count, PySlice, PooledFrom;
    SomePooled(k, ratio, h1);
    SomePooled(k, ratio, h2);
    PooledJoin(k, ratio, h1, h2, S);
    PySliceOfNothing<P>(Count(S, ratio));
    assert [] + PooledFrom(k, ratio, h2, S) == PooledFrom(k, ratio, h2, S);
  }

  lemma SamePrefix<T>(a: seq<T>, c: seq<T>, S: nat, b: nat)
    requires b <= S <= |a| && S <= |c| && a[..S] == c[..S]
    ensures a[..b] == c[..b]
  {
    assert a[..S][..b] == a[..b] && c[..S][..b] == c[..b];
  }

  lemma PoolMerge<K, R(!new), L(!new), P(!new)>(cfg: Config, k: Kernel<R, L, P>, kind: Kind, ratio: nat, h1: seq<R>,
                                                h2: seq<R>, S: nat, par: Out<K, R, P>, new': Out<K, R, P>, key: Key)
    requires cfg.Ok() && 0 < ratio && S <= |h1| && S <= |h2| && h1[..S] == h2[..S] && (ratio <= |h1| ==> ratio <= |h2|)
    requires OfKind(key, kind)
    requires Lookup(par, key) == PoolAt(cfg, k, kind, ratio, h1, 0, false, key)
    requires Lookup(new', key) == PoolAt(cfg, k, kind, ratio, h2, S, false, key)
    ensures (if key == Pooled(kind) && key in par then Some(JoinPooled(par, new', key, Count(S, ratio)))
             else if Within(key, S) then Lookup(par, key) else Lookup(new', key))
         == PoolAt(cfg, k, kind, ratio, h2, 0, false, key)
  {
    hide PooledSpec, CarrySpec, LastN, Count, PySlice, Rem, PooledFrom;
    PooledMerge(k, ratio, h1, h2, S);
    if key == Pooled(kind) {
      var head := PySlice(PooledSpec(k, ratio, h1), 0, Count(S, ratio));
      assert head + [] == head;
    } else if Within(key, S) {
      var b := IntB(key).value;
      SamePrefix(h1, h2, S, b);
    }
  }

  /** A prompt that is shorter than its parent still fills a window if the parent did; otherwise the merged file has a
      pooled tensor without rows where one capture writes none. */
  predicate KeepsPooling<R(!new), L(!new), P(!new)>(lc: LayerCfg<R, L, P>, T1: nat, T2: nat) {
    lc.Has(Main) && lc.ratio <= T1 ==> lc.ratio <= T2
  }

  /** Merging completes a resumed capture: the result is, key for key, one capture of the whole prompt. */
  lemma MergeMeans<K, R(!new), L(!new), P(!new)>(lc: LayerCfg<R, L, P>, h1: Rows<K, R>, h2: Rows<K, R>, S: nat,
                                                 par: Out<K, R, P>, new': Out<K, R, P>, key: Key)
    requires lc.Ok() && h1.Ok() && h2.Ok() && S <= h1.Len() && S <= h2.Len() && h1.Take(S) == h2.Take(S)
    requires KeepsPooling(lc, h1.Len(), h2.Len())
    requires Lookup(par, key) == LayerAt(lc, h1, 0, false, key)
    requires Lookup(new', key) == LayerAt(lc, h2, S, false, key)
    ensures MergedAt(par, new', S, lc.ratio, key) == LayerAt(lc, h2, 0, false, key)
  {
    hide PoolAt, JoinPooled, LastN, Rem, Count;
    if OfKind(key, Main) {
      if lc.Has(Main) {
        PoolMerge(lc.cfg, lc.main, Main, lc.ratio, h1.main, h2.main, S, par, new', key);
      }
    } else if OfKind(key, Idx) {
      if lc.Has(Idx) {
        PoolMerge(lc.cfg, lc.idx, Idx, 4, h1.idx, h2.idx, S, par, new', key);
      }
    } else if Within(key, S) {
      var b := IntB(key).value;
      assert h1.kv[..S][..b] == h1.kv[..b] && h2.kv[..S][..b] == h2.kv[..b];
    }
  }
}
