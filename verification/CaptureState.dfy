/** spark/capture_sitecustomize_v3.kvreturn.py: the per-layer accumulators _KVState and _PoolState. Each class is proved
    against a closed form of its methods (Feed, Seed, Export), and the closed forms against the meaning of a capture:
    what every exported key is as a function of the rows of the prompt. */
module CaptureState {
  import opened Blocks
  import opened Seqs
  import opened PoolTorch

  /** The most raw rows before a position that an export or a reseed there reads: the remainder and, for ratio 4, the
      window before it. */
  function CarryNeed(ratio: nat): nat {
    if ratio == 4 then 7 else if ratio == 0 then 0 else ratio - 1
  }

  /** _BLOCK, _WIN, _TAIL_RAW and _KEEP_EXTRA. */
  datatype Config = Config(block: nat, win: nat, tailRaw: nat, keep: nat) {
    predicate Ok() { 4 <= block && 1 <= win && 1 <= tailRaw }
    function KvTail(): nat { win + keep }
    function PoolTail(): nat { tailRaw + keep }
    predicate Supports(ratio: nat) { Ok() && 0 < ratio && CarryNeed(ratio) <= tailRaw }
  }

  datatype Kind = Main | Idx

  /** The names in a layer file. */
  datatype Key =
    | KvWin(b: nat) | KvWinEnd
    | Pooled(kind: Kind) | PooledTail(kind: Kind)
    | BufKv(kind: Kind) | BufGate(kind: Kind)
    | PrevKv(kind: Kind, b: nat) | PrevGate(kind: Kind, b: nat)
    | PrevKvEnd(kind: Kind) | PrevGateEnd(kind: Kind)

  /** A stored tensor: pre-rope kv rows, one column half of raw kv_score rows, or pooled rows. */
  datatype Val<K, R, P> = KvRows(kv: seq<K>) | KvCols(raw: seq<R>) | GateCols(raw: seq<R>) | PooledRows(pooled: seq<P>)

  type Out<K, R, P> = map<Key, Val<K, R, P>>

  // ---- _boundaries

  /** range(first, hi + 1, block) */
  function Range(first: nat, hi: nat, block: nat): (bs: seq<nat>)
    requires 0 < block
    decreases hi + 1 - first
  {
    if hi < first then [] else [first] + Range(first + block, hi, block)
  }

  function Boundaries(lo: nat, hi: nat, block: nat): seq<nat>
    requires 0 < block
  {
    Range(Off(Count(lo, block) + 1, block), hi, block)
  }

  /** Multiples of block in (lo, hi]. */
  ghost function BSet(lo: nat, hi: nat, block: nat): set<nat>
    requires 0 < block
  {
    set b: nat | lo < b <= hi && Rem(b, block) == 0
  }

  predicate Increasing(s: seq<nat>) {
    forall i, j | 0 <= i < j < |s| :: s[i] < s[j]
  }

  lemma {:induction false} RangeIsMultiples(q: nat, hi: nat, block: nat)
    requires 0 < block
    ensures Increasing(Range(Off(q, block), hi, block))
    ensures forall b: nat :: b in Range(Off(q, block), hi, block) <==> Off(q, block) <= b <= hi && Rem(b, block) == 0
    decreases hi + 1 - Off(q, block)
  {
    var first := Off(q, block);
    Unique(q, 0, block);
    if first <= hi {
      var rest := Range(Off(q + 1, block), hi, block);
      RangeIsMultiples(q + 1, hi, block);
      assert Range(first, hi, block) == [first] + rest;
      forall b | b in rest
        ensures first < b
      {
        assert Off(q + 1, block) <= b;
      }
      forall i | 0 <= i < |rest|
        ensures first < rest[i]
      {
        assert rest[i] in rest;
      }
      forall b: nat | first <= b <= hi && Rem(b, block) == 0
        ensures b == first || Off(q + 1, block) <= b
      {
        Split(b, block);
        Fits(q, b, block);
        Fits(q + 1, b, block);
      }
    }
  }

  /** `_boundaries(lo, hi)` lists exactly the multiples of block in (lo, hi], in order. */
  lemma BoundariesSpec(lo: nat, hi: nat, block: nat)
    requires 0 < block
    ensures Increasing(Boundaries(lo, hi, block))
    ensures forall b: nat :: b in Boundaries(lo, hi, block) <==> b in BSet(lo, hi, block)
  {
    var q := Count(lo, block) + 1;
    RangeIsMultiples(q, hi, block);
    Split(lo, block);
    forall b: nat | Rem(b, block) == 0
      ensures lo < b <==> Off(q, block) <= b
    {
      Split(b, block);
      Fits(q, b, block);
      if lo < b {
        CountMonotone(lo, b, block);
      }
    }
  }

  lemma InRange(b: nat, lo: nat, hi: nat, block: nat)
    requires 0 < block && b in Boundaries(lo, hi, block)
    ensures lo < b <= hi
  {
    BoundariesSpec(lo, hi, block);
  }

  // ---- windows ending at a boundary

  /** The last w rows of full[..p]. */
  function Cut<T>(full: seq<T>, p: int, w: nat): seq<T> {
    if 0 <= p <= |full| then LastN(full[..p], w) else []
  }

  /** For every boundary b in bs: the w rows before b, read from full = `seen` earlier rows + the chunk at start.
      _KVState keeps a window that is cut short at the first row it has; _PoolState (whole) leaves it out. */
  function Cuts<T>(full: seq<T>, seen: nat, start: nat, bs: seq<nat>, w: nat, whole: bool, into: map<nat, seq<T>>)
    : map<nat, seq<T>>
  {
    if bs == [] then into
    else
      var b := bs[|bs| - 1];
      var before := Cuts(full, seen, start, bs[..|bs| - 1], w, whole, into);
      if whole && seen + b - start < w then before else before[b := Cut(full, seen + b - start, w)]
  }

  /** Cuts, entry by entry. */
  lemma {:induction false} CutsAt<T>(full: seq<T>, seen: nat, start: nat, bs: seq<nat>, w: nat, whole: bool,
                                     into: map<nat, seq<T>>, b: nat)
    ensures var m := Cuts(full, seen, start, bs, w, whole, into);
            var cut := b in bs && (whole ==> seen + b - start >= w);
            && (b in m <==> b in into || cut)
            && (b in m ==> m[b] == if cut then Cut(full, seen + b - start, w) else into[b])
  {
    if bs != [] {
      CutsAt(full, seen, start, bs[..|bs| - 1], w, whole, into, b);
      assert b in bs <==> b in bs[..|bs| - 1] || b == bs[|bs| - 1];
    }
  }

  lemma NoCuts<T>(full: seq<T>, seen: nat, start: nat, w: nat, whole: bool, into: map<nat, seq<T>>)
    ensures Cuts(full, seen, start, [], w, whole, into) == into
  {
  }

  lemma CutsNext<T>(full: seq<T>, seen: nat, start: nat, bs: seq<nat>, i: nat, w: nat, whole: bool,
                    into: map<nat, seq<T>>)
    requires i < |bs|
    ensures var before := Cuts(full, seen, start, bs[..i], w, whole, into);
            Cuts(full, seen, start, bs[..i + 1], w, whole, into)
            == if whole && seen + bs[i] - start < w then before else before[bs[i] := Cut(full, seen + bs[i] - start, w)]
  {
    hide Cut;
    assert bs[..i + 1][..i] == bs[..i];
  }

  /** The two ways feed cuts a window: inside the chunk, or out of cat(tail, chunk) from the tail's first row on. */
  lemma CutBranches<T>(tail: seq<T>, x: seq<T>, start: nat, b: nat, w: nat)
    requires start < b <= start + |x|
    ensures b - w >= start ==> x[b - w - start..b - start] == Cut(tail + x, |tail| + b - start, w)
    ensures var base := start - |tail|; var lo := Max(b - w, base);
            0 <= lo - base <= b - base <= |tail + x|
              && (tail + x)[lo - base..b - base] == Cut(tail + x, |tail| + b - start, w)
  {
    if b - w >= start {
      assert (tail + x)[..|tail| + b - start] == tail + x[..b - start];
    }
  }

  lemma MaxLeft(a: int, b: int)
    requires b <= a
    ensures Max(a, b) == a
  {
  }

  /** The two ways feed rolls the tail. */
  lemma TailBranches<T>(tail: seq<T>, x: seq<T>, n: nat)
    ensures n <= |x| ==> LastN(x, n) == LastN(tail + x, n)
    ensures tail == [] ==> LastN(x, n) == LastN(tail + x, n)
  {
    assert tail == [] ==> tail + x == x;
  }

  // ---- _KVState

  datatype Kv<K> = Kv(tail: Option<seq<K>>, snaps: map<nat, seq<K>>, next: nat, rows: nat, gaps: seq<(nat, nat)>)

  /** _KVState.feed, without its branches: every window is the last `win` rows of (tail + chunk) cut at the boundary. */
  function KvFeed<K>(cfg: Config, s: Kv<K>, kv: seq<K>, start: nat): Kv<K>
    requires cfg.Ok()
  {
    var full := s.tail.GetOr([]) + kv;
    Kv(Some(LastN(full, cfg.KvTail())),
       Cuts(full, |s.tail.GetOr([])|, start, Boundaries(start, start + |kv|, cfg.block), cfg.win, false, s.snaps),
       start + |kv|,
       s.rows + |kv|,
       if start != s.next then s.gaps + [(s.next, start)] else s.gaps)
  }

  function KvSeed<K>(cfg: Config, s: Kv<K>, rows: seq<K>, S: nat): Kv<K> {
    s.(tail := Some(LastN(rows, cfg.KvTail())), next := S)
  }

  function KvNew<K>(): Kv<K> {
    Kv(None, map[], 0, 0, [])
  }

  function SnapKeys<K, R, P>(snaps: map<nat, seq<K>>): Out<K, R, P> {
    map b | b in snaps :: KvWin(b) := KvRows(snaps[b])
  }

  /** _KVState.export: this layer's kv keys added to out. */
  function KvExport<K, R, P>(cfg: Config, s: Kv<K>, out: Out<K, R, P>): Out<K, R, P> {
    var withSnaps := out + SnapKeys(s.snaps);
    if s.tail.Some? then withSnaps[KvWinEnd := KvRows(LastN(s.tail.value, cfg.win))] else withSnaps
  }

  class KvState<K> {
    const cfg: Config
    var tail: Option<seq<K>>
    var snaps: map<nat, seq<K>>
    var nextPos: nat
    var rows: nat
    var gaps: seq<(nat, nat)>

    ghost function View(): Kv<K>
      reads this
    {
      Kv(tail, snaps, nextPos, rows, gaps)
    }

    constructor (cfg: Config)
      ensures this.cfg == cfg && View() == KvNew()
    {
      this.cfg := cfg;
      tail, snaps, nextPos, rows, gaps := None, map[], 0, 0, [];
    }

    /** The windows of the chunk's boundaries; returns cat(tail, kv) when it had to build it. */
    method RecordSnaps(kv: seq<K>, start: nat) returns (full: Option<seq<K>>)
      requires cfg.Ok()
      modifies `snaps
      ensures snaps == Cuts(tail.GetOr([]) + kv, |tail.GetOr([])|, start,
                            Boundaries(start, start + |kv|, cfg.block), cfg.win, false, old(snaps))
      ensures full.Some? ==> full.value == tail.GetOr([]) + kv
    {
      hide LastN, Cut, Cuts, Boundaries, Max;
      full := None;
      var base: int := 0;
      var bs := Boundaries(start, start + |kv|, cfg.block);
      ghost var held := tail.GetOr([]);
      NoCuts(held + kv, |held|, start, cfg.win, false, snaps);
      for i := 0 to |bs|
        invariant full.Some? ==> full.value == held + kv && base == start - |held|
        invariant snaps == Cuts(held + kv, |held|, start, bs[..i], cfg.win, false, old(snaps))
      {
        var b := bs[i];
        InRange(b, start, start + |kv|, cfg.block);
        CutBranches(held, kv, start, b, cfg.win);
        CutsNext(held + kv, |held|, start, bs, i, cfg.win, false, old(snaps));
        if b - cfg.win >= start {
          snaps := snaps[b := kv[b - cfg.win - start..b - start]];
        } else {
          if full.None? {
            full := Some(if tail.None? then kv else tail.value + kv);
            base := start - (if tail.None? then 0 else |tail.value|);
          }
          var lo := Max(b - cfg.win, base);
          snaps := snaps[b := full.value[lo - base..b - base]];
        }
      }
      assert bs[..|bs|] == bs;
    }

    method Feed(kv: seq<K>, start: nat)
      requires cfg.Ok()
      modifies this
      ensures View() == KvFeed(cfg, old(View()), kv, start)
    {
      hide LastN, Cuts, Boundaries;
      var n := |kv|;
      if start != nextPos {
        gaps := gaps + [(nextPos, start)];
      }
      var full := RecordSnaps(kv, start);
      TailBranches(tail.GetOr([]), kv, cfg.KvTail());
      if n >= cfg.KvTail() || tail.None? {
        tail := Some(LastN(kv, cfg.KvTail()));
      } else {
        if full.None? {
          full := Some(tail.value + kv);
        }
        tail := Some(LastN(full.value, cfg.KvTail()));
      }
      nextPos := start + n;
      rows := rows + n;
    }

    method Seed(seedRows: seq<K>, S: nat)
      modifies this
      ensures View() == KvSeed(cfg, old(View()), seedRows, S)
    {
      tail := Some(LastN(seedRows, cfg.KvTail()));
      nextPos := S;
    }

    method Export<R, P>(out: Out<K, R, P>) returns (res: Out<K, R, P>)
      ensures res == KvExport(cfg, View(), out)
    {
      res := out + SnapKeys(snaps);
      if tail.Some? {
        res := res[KvWinEnd := KvRows(LastN(tail.value, cfg.win))];
      }
    }
  }

  // ---- _PoolState

  datatype Pool<R, P> = Pool(ratio: nat, pooled: seq<seq<P>>, shipped: nat, carry: Option<Carry<R>>,
                             tail: Option<seq<R>>, prev: map<nat, seq<R>>, next: nat, rows: nat, gaps: seq<(nat, nat)>)

  function PoolNew<R, P>(ratio: nat): Pool<R, P> {
    Pool(ratio, [], 0, None, None, map[], 0, 0, [])
  }

  /** The carry pool_layer starts from: a missing one is a new one. */
  function CarryIn<R>(carry: Option<Carry<R>>): Carry<R> {
    carry.GetOr(NewCarry())
  }

  predicate CarryFits<R>(carry: Option<Carry<R>>, ratio: nat) {
    |BufRows(CarryIn(carry))| < ratio && |BufRows(CarryIn(carry))| <= CarryIn(carry).processed
  }

  /** _PoolState.feed without its branches, and whether it returns: when pool_layer raises, the gap and the boundary
      windows have been recorded and nothing else has changed. */
  function PoolFeed<R(!new), L(!new), P(!new)>(cfg: Config, k: Kernel<R, L, P>, s: Pool<R, P>, x: seq<R>, start: nat)
    : (res: (Pool<R, P>, bool))
    requires cfg.Ok() && CarryFits(s.carry, s.ratio)
    ensures CarryFits(res.0.carry, s.ratio) && res.0.ratio == s.ratio
  {
    var held := s.tail.GetOr([]);
    var prev := if s.ratio == 4
                then Cuts(held + x, |held|, start, Boundaries(start, start + |x|, cfg.block), 4, true, s.prev)
                else s.prev;
    var noted := s.(prev := prev, gaps := if start != s.next then s.gaps + [(s.next, start)] else s.gaps);
    var r := PoolLayer(k, s.ratio, x, start, CarryIn(s.carry));
    if r.None? then (noted, false)
    else
      (noted.(pooled := if r.value.0 == [] then s.pooled else s.pooled + [r.value.0], carry := Some(r.value.1),
              tail := Some(LastN(held + x, cfg.PoolTail())), next := start + |x|, rows := s.rows + |x|), true)
  }

  /** _PoolState.seed: the carry as of S, sliced the way Python slices, from raw rows that end at S. */
  function PoolSeed<R, P>(cfg: Config, s: Pool<R, P>, rows: Option<seq<R>>, S: nat): Pool<R, P>
    requires 0 < s.ratio
  {
    if rows.None? then s.(carry := Some(Carry(None, None, S)), next := S)
    else
      var n, rem := |rows.value|, Rem(S, s.ratio);
      var buf := if rem > 0 then Some(PySlice(rows.value, n - rem, n)) else None;
      var prev := if s.ratio == 4 && S - rem >= 4 then Some(PySlice(rows.value, n - rem - 4, n - rem)) else None;
      s.(carry := Some(Carry(buf, prev, S)), tail := Some(LastN(rows.value, cfg.PoolTail())), next := S)
  }

  lemma SeedFits<R, P>(cfg: Config, s: Pool<R, P>, rows: Option<seq<R>>, S: nat)
    requires 0 < s.ratio
    ensures CarryFits(PoolSeed(cfg, s, rows, S).carry, s.ratio)
  {
    hide Off, Count, Rem, LastN;
    Split(S, s.ratio);
  }

  lemma SeedIs<R, P>(cfg: Config, s: Pool<R, P>, rows: seq<R>, S: nat, c: Carry<R>)
    requires 0 < s.ratio && c.processed == S
    requires var n, rem := |rows|, Rem(S, s.ratio);
             && c.buf == (if rem > 0 then Some(PySlice(rows, n - rem, n)) else None)
             && c.prev == if s.ratio == 4 && S - rem >= 4 then Some(PySlice(rows, n - rem - 4, n - rem)) else None
    ensures PoolSeed(cfg, s, Some(rows), S)
            == s.(carry := Some(c), tail := Some(LastN(rows, cfg.PoolTail())), next := S)
  {
    hide PySlice, LastN, Rem;
  }

  lemma SeedNone<R, P>(cfg: Config, s: Pool<R, P>, S: nat)
    requires 0 < s.ratio
    ensures PoolSeed(cfg, s, None, S) == s.(carry := Some(Carry(None, None, S)), next := S)
  {
  }

  /** The list of pooled pieces without its first n rows. */
  function DropRows<P>(ss: seq<seq<P>>, n: nat): seq<seq<P>> {
    if n == 0 || ss == [] then ss
    else if |ss[0]| <= n then DropRows(ss[1..], n - |ss[0]|)
    else [ss[0][n..]] + ss[1..]
  }

  lemma DropNone<P>(ss: seq<seq<P>>)
    ensures DropRows(ss, 0) == ss
  {
  }

  predicate NoneEmpty<P>(ss: seq<seq<P>>) {
    forall i | 0 <= i < |ss| :: ss[i] != []
  }

  lemma {:induction false} DropRowsSpec<P>(ss: seq<seq<P>>, n: nat)
    requires n <= |Flatten(ss)|
    ensures Flatten(DropRows(ss, n)) == Flatten(ss)[n..]
    ensures NoneEmpty(ss) ==> NoneEmpty(DropRows(ss, n))
  {
    if n == 0 || ss == [] {
    } else if |ss[0]| <= n {
      DropRowsSpec(ss[1..], n - |ss[0]|);
      assert Flatten(ss)[n..] == Flatten(ss[1..])[n - |ss[0]|..];
    } else {
      assert ([ss[0][n..]] + ss[1..])[1..] == ss[1..];
      assert Flatten(ss)[n..] == ss[0][n..] + Flatten(ss[1..]);
    }
  }

  /** The list after one round of take_pooled's loop. */
  function PopFront<P>(ss: seq<seq<P>>, n: nat): seq<seq<P>>
    requires ss != []
  {
    if n < |ss[0]| then [ss[0][n..]] + ss[1..] else ss[1..]
  }

  lemma PopFrontSpec<P>(ss: seq<seq<P>>, need: nat)
    requires 0 < need <= |Flatten(ss)|
    ensures ss != []
    ensures var n := Min(|ss[0]|, need);
            && Flatten(ss) == ss[0][..n] + Flatten(PopFront(ss, n))
            && DropRows(ss, need) == DropRows(PopFront(ss, n), need - n)
            && (n == 0 ==> |PopFront(ss, n)| < |ss|)
  {
    var n := Min(|ss[0]|, need);
    if n < |ss[0]| {
      assert PopFront(ss, n)[1..] == ss[1..];
    }
  }

  /** _PoolState.take_pooled, when it does not raise. */
  function PoolTake<R, P>(s: Pool<R, P>, upto: nat): Pool<R, P>
    requires s.shipped <= upto
  {
    s.(pooled := DropRows(s.pooled, upto - s.shipped), shipped := upto)
  }

  function PrevKeys<K, R, P>(kind: Kind, prev: map<nat, seq<R>>): Out<K, R, P> {
    (map b | b in prev :: PrevKv(kind, b) := KvCols(prev[b]))
      + (map b | b in prev :: PrevGate(kind, b) := GateCols(prev[b]))
  }

  /** _PoolState.export for the end position T. tailKey: a streaming capture names what is left `pooled_tail`. */
  function PoolExport<K, R, P>(kind: Kind, s: Pool<R, P>, T: nat, tailKey: bool, out: Out<K, R, P>): Out<K, R, P>
    requires 0 < s.ratio
  {
    var rem := Rem(T, s.ratio);
    var a := if s.pooled == [] then out
             else out[(if tailKey then PooledTail(kind) else Pooled(kind)) := PooledRows(Flatten(s.pooled))];
    var c := if s.tail.None? || rem == 0 then a
             else var buf := PySlice(s.tail.value, |s.tail.value| - rem, |s.tail.value|);
               a[BufKv(kind) := KvCols(buf)][BufGate(kind) := GateCols(buf)];
    var d := if s.ratio == 4 then c + PrevKeys(kind, s.prev) else c;
    if s.ratio == 4 && s.tail.Some? && |s.tail.value| - rem - 4 >= 0 then
      var end := s.tail.value[|s.tail.value| - rem - 4..|s.tail.value| - rem];
      d[PrevKvEnd(kind) := KvCols(end)][PrevGateEnd(kind) := GateCols(end)]
    else d
  }

  class PoolState<R(!new), L(!new), P(!new)> {
    const cfg: Config
    const kernel: Kernel<R, L, P>
    const kind: Kind
    const ratio: nat
    var pooled: seq<seq<P>>
    var shipped: nat
    var carry: Option<Carry<R>>
    var tail: Option<seq<R>>
    var prev: map<nat, seq<R>>
    var nextPos: nat
    var rows: nat
    var gaps: seq<(nat, nat)>

    ghost function View(): Pool<R, P>
      reads this
    {
      Pool(ratio, pooled, shipped, carry, tail, prev, nextPos, rows, gaps)
    }

    ghost predicate Valid()
      reads this
    {
      cfg.Ok() && CarryFits(carry, ratio)
    }

    constructor (cfg: Config, kernel: Kernel<R, L, P>, kind: Kind, ratio: nat)
      requires cfg.Ok() && 0 < ratio
      ensures Valid() && this.cfg == cfg && this.kernel == kernel && this.kind == kind && View() == PoolNew(ratio)
    {
      this.cfg, this.kernel, this.kind, this.ratio := cfg, kernel, kind, ratio;
      pooled, shipped, carry, tail, prev, nextPos, rows, gaps := [], 0, None, None, map[], 0, 0, [];
    }

    /** Records the boundary windows of a ratio-4 chunk; returns cat(tail, x) when it had to build it. */
    method RecordPrev(x: seq<R>, start: nat) returns (full: Option<seq<R>>)
      requires Valid() && ratio == 4
      modifies `prev
      ensures prev == Cuts(tail.GetOr([]) + x, |tail.GetOr([])|, start,
                           Boundaries(start, start + |x|, cfg.block), 4, true, old(prev))
      ensures full.Some? ==> full.value == tail.GetOr([]) + x
    {
      hide LastN, Cut, Cuts, Boundaries, Max;
      full := None;
      var base: int := 0;
      var bs := Boundaries(start, start + |x|, cfg.block);
      ghost var held := tail.GetOr([]);
      NoCuts(held + x, |held|, start, 4, true, prev);
      for i := 0 to |bs|
        invariant full.Some? ==> full.value == held + x && base == start - |held|
        invariant prev == Cuts(held + x, |held|, start, bs[..i], 4, true, old(prev))
      {
        var b := bs[i];
        InRange(b, start, start + |x|, cfg.block);
        CutBranches(held, x, start, b, 4);
        CutsNext(held + x, |held|, start, bs, i, 4, true, old(prev));
        if b - 4 >= start {
          prev := prev[b := x[b - 4 - start..b - start]];
        } else {
          if full.None? {
            full := Some(if tail.None? then x else tail.value + x);
            base := start - (if tail.None? then 0 else |tail.value|);
          }
          if b - 4 >= base {
            MaxLeft(b - 4, base);
            prev := prev[b := full.value[b - 4 - base..b - base]];
          }
        }
      }
      assert bs[..|bs|] == bs;
    }

    /** The rolling tail, from the chunk alone when that is long enough. */
    method Roll(x: seq<R>, built: Option<seq<R>>)
      requires built.Some? ==> built.value == tail.GetOr([]) + x
      modifies `tail
      ensures tail == Some(LastN(old(tail).GetOr([]) + x, cfg.PoolTail()))
    {
      hide LastN;
      TailBranches(tail.GetOr([]), x, cfg.PoolTail());
      if |x| >= cfg.PoolTail() || tail.None? {
        tail := Some(LastN(x, cfg.PoolTail()));
      } else if built.Some? {
        tail := Some(LastN(built.value, cfg.PoolTail()));
      } else {
        tail := Some(LastN(tail.value + x, cfg.PoolTail()));
      }
    }

    method Feed(x: seq<R>, start: nat) returns (ok: bool)
      requires Valid()
      modifies this
      ensures Valid() && (View(), ok) == PoolFeed(cfg, kernel, old(View()), x, start)
    {
      hide LastN, Cuts, Boundaries, PoolLayer;
      if start != nextPos {
        gaps := gaps + [(nextPos, start)];
      }
      var full: Option<seq<R>> := None;
      if ratio == 4 {
        full := RecordPrev(x, start);
      }
      var r := PoolLayer(kernel, ratio, x, start, CarryIn(carry));
      if r.None? {
        return false;
      }
      var pooledNew, next := r.value.0, r.value.1;
      carry := Some(next);
      if pooledNew != [] {
        pooled := pooled + [pooledNew];
      }
      Roll(x, full);
      nextPos := start + |x|;
      rows := rows + |x|;
      return true;
    }

    method Seed(seedRows: Option<seq<R>>, S: nat)
      requires Valid()
      modifies this
      ensures Valid() && View() == PoolSeed(cfg, old(View()), seedRows, S)
    {
      assert 0 < ratio;
      hide PySlice, LastN, Rem, CarryFits, PoolSeed;
      SeedFits(cfg, View(), seedRows, S);
      if seedRows.None? {
        SeedNone(cfg, View(), S);
        carry, nextPos := Some(Carry(None, None, S)), S;
        return;
      }
      var n, rem := |seedRows.value|, Rem(S, ratio);
      var buf, window: Option<seq<R>> := None, None;
      if rem != 0 {
        buf := Some(PySlice(seedRows.value, n - rem, n));
      }
      if ratio == 4 && S - rem >= 4 {
        window := Some(PySlice(seedRows.value, n - rem - 4, n - rem));
      }
      SeedIs(cfg, View(), seedRows.value, S, Carry(buf, window, S));
      carry := Some(Carry(buf, window, S));
      tail := Some(LastN(seedRows.value, cfg.PoolTail()));
      nextPos := S;
    }

    function PooledRowCount(): nat
      reads this
    {
      shipped + SumLen(pooled)
    }

    /** Detaches pooled rows [shipped, upto); None is the ValueError, which changes nothing. */
    method TakePooled(upto: nat) returns (got: Option<seq<P>>)
      modifies this
      ensures got.Some? <==> old(shipped) <= upto <= old(shipped) + |Flatten(old(pooled))|
      ensures got.Some? ==>
                got.value == Flatten(old(pooled))[..upto - old(shipped)] && View() == PoolTake(old(View()), upto)
      ensures got.None? ==> View() == old(View())
    {
      hide Flatten, DropRows, PopFront;
      FlattenLen(pooled);
      if upto < shipped || upto > PooledRowCount() {
        return None;
      }
      var need := upto - shipped;
      var rows: seq<P> := [];
      ghost var all := Flatten(pooled);
      while |rows| < need
        invariant |rows| <= need <= |rows| + |Flatten(pooled)|
        invariant rows + Flatten(pooled) == all
        invariant DropRows(pooled, need - |rows|) == DropRows(old(pooled), need)
        invariant unchanged(`shipped) && unchanged(`carry) && unchanged(`tail) && unchanged(`prev)
                  && unchanged(`nextPos) && unchanged(`rows) && unchanged(`gaps)
        decreases need - |rows|, |pooled|
      {
        PopFrontSpec(pooled, need - |rows|);
        var p := pooled[0];
        var n := Min(|p|, need - |rows|);
        pooled := PopFront(pooled, n);
        rows := rows + p[..n];
      }
      DropNone(pooled);
      shipped := upto;
      return Some(rows);
    }

    method Export<K>(out: Out<K, R, P>, T: nat, tailKey: bool) returns (res: Out<K, R, P>)
      requires Valid()
      ensures res == PoolExport(kind, View(), T, tailKey, out)
    {
      hide Rem, PySlice, Flatten, PrevKeys;
      res := out;
      if pooled != [] {
        res := res[(if tailKey then PooledTail(kind) else Pooled(kind)) := PooledRows(Flatten(pooled))];
      }
      var rem := Rem(T, ratio);
      var end: Option<seq<R>> := None;
      if tail.Some? {
        var tl := |tail.value|;
        if rem != 0 {
          var buf := PySlice(tail.value, tl - rem, tl);
          res := res[BufKv(kind) := KvCols(buf)];
          res := res[BufGate(kind) := GateCols(buf)];
        }
        if ratio == 4 {
          var lo, hi := tl - rem - 4, tl - rem;
          if lo >= 0 {
            end := Some(tail.value[lo..hi]);
          }
        }
      }
      if ratio == 4 {
        res := res + PrevKeys(kind, prev);
        if end.Some? {
          res := res[PrevKvEnd(kind) := KvCols(end.value)];
          res := res[PrevGateEnd(kind) := GateCols(end.value)];
        }
      }
    }
  }
}
