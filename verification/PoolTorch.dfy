/** spark/pd_pool_torch.py: pooling of raw kv_score rows into one compressed row per window of `ratio` tokens.
    A row is opaque, and so is the arithmetic of one window (softmax, weighted sum, rmsnorm, rope angles): it lives in a
    Kernel. Which rows, whose lane A and which absolute window index reach it is modelled as the code does it.
    kv and gate are the two column halves of the same rows and always move together, so the model keeps whole rows. */
module PoolTorch {
  import opened Blocks
  import opened Seqs

  /** laneA: what the next window reads of a window. overlap: 2*ratio-row attention over the previous window's lane A
      (None: the zero / -inf rows of the first window) and the current window. place: rmsnorm, then rope at a
      position. */
  datatype Kernel<!R(!new), !L(!new), !P(!new)> = Kernel(
    laneA: seq<R> -> L,
    overlap: (Option<L>, seq<R>) -> P,
    simple: seq<R> -> P,
    place: (P, nat) -> P)

  /** The carry dictionary: remainder rows, the last complete window (ratio 4), the next position. */
  datatype Carry<R> = Carry(buf: Option<seq<R>>, prev: Option<seq<R>>, processed: nat)

  function NewCarry<R>(): Carry<R> {
    Carry(None, None, 0)
  }

  /** torch's reshape(count, ratio, out_dim). */
  function Reshape<T>(h: seq<T>, ratio: nat, count: nat): (w: seq<seq<T>>)
    requires Off(count, ratio) <= |h|
    ensures |w| == count
  {
    seq(count, i requires 0 <= i < count => OffMonotone(i + 1, count, ratio); h[Off(i, ratio)..Off(i + 1, ratio)])
  }

  /** overlap_compress: the lane A column is shifted down by one window. */
  function OverlapCompress<R(!new), L(!new), P(!new)>(k: Kernel<R, L, P>, ws: seq<seq<R>>): (out: seq<P>)
    requires 1 <= |ws|
    ensures |out| == |ws|
  {
    var lanes := seq(|ws|, i requires 0 <= i < |ws| => Some(k.laneA(ws[i])));
    var shifted := [None] + lanes[..|lanes| - 1];
    seq(|ws|, i requires 0 <= i < |ws| => k.overlap(shifted[i], ws[i]))
  }

  function SimpleCompress<R(!new), L(!new), P(!new)>(k: Kernel<R, L, P>, ws: seq<seq<R>>): (out: seq<P>)
    ensures |out| == |ws|
  {
    seq(|ws|, i requires 0 <= i < |ws| => k.simple(ws[i]))
  }

  /** rmsnorm, then rope: row i lands at position base // freq_scale + i, with freq_scale == ratio. */
  function Place<R(!new), L(!new), P(!new)>(k: Kernel<R, L, P>, ratio: nat, raw: seq<P>, base: nat): (out: seq<P>)
    requires 0 < ratio
    ensures |out| == |raw|
  {
    seq(|raw|, i requires 0 <= i < |raw| => k.place(raw[i], Count(base, ratio) + i))
  }

  /** The windows of one call; for ratio 4 the carried window goes in front and its own output row is dropped. */
  function RawPool<R(!new), L(!new), P(!new)>(k: Kernel<R, L, P>, ratio: nat, prev: Option<seq<R>>,
                                              ws: seq<seq<R>>): (raw: seq<P>)
    requires 1 <= |ws|
    ensures |raw| == |ws|
  {
    if ratio != 4 then SimpleCompress(k, ws)
    else if prev.Some? then OverlapCompress(k, [prev.value] + ws)[1..]
    else OverlapCompress(k, ws)
  }

  function BufRows<R>(c: Carry<R>): seq<R> {
    c.buf.GetOr([])
  }

  /** pool_layer: the pooled rows completed by x, and the next carry. None is a Python exception: the assertion on
      `processed`, or torch.cat on a previous window that does not have `ratio` rows. */
  function PoolLayer<R(!new), L(!new), P(!new)>(k: Kernel<R, L, P>, ratio: nat, x: seq<R>, start: nat, c: Carry<R>)
    : (res: Option<(seq<P>, Carry<R>)>)
    requires 0 < ratio && |BufRows(c)| < ratio && |BufRows(c)| <= c.processed
    ensures res.Some? ==> |BufRows(res.value.1)| < ratio && |BufRows(res.value.1)| <= res.value.1.processed
    ensures res.Some? ==> res.value.1.processed == start + |x| && c.processed == start
  {
    var rem := |BufRows(c)|;
    var total := rem + |x|;
    var count := Count(total, ratio);
    var usable := Off(count, ratio);
    var newRem := Rem(total, ratio);
    Split(total, ratio);
    if c.processed != start then
      None
    else if usable == 0 then
      var nb := BufRows(c) + x;
      Some(([], Carry(if nb == [] then None else Some(nb), c.prev, start + |x|)))
    else
      OffMonotone(1, count, ratio);
      var ws := Reshape(BufRows(c) + x[..usable - rem], ratio, count);
      var nb := if newRem > 0 then Some(x[|x| - newRem..]) else None;
      if ratio == 4 && c.prev.Some? && |c.prev.value| != ratio then
        None
      else
        Some((Place(k, ratio, RawPool(k, ratio, c.prev, ws), start - rem),
              Carry(nb, if ratio == 4 then Some(ws[count - 1]) else c.prev, start + |x|)))
  }

  // ---- The meaning: one pooled row per complete window of the whole prompt, addressed by absolute window index.

  /** Rows of absolute window w. */
  function Window<R>(ratio: nat, rows: seq<R>, w: nat): (win: seq<R>)
    requires Off(w + 1, ratio) <= |rows|
    ensures |win| == ratio
  {
    rows[Off(w, ratio)..Off(w + 1, ratio)]
  }

  /** The pooled row of absolute window w. */
  function PooledAt<R(!new), L(!new), P(!new)>(k: Kernel<R, L, P>, ratio: nat, rows: seq<R>, w: nat): P
    requires 0 < ratio && Off(w + 1, ratio) <= |rows|
  {
    var before := if w == 0 then None else Some(k.laneA(Window(ratio, rows, w - 1)));
    k.place(if ratio == 4 then k.overlap(before, Window(ratio, rows, w)) else k.simple(Window(ratio, rows, w)), w)
  }

  function PooledSpec<R(!new), L(!new), P(!new)>(k: Kernel<R, L, P>, ratio: nat, rows: seq<R>): (out: seq<P>)
    requires 0 < ratio
    ensures |out| == Count(|rows|, ratio)
  {
    seq(Count(|rows|, ratio), w requires 0 <= w < Count(|rows|, ratio) =>
      Fits(w + 1, |rows|, ratio); PooledAt(k, ratio, rows, w))
  }

  /** The last complete window of a ratio-4 prompt. */
  function LastWindow<R>(ratio: nat, rows: seq<R>): Option<seq<R>>
    requires 0 < ratio
  {
    Split(|rows|, ratio);
    if ratio == 4 && Count(|rows|, ratio) > 0 then Some(Window(ratio, rows, Count(|rows|, ratio) - 1)) else None
  }

  /** The rows after the last window boundary. */
  function Remainder<R>(ratio: nat, rows: seq<R>): (buf: seq<R>)
    requires 0 < ratio
    ensures |buf| == Rem(|rows|, ratio)
  {
    Split(|rows|, ratio);
    rows[Off(Count(|rows|, ratio), ratio)..]
  }

  /** The carry after the whole prefix `rows`. */
  function CarrySpec<R>(ratio: nat, rows: seq<R>): (c: Carry<R>)
    requires 0 < ratio
    ensures BufRows(c) == Remainder(ratio, rows) && |BufRows(c)| < ratio && |BufRows(c)| <= c.processed
  {
    Split(|rows|, ratio);
    var buf := Remainder(ratio, rows);
    Carry(if buf == [] then None else Some(buf), LastWindow(ratio, rows), |rows|)
  }

  // ---- Chunk independence.

  lemma PooledPrefix<R(!new), L(!new), P(!new)>(k: Kernel<R, L, P>, ratio: nat, h: seq<R>, x: seq<R>)
    requires 0 < ratio
    ensures Count(|h|, ratio) <= Count(|h + x|, ratio)
    ensures PooledSpec(k, ratio, h) == PooledSpec(k, ratio, h + x)[..Count(|h|, ratio)]
  {
    CountMonotone(|h|, |h + x|, ratio);
    forall w | 0 <= w < Count(|h|, ratio)
      ensures Off(w + 1, ratio) <= |h| && PooledAt(k, ratio, h, w) == PooledAt(k, ratio, h + x, w)
    {
      Fits(w + 1, |h|, ratio);
      assert Window(ratio, h, w) == Window(ratio, h + x, w);
      if w > 0 {
        assert Window(ratio, h, w - 1) == Window(ratio, h + x, w - 1);
      }
    }
  }

  /** Where a call's windows sit: its reshaped row i is absolute window q + i of the prompt. */
  lemma ReshapedWindow<R>(ratio: nat, rows: seq<R>, q: nat, count: nat, i: nat)
    requires Off(q, ratio) + Off(count, ratio) <= |rows| && i < count
    ensures Off(q + i + 1, ratio) <= |rows|
    ensures Reshape(rows[Off(q, ratio)..][..Off(count, ratio)], ratio, count)[i] == Window(ratio, rows, q + i)
  {
    hide Off;
    OffMonotone(i + 1, count, ratio);
    OffMonotone(i, i + 1, ratio);
    OffAdd(q, i, ratio);
    OffAdd(q, i + 1, ratio);
    SliceOfSlice(rows[Off(q, ratio)..], 0, Off(count, ratio), Off(i, ratio), Off(i + 1, ratio));
    SliceOfSlice(rows, Off(q, ratio), |rows|, Off(i, ratio), Off(i + 1, ratio));
  }

  /** Lane A of a shifted column: window i reads window i - 1, the first one nothing. */
  lemma OverlapAt<R(!new), L(!new), P(!new)>(k: Kernel<R, L, P>, ws: seq<seq<R>>, i: nat)
    requires i < |ws|
    ensures OverlapCompress(k, ws)[i] == k.overlap(if i == 0 then None else Some(k.laneA(ws[i - 1])), ws[i])
  {
    var lanes := seq(|ws|, i requires 0 <= i < |ws| => Some(k.laneA(ws[i])));
    var shifted := [None] + lanes[..|lanes| - 1];
    if 0 < i {
      assert shifted[i] == lanes[i - 1];
    }
  }

  /** The lane shift and `[1:]`: with the previous window in front, window i pools with lane A of window q + i - 1. */
  lemma PoolsAt<R(!new), L(!new), P(!new)>(k: Kernel<R, L, P>, ratio: nat, rows: seq<R>, q: nat, ws: seq<seq<R>>,
                                           i: nat)
    requires 0 < ratio && i < |ws| && Off(q + |ws|, ratio) <= |rows| && Off(q + i + 1, ratio) <= |rows|
    requires Off(q, ratio) <= |rows|
    requires ws[i] == Window(ratio, rows, q + i)
    requires 0 < i ==> ws[i - 1] == Window(ratio, rows, q + i - 1)
    ensures var prev := if ratio == 4 && q > 0 then Some(Window(ratio, rows, q - 1)) else None;
            k.place(RawPool(k, ratio, prev, ws)[i], q + i) == PooledAt(k, ratio, rows, q + i)
  {
    hide Window, OverlapCompress, Off;
    if ratio == 4 {
      OverlapAt(k, ws, i);
      if 0 < q {
        var all := [Window(ratio, rows, q - 1)] + ws;
        OverlapAt(k, all, i + 1);
        assert all[i + 1] == ws[i] && all[i] == if i == 0 then Window(ratio, rows, q - 1) else ws[i - 1];
        assert OverlapCompress(k, all)[1..][i] == OverlapCompress(k, all)[i + 1];
      }
    }
  }

  lemma CallPoolsAt<R(!new), L(!new), P(!new)>(k: Kernel<R, L, P>, ratio: nat, rows: seq<R>, q: nat, count: nat, i: nat)
    requires 0 < ratio && 0 < count && i < count
    requires Off(q, ratio) + Off(count, ratio) <= |rows| && Off(q + count, ratio) <= |rows| && Off(q, ratio) <= |rows|
    ensures Off(q + i + 1, ratio) <= |rows|
    ensures var prev := if ratio == 4 && q > 0 then Some(Window(ratio, rows, q - 1)) else None;
            var ws := Reshape(rows[Off(q, ratio)..][..Off(count, ratio)], ratio, count);
            k.place(RawPool(k, ratio, prev, ws)[i], q + i) == PooledAt(k, ratio, rows, q + i)
  {
    hide RawPool, PooledAt, Off, Reshape, Window;
    ReshapedWindow(ratio, rows, q, count, i);
    if 0 < i {
      ReshapedWindow(ratio, rows, q, count, i - 1);
    }
    PoolsAt(k, ratio, rows, q, Reshape(rows[Off(q, ratio)..][..Off(count, ratio)], ratio, count), i);
  }

  lemma CallPools<R(!new), L(!new), P(!new)>(k: Kernel<R, L, P>, ratio: nat, rows: seq<R>, q: nat, count: nat)
    requires 0 < ratio && 0 < count && q + count == Count(|rows|, ratio)
    requires Off(q, ratio) + Off(count, ratio) <= |rows| && Off(q + count, ratio) <= |rows|
    ensures var prev := if ratio == 4 && q > 0 then Some(Window(ratio, rows, q - 1)) else None;
            var ws := Reshape(rows[Off(q, ratio)..][..Off(count, ratio)], ratio, count);
            Place(k, ratio, RawPool(k, ratio, prev, ws), Off(q, ratio)) == PooledSpec(k, ratio, rows)[q..]
  {
    hide RawPool, PooledAt, Off, Reshape, Window, Count;
    var prev := if ratio == 4 && q > 0 then Some(Window(ratio, rows, q - 1)) else None;
    var ws := Reshape(rows[Off(q, ratio)..][..Off(count, ratio)], ratio, count);
    Unique(q, 0, ratio);
    forall i | 0 <= i < count
      ensures Off(q + i + 1, ratio) <= |rows|
      ensures k.place(RawPool(k, ratio, prev, ws)[i], q + i) == PooledAt(k, ratio, rows, q + i)
    {
      CallPoolsAt(k, ratio, rows, q, count, i);
    }
  }

  lemma RemainderExtends<R>(ratio: nat, h: seq<R>, x: seq<R>)
    requires 0 < ratio
    ensures Off(Count(|h|, ratio), ratio) <= |h|
    ensures Remainder(ratio, h) + x == (h + x)[Off(Count(|h|, ratio), ratio)..]
  {
    Split(|h|, ratio);
  }

  /** A chunk that completes no window leaves the last window alone. */
  lemma SameLastWindow<R>(ratio: nat, h: seq<R>, x: seq<R>)
    requires 0 < ratio && Count(|h + x|, ratio) == Count(|h|, ratio)
    ensures LastWindow(ratio, h) == LastWindow(ratio, h + x)
  {
    Split(|h|, ratio);
    var q := Count(|h|, ratio);
    if ratio == 4 && q > 0 {
      OffMonotone(q - 1, q, ratio);
      assert Window(ratio, h, q - 1) == Window(ratio, h + x, q - 1);
    }
  }

  lemma ShortCall<R(!new), L(!new), P(!new)>(k: Kernel<R, L, P>, ratio: nat, x: seq<R>, c: Carry<R>)
    requires 0 < ratio && |BufRows(c)| < ratio && |BufRows(c)| <= c.processed
    requires Count(|BufRows(c)| + |x|, ratio) == 0
    ensures var nb := BufRows(c) + x;
            PoolLayer(k, ratio, x, c.processed, c)
              == Some(([], Carry(if nb == [] then None else Some(nb), c.prev, c.processed + |x|)))
  {
    hide RawPool, Place, Reshape, Count, Rem;
  }

  lemma RemainderIs<R>(ratio: nat, h: seq<R>)
    requires 0 < ratio
    ensures Off(Count(|h|, ratio), ratio) <= |h| && Remainder(ratio, h) == h[Off(Count(|h|, ratio), ratio)..]
  {
    Split(|h|, ratio);
  }

  lemma StepWithin<R(!new), L(!new), P(!new)>(k: Kernel<R, L, P>, ratio: nat, h: seq<R>, x: seq<R>)
    requires 0 < ratio && Count(Rem(|h|, ratio) + |x|, ratio) == 0
    ensures PoolLayer(k, ratio, x, |h|, CarrySpec(ratio, h)) == Some(([], CarrySpec(ratio, h + x)))
  {
    hide LastWindow, PoolLayer, Remainder, Count, Off, Rem;
    Extend(|h|, |x|, ratio);
    RemainderExtends(ratio, h, x);
    RemainderIs(ratio, h + x);
    SameLastWindow(ratio, h, x);
    ShortCall(k, ratio, x, CarrySpec(ratio, h));
  }

  lemma StepAcross<R(!new), L(!new), P(!new)>(k: Kernel<R, L, P>, ratio: nat, h: seq<R>, x: seq<R>, count: nat)
    requires 0 < ratio && count == Count(Rem(|h|, ratio) + |x|, ratio) > 0
    ensures Off(Count(|h|, ratio), ratio) + Off(count, ratio) <= |h + x|
    ensures var o := Off(Count(|h|, ratio), ratio);
            var ws := Reshape((h + x)[o..][..Off(count, ratio)], ratio, count);
            PoolLayer(k, ratio, x, |h|, CarrySpec(ratio, h))
            == Some((Place(k, ratio, RawPool(k, ratio, LastWindow(ratio, h), ws), o), CarrySpec(ratio, h + x)))
  {
    hide Place, RawPool, Reshape, Count, Off, Rem;
    var q, rem := Count(|h|, ratio), Rem(|h|, ratio);
    Extend(|h|, |x|, ratio);
    Split(|h|, ratio);
    Split(rem + |x|, ratio);
    Split(|h + x|, ratio);
    OneBlock(ratio);
    OffMonotone(1, count, ratio);
    OffAdd(q, count, ratio);
    RemainderExtends(ratio, h, x);
    var take := Off(count, ratio) - rem;
    assert Remainder(ratio, h) + x[..take] == (Remainder(ratio, h) + x)[..Off(count, ratio)];
    var newRem := Rem(rem + |x|, ratio);
    assert x[|x| - newRem..] == Remainder(ratio, h + x);
    ReshapedWindow(ratio, h + x, q, count, count - 1);
  }

  /** One call continues the meaning: from the carry of h, feeding x yields exactly the next windows of h + x. */
  lemma PoolStep<R(!new), L(!new), P(!new)>(k: Kernel<R, L, P>, ratio: nat, h: seq<R>, x: seq<R>)
    requires 0 < ratio
    ensures Count(|h|, ratio) <= Count(|h + x|, ratio)
    ensures PoolLayer(k, ratio, x, |h|, CarrySpec(ratio, h))
         == Some((PooledSpec(k, ratio, h + x)[Count(|h|, ratio)..], CarrySpec(ratio, h + x)))
  {
    hide RawPool, PoolLayer, PooledAt, Place, Count, Off, Rem;
    var rows, q := h + x, Count(|h|, ratio);
    var count := Count(Rem(|h|, ratio) + |x|, ratio);
    Extend(|h|, |x|, ratio);
    if count == 0 {
      StepWithin(k, ratio, h, x);
      assert PooledSpec(k, ratio, rows)[q..] == [];
    } else {
      Split(|rows|, ratio);
      Split(|h|, ratio);
      StepAcross(k, ratio, h, x, count);
      if q > 0 {
        OffMonotone(q - 1, q, ratio);
        assert Window(ratio, h, q - 1) == Window(ratio, rows, q - 1);
      }
      CallPools(k, ratio, rows, q, count);
    }
  }

  lemma Nothing<R(!new), L(!new), P(!new)>(k: Kernel<R, L, P>, ratio: nat)
    requires 0 < ratio
    ensures PooledSpec(k, ratio, []) == [] && CarrySpec<R>(ratio, []) == NewCarry()
  {
  }

  /** PoolStep for the next n rows of a longer prompt. */
  lemma PoolNext<R(!new), L(!new), P(!new)>(k: Kernel<R, L, P>, ratio: nat, rows: seq<R>, pos: nat, n: nat)
    requires 0 < ratio && pos + n <= |rows|
    ensures var r := PoolLayer(k, ratio, rows[pos..pos + n], pos, CarrySpec(ratio, rows[..pos]));
            && r.Some? && r.value.1 == CarrySpec(ratio, rows[..pos + n])
            && PooledSpec(k, ratio, rows[..pos]) + r.value.0 == PooledSpec(k, ratio, rows[..pos + n])
  {
    hide PoolLayer, PooledAt;
    var h, x := rows[..pos], rows[pos..pos + n];
    assert h + x == rows[..pos + n];
    PoolStep(k, ratio, h, x);
    PooledPrefix(k, ratio, h, x);
  }

  function Sum(lens: seq<nat>): nat {
    if lens == [] then 0 else Sum(lens[..|lens| - 1]) + lens[|lens| - 1]
  }

  lemma {:induction false} SumPrefix(lens: seq<nat>, i: nat)
    requires i <= |lens|
    ensures Sum(lens[..i]) <= Sum(lens)
  {
    if i < |lens| {
      SumPrefix(lens[..|lens| - 1], i);
      assert lens[..|lens| - 1][..i] == lens[..i];
    } else {
      assert lens[..i] == lens;
    }
  }

  lemma SumNone()
    ensures Sum([]) == 0
  {
  }

  lemma SumNext(lens: seq<nat>, i: nat)
    requires i < |lens|
    ensures Sum(lens[..i + 1]) == Sum(lens[..i]) + lens[i]
  {
    assert lens[..i + 1][..i] == lens[..i];
  }

  lemma PlainSlice<T>(s: seq<T>, lo: nat, hi: nat)
    ensures lo <= hi <= |s| ==> PySlice(s, lo, hi) == s[lo..hi]
  {
  }

  /** After i chunks the loop holds the pooled rows and the carry of their rows. */
  ghost predicate SoFar<R(!new), L(!new), P(!new)>(k: Kernel<R, L, P>, rows: seq<R>, lens: seq<nat>, ratio: nat,
                                                   i: nat, pos: nat, outs: seq<P>, carry: Carry<R>)
    requires 0 < ratio
  {
    i <= |lens| && pos == Sum(lens[..i]) <= |rows| && outs == PooledSpec(k, ratio, rows[..pos])
      && carry == CarrySpec(ratio, rows[..pos])
  }

  lemma SoFarStart<R(!new), L(!new), P(!new)>(k: Kernel<R, L, P>, rows: seq<R>, lens: seq<nat>, ratio: nat)
    requires 0 < ratio
    ensures SoFar(k, rows, lens, ratio, 0, 0, [], NewCarry())
  {
    hide PooledSpec, CarrySpec;
    Nothing(k, ratio);
    SumNone();
    assert rows[..0] == [] && lens[..0] == [];
  }

  lemma SoFarNext<R(!new), L(!new), P(!new)>(k: Kernel<R, L, P>, rows: seq<R>, lens: seq<nat>, ratio: nat, i: nat,
                                             pos: nat, outs: seq<P>, carry: Carry<R>)
    requires 0 < ratio && i < |lens| && Sum(lens) <= |rows| && SoFar(k, rows, lens, ratio, i, pos, outs, carry)
    ensures |BufRows(carry)| < ratio && |BufRows(carry)| <= carry.processed
    ensures var r := PoolLayer(k, ratio, PySlice(rows, pos, pos + lens[i]), pos, carry);
            r.Some? && SoFar(k, rows, lens, ratio, i + 1, pos + lens[i], outs + r.value.0, r.value.1)
  {
    hide PoolLayer, PooledSpec, CarrySpec, Sum, PySlice;
    SumNext(lens, i);
    SumPrefix(lens, i + 1);
    PlainSlice(rows, pos, pos + lens[i]);
    PoolNext(k, ratio, rows, pos, lens[i]);
  }

  lemma SoFarEnd<R(!new), L(!new), P(!new)>(k: Kernel<R, L, P>, rows: seq<R>, lens: seq<nat>, ratio: nat, pos: nat,
                                            outs: seq<P>, carry: Carry<R>)
    requires 0 < ratio && Sum(lens) <= |rows| && SoFar(k, rows, lens, ratio, |lens|, pos, outs, carry)
    ensures outs == PooledSpec(k, ratio, rows[..Sum(lens)]) && carry == CarrySpec(ratio, rows[..Sum(lens)])
  {
    assert lens[..|lens|] == lens;
  }

  /** pool_chunks: consecutive chunks of the given lengths give the pooled rows and the carry of one whole call. A call
      that starts past 0 trips the first pool_layer assertion, because it starts from a new carry. */
  method PoolChunks<R(!new), L(!new), P(!new)>(k: Kernel<R, L, P>, rows: seq<R>, lens: seq<nat>, ratio: nat,
                                               startPos: nat)
    returns (res: Option<(seq<P>, Carry<R>)>)
    requires 0 < ratio
    ensures startPos > 0 || lens == [] ==> res.None?
    ensures startPos == 0 && lens != [] && Sum(lens) <= |rows| ==>
              res == Some((PooledSpec(k, ratio, rows[..Sum(lens)]), CarrySpec(ratio, rows[..Sum(lens)])))
  {
    hide PoolLayer, PooledSpec, CarrySpec, Sum, PySlice, SoFar;
    SoFarStart(k, rows, lens, ratio);
    ghost var fits := startPos == 0 && Sum(lens) <= |rows|;
    var carry: Carry<R> := NewCarry();
    var outs: seq<P> := [];
    var pos := startPos;
    var i := 0;
    while i < |lens|
      invariant 0 <= i <= |lens| && startPos <= pos
      invariant 0 < i ==> startPos == 0
      invariant i == 0 ==> carry.processed == 0 && pos == startPos
      invariant |BufRows(carry)| < ratio && |BufRows(carry)| <= carry.processed
      invariant fits ==> SoFar(k, rows, lens, ratio, i, pos, outs, carry)
    {
      var n := lens[i];
      if fits {
        SoFarNext(k, rows, lens, ratio, i, pos, outs, carry);
      }
      var r := PoolLayer(k, ratio, PySlice(rows, pos - startPos, pos - startPos + n), pos, carry);
      if r.None? {
        return None;
      }
      outs, carry := outs + r.value.0, r.value.1;
      pos := pos + n;
      i := i + 1;
    }
    if lens == [] {
      return None;
    }
    if fits {
      SoFarEnd(k, rows, lens, ratio, pos, outs, carry);
    }
    return Some((outs, carry));
  }
}
