/** KV return over a conversation: every turn resumes from what the turn before it saved, feeds the rest of its
    prompt, and is merged with its parent. How far back the saved tails still reach depends on the longest prompt so
    far, not on the last. */
module KvChain {
  import opened Blocks
  import opened Seqs
  import opened PoolTorch
  import opened CaptureState
  import opened CaptureSpec
  import opened Layer
  import opened KvReturn

  /** What a turn leaves behind: the merged layer file on the decoder and the saved tails on the prefill side. */
  datatype Parent<K, R, P> = Parent(out: Out<K, R, P>, saved: Saved<K, R>)

  /** The next request: the engine recomputes from S on, in these chunks. Its prompt is the parent's up to S, then
      them. */
  datatype Turn<K, R> = Turn(S: nat, chunks: seq<Rows<K, R>>)

  /** The file is, key for key, that of one capture of h. */
  ghost predicate FileMeans<K, R(!new), L(!new), P(!new)>(lc: LayerCfg<R, L, P>, out: Out<K, R, P>, h: Rows<K, R>)
    requires lc.Ok()
  {
    forall key :: Lookup(out, key) == LayerAt(lc, h, 0, false, key)
  }

  /** A right file of h, and saved tails that are cut as those of a prompt of M rows, the longest so far. */
  ghost predicate ParentOf<K, R(!new), L(!new), P(!new)>(lc: LayerCfg<R, L, P>, p: Parent<K, R, P>, h: Rows<K, R>,
                                                         M: nat) {
    && lc.Ok() && h.Ok() && 0 < h.Len() <= M
    && Tails(lc, p.saved, h, TailBase(M, lc.cfg.KvTail()), TailBase(M, lc.cfg.PoolTail()))
    && FileMeans(lc, p.out, h)
  }

  ghost function Merge<K, R, P>(par: Out<K, R, P>, new': Out<K, R, P>, S: nat, ratio: nat): (out: Out<K, R, P>)
    ensures forall key :: Lookup(out, key) == MergedAt(par, new', S, ratio, key)
  {
    map key | key in par.Keys + new'.Keys && MergedAt(par, new', S, ratio, key).Some? ::
        MergedAt(par, new', S, ratio, key).value
  }

  lemma NewFits<K, R(!new), L(!new), P(!new)>(lc: LayerCfg<R, L, P>)
    requires lc.Ok()
    ensures CarriesFit(NewState<K, R, L, P>(lc))
  {
    NewInv<K, R, L, P>(lc);
    InvCarriesFit(lc, NewState<K, R, L, P>(lc), Rows([], [], []), 0, 0, 0);
  }

  ghost function Finish<K, R(!new), L(!new), P(!new)>(lc: LayerCfg<R, L, P>, run: (State<K, R, P>, bool),
                                                      par: Out<K, R, P>, S: nat)
    : Option<Parent<K, R, P>>
  {
    var (s, ok) := run;
    if !ok || (s.main.Some? && s.main.value.ratio == 0) || (s.idx.Some? && s.idx.value.ratio == 0) then None
    else
      var T := s.kv.next;
      var out := Export(lc.cfg, s, T, false);
      Some(Parent(if S == 0 then out else Merge(par, out, S, lc.ratio), Save(s, T)))
  }

  /** The first capture of a conversation. */
  ghost function FirstTurn<K, R(!new), L(!new), P(!new)>(lc: LayerCfg<R, L, P>,
                                                         chunks: seq<Rows<K, R>>): Option<Parent<K, R, P>>
    requires lc.Ok()
  {
    NewFits<K, R, L, P>(lc);
    Finish(lc, FeedAll(lc, NewState(lc), chunks, 0), map[], 0)
  }

  /** A later capture: resume at S from the parent's tails, feed, export, merge. None: the capture never completes. */
  ghost function NextTurn<K, R(!new), L(!new), P(!new)>(lc: LayerCfg<R, L, P>, p: Parent<K, R, P>, t: Turn<K, R>)
    : Option<Parent<K, R, P>>
    requires lc.Ok()
  {
    if t.S == 0 || !Covers(lc.cfg, p.saved.T, t.S) then None
    else Finish(lc, FeedAll(lc, Resume(lc, p.saved, t.S), t.chunks, t.S), p.out, t.S)
  }

  lemma KvNext<K, R(!new), L(!new), P(!new)>(lc: LayerCfg<R, L, P>, s: State<K, R, P>, h: Rows<K, R>, lo: nat,
                                             base: nat, poolBase: nat)
    requires Inv(lc, s, h, lo, base, poolBase)
    ensures h.Ok() && s.kv.next == h.Len()
  {
  }

  lemma {:induction false} ConcatGrows<K, R>(h: Rows<K, R>, xs: seq<Rows<K, R>>)
    requires h.Ok() && Chunks(xs)
    ensures Concat(h, xs).Ok() && h.Len() + |xs| <= Concat(h, xs).Len() && Concat(h, xs).Take(h.Len()) == h
    decreases |xs|
  {
    if xs != [] {
      var x := xs[0];
      assert x.Ok() && 0 < x.Len();
      ConcatGrows(h.Plus(x), xs[1..]);
      var all := Concat(h, xs);
      assert all.Take(h.Plus(x).Len()).Take(h.Len()) == all.Take(h.Len());
      assert h.Plus(x).Take(h.Len()) == h;
    }
  }

  lemma TailBaseMax(a: nat, b: nat, n: nat)
    ensures Max(TailBase(a, n), TailBase(b, n)) == TailBase(Max(a, b), n)
  {
  }

  /** The end of a turn whose state stands at h, resumed at S from a parent of h1 (or fresh, when S and h1 are
      empty). */
  lemma FinishKeeps<K, R(!new), L(!new), P(!new)>(lc: LayerCfg<R, L, P>, s: State<K, R, P>, par: Out<K, R, P>,
                                                  h1: Rows<K, R>, h: Rows<K, R>, S: nat, M: nat)
    requires lc.Ok() && h1.Ok() && h.Ok() && S <= h1.Len() && S <= h.Len() && 0 < h.Len() && h1.Take(S) == h.Take(S)
    requires var (kvBase, poolBase) := (TailBase(M, lc.cfg.KvTail()), TailBase(M, lc.cfg.PoolTail()));
             && Inv(lc, s, h, S, kvBase, poolBase) && Reaches(kvBase, h.Len(), lc.cfg.win)
             && kvBase < h.Len() && (lc.Has(Main) ==> poolBase < h.Len())
    requires KeepsPooling(lc, h1.Len(), h.Len()) && FileMeans(lc, par, h1)
    ensures var r := Finish(lc, (s, true), par, S); r.Some? && ParentOf(lc, r.value, h, Max(M, h.Len()))
  {
    hide Inv, LayerAt, Export, Save, MergedAt, LastN, Tails, TailBase;
    var kvBase, poolBase := TailBase(M, lc.cfg.KvTail()), TailBase(M, lc.cfg.PoolTail());
    PoolInvRatio(lc, s, h, S, kvBase, poolBase);
    KvNext(lc, s, h, S, kvBase, poolBase);
    SaveTails(lc, s, h, S, kvBase, poolBase);
    TailBaseMax(M, h.Len(), lc.cfg.KvTail());
    TailBaseMax(M, h.Len(), lc.cfg.PoolTail());
    var out: Out<K, R, P> := Export(lc.cfg, s, h.Len(), false);
    forall key
      ensures Lookup(if S == 0 then out else Merge(par, out, S, lc.ratio), key) == LayerAt(lc, h, 0, false, key)
    {
      ExportMeans(lc, s, h, S, kvBase, poolBase, false, key);
      if S != 0 {
        MergeMeans(lc, h1, h, S, par, out, key);
      }
    }
  }

  lemma NothingExported<K, R(!new), L(!new), P(!new)>(lc: LayerCfg<R, L, P>, key: Key)
    requires lc.Ok()
    ensures LayerAt<K, R, L, P>(lc, Rows([], [], []), 0, false, key) == None
  {
    hide Count, Rem, Off, PooledSpec, CarrySpec, LastN;
    if lc.Has(Main) {
      Nothing(lc.main, lc.ratio);
      OneBlock(lc.ratio);
    }
    if lc.Has(Idx) {
      Nothing(lc.idx, 4);
      OneBlock(4);
    }
  }

  /** Base case: the first capture is a parent of its own prompt, for every chunking. */
  lemma FirstTurnIsParent<K, R(!new), L(!new), P(!new)>(lc: LayerCfg<R, L, P>, chunks: seq<Rows<K, R>>)
    requires lc.Ok() && Chunks(chunks) && chunks != []
    ensures var r := FirstTurn(lc, chunks); var h := Concat(Rows([], [], []), chunks);
            r.Some? && h.Ok() && ParentOf(lc, r.value, h, h.Len())
  {
    hide Inv, FeedAll, Finish, ParentOf, LayerAt;
    var none: Rows<K, R> := Rows([], [], []);
    NewInv<K, R, L, P>(lc);
    InvCarriesFit(lc, NewState<K, R, L, P>(lc), none, 0, 0, 0);
    FeedAllKeeps(lc, NewState<K, R, L, P>(lc), none, chunks, 0, 0, 0);
    ConcatGrows(none, chunks);
    forall key
      ensures Lookup<K, R, P>(map[], key) == LayerAt(lc, none, 0, false, key)
    {
      NothingExported<K, R, L, P>(lc, key);
    }
    FinishKeeps(lc, FeedAll(lc, NewState<K, R, L, P>(lc), chunks, 0).0, map[], none, Concat(none, chunks), 0, 0);
  }

  /** Whether a turn at S is legal when the longest prompt so far had M rows, the last T, and the new one has T2: its
      saved tails reach back, and no pooling window is lost by shrinking. */
  predicate Legal<R(!new), L(!new), P(!new)>(lc: LayerCfg<R, L, P>, M: nat, T: nat, S: nat, T2: nat)
    requires lc.Ok()
  {
    && InReach(lc, S, TailBase(M, lc.cfg.KvTail()), TailBase(M, lc.cfg.PoolTail()))
    && Reaches(TailBase(M, lc.cfg.KvTail()), T2, lc.cfg.win)
    && KeepsPooling(lc, T, T2)
  }

  /** One legal turn: the merged file and the saved tails are those of one capture of the whole new prompt. */
  lemma TurnKeeps<K, R(!new), L(!new), P(!new)>(lc: LayerCfg<R, L, P>, p: Parent<K, R, P>, h: Rows<K, R>, M: nat,
                                                t: Turn<K, R>)
    requires ParentOf(lc, p, h, M)
    requires 1 <= t.S && Covers(lc.cfg, h.Len(), t.S) && Chunks(t.chunks)
    requires Legal(lc, M, h.Len(), t.S, Concat(h.Take(t.S), t.chunks).Len())
    ensures var r := NextTurn(lc, p, t); var h2 := Concat(h.Take(t.S), t.chunks);
            r.Some? && ParentOf(lc, r.value, h2, Max(M, h2.Len()))
  {
    hide Inv, FeedAll, Finish, FileMeans, Resume, TailBase;
    var S := t.S;
    var h2 := Concat(h.Take(S), t.chunks);
    var kvBase, poolBase := TailBase(M, lc.cfg.KvTail()), TailBase(M, lc.cfg.PoolTail());
    ResumeInv(lc, p.saved, h, S, kvBase, poolBase);
    FeedAllKeeps(lc, Resume(lc, p.saved, S), h.Take(S), t.chunks, S, kvBase, poolBase);
    ConcatGrows(h.Take(S), t.chunks);
    assert h.Take(S).Len() == S;
    hide Tails, InReach;
    FinishKeeps(lc, FeedAll(lc, Resume(lc, p.saved, S), t.chunks, S).0, p.out, h, h2, S, M);
  }

  ghost function Chain<K, R(!new), L(!new), P(!new)>(lc: LayerCfg<R, L, P>, p: Parent<K, R, P>, ts: seq<Turn<K, R>>)
    : Option<Parent<K, R, P>>
    requires lc.Ok()
    decreases |ts|
  {
    if ts == [] then Some(p)
    else
      var r := NextTurn(lc, p, ts[0]);
      if r.None? then None else Chain(lc, r.value, ts[1..])
  }

  /** The prompt after a chain of turns, and the longest prompt on the way. */
  ghost function Prompt<K, R>(h: Rows<K, R>, ts: seq<Turn<K, R>>): Rows<K, R>
    decreases |ts|
  {
    if ts == [] then h
    else if h.Ok() && ts[0].S <= h.Len() then Prompt(Concat(h.Take(ts[0].S), ts[0].chunks), ts[1..])
    else h
  }

  ghost function Longest<K, R>(h: Rows<K, R>, M: nat, ts: seq<Turn<K, R>>): nat
    decreases |ts|
  {
    if ts == [] then M
    else if h.Ok() && ts[0].S <= h.Len() then
      var h2 := Concat(h.Take(ts[0].S), ts[0].chunks);
      Longest(h2, Max(M, h2.Len()), ts[1..])
    else M
  }

  /** Every turn passes the saved-state test and is legal. */
  ghost predicate AllLegal<K, R(!new), L(!new), P(!new)>(lc: LayerCfg<R, L, P>, h: Rows<K, R>, M: nat,
                                                         ts: seq<Turn<K, R>>)
    requires lc.Ok()
    decreases |ts|
  {
    ts == [] ||
    (var t := ts[0];
     h.Ok() && 1 <= t.S && Covers(lc.cfg, h.Len(), t.S) && Chunks(t.chunks)
     && var h2 := Concat(h.Take(t.S), t.chunks);
        Legal(lc, M, h.Len(), t.S, h2.Len()) && AllLegal(lc, h2, Max(M, h2.Len()), ts[1..]))
  }

  lemma ParentShape<K, R(!new), L(!new), P(!new)>(lc: LayerCfg<R, L, P>, p: Parent<K, R, P>, h: Rows<K, R>, M: nat)
    requires ParentOf(lc, p, h, M)
    ensures lc.Ok() && h.Ok() && 0 < h.Len() <= M && p.saved.T == h.Len() && FileMeans(lc, p.out, h)
    ensures TailBase(M, lc.cfg.KvTail()) < h.Len() && p.saved.kv == Some(h.kv[TailBase(M, lc.cfg.KvTail())..])
  {
  }

  /** KV return over any number of turns, growing or shrinking: while every turn is legal none is refused, and the
      file is always equal, key for key, to one capture from 0. */
  lemma {:induction false} ChainKeeps<K, R(!new), L(!new), P(!new)>(lc: LayerCfg<R, L, P>, p: Parent<K, R, P>,
                                                                    h: Rows<K, R>, M: nat, ts: seq<Turn<K, R>>)
    requires ParentOf(lc, p, h, M) && AllLegal(lc, h, M, ts)
    ensures var r := Chain(lc, p, ts); r.Some? && ParentOf(lc, r.value, Prompt(h, ts), Longest(h, M, ts))
    decreases |ts|
  {
    hide ParentOf, NextTurn, Chunks, Legal;
    ParentShape(lc, p, h, M);
    if ts != [] {
      var h2 := Concat(h.Take(ts[0].S), ts[0].chunks);
      TurnKeeps(lc, p, h, M, ts[0]);
      ChainKeeps(lc, NextTurn(lc, p, ts[0]).value, h2, Max(M, h2.Len()), ts[1..]);
    }
  }

  /** Every turn resumes within keep of its parent's end, on a prompt at least as long. */
  ghost predicate Growing<K, R>(cfg: Config, h: Rows<K, R>, ts: seq<Turn<K, R>>)
    decreases |ts|
  {
    ts == [] ||
    (var t := ts[0];
     h.Ok() && 1 <= t.S && Covers(cfg, h.Len(), t.S) && Chunks(t.chunks)
     && h.Len() <= Concat(h.Take(t.S), t.chunks).Len()
     && Growing(cfg, Concat(h.Take(t.S), t.chunks), ts[1..]))
  }

  /** A conversation whose prompts never shrink is legal throughout: there the code's own test is enough. */
  lemma {:induction false} GrowingIsLegal<K, R(!new), L(!new), P(!new)>(lc: LayerCfg<R, L, P>, h: Rows<K, R>,
                                                                        ts: seq<Turn<K, R>>)
    requires lc.Ok() && h.Ok() && 0 < h.Len() && Growing(lc.cfg, h, ts)
    ensures AllLegal(lc, h, h.Len(), ts)
    decreases |ts|
  {
    hide Chunks;
    if ts != [] {
      var h2 := Concat(h.Take(ts[0].S), ts[0].chunks);
      ConcatGrows(h.Take(ts[0].S), ts[0].chunks);
      GrowingIsLegal(lc, h2, ts[1..]);
    }
  }

  // ---- exactly when a resume is legal

  /** How the fixed sizes lie: a raw tail has a row to spare over what a carry needs, and is no shorter than a
      window. */
  predicate Roomy<R(!new), L(!new), P(!new)>(lc: LayerCfg<R, L, P>) {
    2 <= lc.cfg.win <= lc.cfg.tailRaw && (lc.Has(Main) ==> CarryNeed(lc.ratio) < lc.cfg.tailRaw)
  }

  /** The guard a caller could check before resuming at S a prompt of T rows, when the longest so far had M. */
  predicate CanResume<R(!new), L(!new), P(!new)>(lc: LayerCfg<R, L, P>, M: nat, T: nat, S: nat) {
    && (M <= lc.cfg.KvTail() || M <= S + lc.cfg.keep + 1)
    && KeepsPooling(lc, T, S + 1)
  }

  lemma GuardIsLegal<R(!new), L(!new), P(!new)>(lc: LayerCfg<R, L, P>, M: nat, T: nat, S: nat, T2: nat)
    requires lc.Ok() && Roomy(lc) && 1 <= S <= T <= M && S < T2 && CanResume(lc, M, T, S)
    ensures Legal(lc, M, T, S, T2)
  {
  }

  /** Rows a..a+n of a prompt whose rows are all different. */
  function Piece(a: nat, n: nat): (x: Rows<nat, nat>)
    ensures x.Ok() && x.Len() == n
  {
    var s := seq(n, i requires 0 <= i => a + i);
    Rows(s, s, s)
  }

  function PieceTurn(S: nat, n: nat): Turn<nat, nat> {
    Turn(S, [Piece(S, n)])
  }

  ghost function Total<K, R>(xs: seq<Rows<K, R>>): nat {
    if xs == [] then 0 else xs[0].Len() + Total(xs[1..])
  }

  lemma OnePiece<K, R>(h: Rows<K, R>, x: Rows<K, R>)
    ensures Concat(h, [x]) == h.Plus(x)
  {
    assert [x][1..] == [];
  }

  lemma OneChunk(S: nat, n: nat)
    requires 1 <= n
    ensures Chunks([Piece(S, n)]) && [Piece(S, n)] != [] && Total([Piece(S, n)]) == n
  {
    assert [Piece(S, n)][1..] == [];
  }

  lemma PieceJoin(T: nat, S: nat, n: nat)
    requires S <= T
    ensures Concat(Piece(0, T).Take(S), [Piece(S, n)]) == Piece(0, S + n)
  {
    OnePiece(Piece(0, T).Take(S), Piece(S, n));
  }

  /** A completed turn's file is its own export merged with the parent's file. */
  lemma FinishMerges<K, R(!new), L(!new), P(!new)>(lc: LayerCfg<R, L, P>, run: (State<K, R, P>, bool),
                                                   par: Out<K, R, P>, S: nat, key: Key)
    requires S != 0 && Finish(lc, run, par, S).Some?
    ensures var s := run.0;
            && (s.main.Some? ==> 0 < s.main.value.ratio) && (s.idx.Some? ==> 0 < s.idx.value.ratio)
            && Lookup(Finish(lc, run, par, S).value.out, key)
            == MergedAt(par, Export(lc.cfg, s, s.kv.next, false), S, lc.ratio, key)
  {
    hide Export, MergedAt, Save, Lookup;
  }

  lemma FeedOne<K, R(!new), L(!new), P(!new)>(lc: LayerCfg<R, L, P>, s: State<K, R, P>, x: Rows<K, R>, start: nat)
    requires lc.Ok() && CarriesFit(s)
    ensures FeedAll(lc, s, [x], start) == Ingest(lc, s, x, start)
  {
    hide Ingest, CarriesFit;
    assert [x][1..] == [];
  }

  /** The kv tail after one chunk. */
  lemma SeededTail<K, R(!new), L(!new), P(!new)>(lc: LayerCfg<R, L, P>, saved: Saved<K, R>, S: nat, x: Rows<K, R>)
    requires lc.Ok() && S <= saved.T
    ensures var seed := Trim(saved.kv, saved.T - S).GetOr([]);
            Ingest(lc, Resume(lc, saved, S), x, S).0.kv.tail == Some(LastN(seed + x.kv, lc.cfg.KvTail()))
  {
    hide LastN, Trim, PoolSeed, PoolFeed, Cuts, Boundaries;
    LastNAppend(Trim(saved.kv, saved.T - S).GetOr([]), x.kv, lc.cfg.KvTail());
    LastNOfNothing<K>(lc.cfg.KvTail());
  }

  lemma EndWindow<K, R, P>(cfg: Config, s: State<K, R, P>, T: nat)
    requires (s.main.Some? ==> 0 < s.main.value.ratio) && (s.idx.Some? ==> 0 < s.idx.value.ratio) && s.kv.tail.Some?
    ensures Lookup(Export(cfg, s, T, false), KvWinEnd) == Some(KvRows(LastN(s.kv.tail.value, cfg.win)))
  {
    hide LastN, KvExport, PoolExport;
    KvExportAt<K, R, P>(cfg, s.kv, KvWinEnd);
    var a: Out<K, R, P> := KvExport(cfg, s.kv, map[]);
    if s.main.Some? {
      PoolExportAt(Main, s.main.value, T, false, a, KvWinEnd);
    }
    var b := if s.main.Some? then PoolExport(Main, s.main.value, T, false, a) else a;
    if s.idx.Some? {
      PoolExportAt(Idx, s.idx.value, T, false, b, KvWinEnd);
    }
  }

  /** The end window of a turn of one chunk is read from what Python's slice leaves of the saved kv tail, and the
      chunk. */
  lemma WindowAfter<K, R(!new), L(!new), P(!new)>(lc: LayerCfg<R, L, P>, p: Parent<K, R, P>, S: nat, x: Rows<K, R>)
    requires lc.Ok() && 1 <= S && Covers(lc.cfg, p.saved.T, S) && NextTurn(lc, p, Turn(S, [x])).Some?
    ensures Lookup(NextTurn(lc, p, Turn(S, [x])).value.out, KvWinEnd)
         == Some(KvRows(LastN(Trim(p.saved.kv, p.saved.T - S).GetOr([]) + x.kv, lc.cfg.win)))
  {
    hide LastN, Trim, Finish, Ingest, Export, Resume;
    var seed := Trim(p.saved.kv, p.saved.T - S).GetOr([]);
    var run := Ingest(lc, Resume(lc, p.saved, S), x, S);
    FeedOne(lc, Resume(lc, p.saved, S), x, S);
    SeededTail(lc, p.saved, S, x);
    LastNOfLastN(seed + x.kv, lc.cfg.KvTail(), lc.cfg.win);
    FinishMerges(lc, run, p.out, S, KvWinEnd);
    EndWindow(lc.cfg, run.0, run.0.kv.next);
  }

  /** A tail that does not reach a window back from S leaves a wrong window once one more row has come. */
  lemma ShortTailIsIllegal(win: nat, T: nat, base: nat, S: nat)
    requires 2 <= win && 1 <= S <= T && base < T && !Reaches(base, S, win - 1)
    ensures LastN(Trim(Some(Piece(0, T).kv[base..]), T - S).GetOr([]) + [S], win) != LastN(Piece(0, S + 1).kv, win)
  {
    var tail, n := Piece(0, T).kv[base..], T - base;
    var kept := S - base;
    var seed := Trim(Some(tail), T - S).GetOr([]);
    assert seed == if kept >= 0 then tail[..kept] else tail[..Max(0, n + kept)];
    hide Trim;
    var right, wrong := LastN(Piece(0, S + 1).kv, win), LastN(seed + [S], win);
    if kept >= 0 {
      assert |wrong| == kept + 1 < |right|;
    } else if |wrong| == |right| {
      // Python's negative slice keeps rows that do not end at S - 1
      assert wrong[|wrong| - 2] == seed[|seed| - 1] >= base;
      assert right[|right| - 2] == S - 1;
    }
  }

  lemma OneRow(S: nat)
    ensures Piece(S, 1).kv == [S] && Piece(0, S + 1).kv != []
  {
  }

  lemma NotMeant<K, R(!new), L(!new), P(!new)>(lc: LayerCfg<R, L, P>, out: Out<K, R, P>, h: Rows<K, R>, key: Key)
    requires lc.Ok() && Lookup(out, key) != LayerAt(lc, h, 0, false, key)
    ensures !FileMeans(lc, out, h)
  {
  }

  lemma PooledKey<K, R(!new), L(!new), P(!new)>(lc: LayerCfg<R, L, P>, h: Rows<K, R>)
    requires lc.Ok() && h.Ok()
    ensures LayerAt(lc, h, 0, false, Pooled(Main)).Some? <==> lc.Has(Main) && lc.ratio <= h.Len()
  {
    hide PooledSpec, CarrySpec, Count, PooledFrom, LastN, Rem, KvAt;
    if lc.Has(Main) {
      SomePooled(lc.main, lc.ratio, h.main);
    }
  }

  /** When the new prompt is shorter than a pooling window and the parent was not, the merged file has a pooled tensor
      that one capture does not write. */
  lemma EmptyPooled<K, R(!new), L(!new), P(!new)>(lc: LayerCfg<R, L, P>, p: Parent<K, R, P>, h: Rows<K, R>,
                                                  t: Turn<K, R>, h2: Rows<K, R>)
    requires lc.Ok() && h.Ok() && h2.Ok() && FileMeans(lc, p.out, h) && NextTurn(lc, p, t).Some?
    requires !KeepsPooling(lc, h.Len(), h2.Len())
    ensures Lookup(NextTurn(lc, p, t).value.out, Pooled(Main)) != LayerAt(lc, h2, 0, false, Pooled(Main))
  {
    hide FeedAll, Resume, Export, LayerAt, Count, Finish, JoinPooled;
    PooledKey(lc, h);
    PooledKey(lc, h2);
    assert Lookup(p.out, Pooled(Main)) == LayerAt(lc, h, 0, false, Pooled(Main));
    FinishMerges(lc, FeedAll(lc, Resume(lc, p.saved, t.S), t.chunks, t.S), p.out, t.S, Pooled(Main));
  }

  /** A turn of one row that the guard forbids is refused or leaves a wrong file, though the code's test passes it. */
  lemma TurnFails<L(!new), P(!new)>(lc: LayerCfg<nat, L, P>, p: Parent<nat, nat, P>, T: nat, M: nat, S: nat)
    requires lc.Ok() && Roomy(lc) && ParentOf(lc, p, Piece(0, T), M) && 1 <= S && Covers(lc.cfg, T, S)
             && !CanResume(lc, M, T, S)
    ensures var r := NextTurn(lc, p, PieceTurn(S, 1)); r.Some? ==> !FileMeans(lc, r.value.out, Piece(0, S + 1))
    ensures !(M <= lc.cfg.KvTail() || M <= S + lc.cfg.keep + 1) ==>
              var r := NextTurn(lc, p, PieceTurn(S, 1));
              r.Some? ==> Lookup(r.value.out, KvWinEnd) != LayerAt(lc, Piece(0, S + 1), 0, false, KvWinEnd)
  {
    hide NextTurn, LastN, Trim, ParentOf, FileMeans, Piece;
    ParentShape(lc, p, Piece(0, T), M);
    var r := NextTurn(lc, p, PieceTurn(S, 1));
    if !(M <= lc.cfg.KvTail() || M <= S + lc.cfg.keep + 1) {
      ShortTailIsIllegal(lc.cfg.win, T, TailBase(M, lc.cfg.KvTail()), S);
      OneRow(S);
      if r.Some? {
        WindowAfter(lc, p, S, Piece(S, 1));
        assert Lookup(r.value.out, KvWinEnd) != LayerAt(lc, Piece(0, S + 1), 0, false, KvWinEnd);
        NotMeant(lc, r.value.out, Piece(0, S + 1), KvWinEnd);
      }
    } else if r.Some? {
      EmptyPooled(lc, p, Piece(0, T), Turn(S, [Piece(S, 1)]), Piece(0, S + 1));
      NotMeant(lc, r.value.out, Piece(0, S + 1), Pooled(Main));
    }
  }

  // ---- plans: the lengths of a conversation, whatever its rows

  /** A turn that resumes at S and feeds n rows. */
  datatype Leg = Leg(S: nat, n: nat)

  function LongestOf(M: nat, legs: seq<Leg>): nat
    decreases |legs|
  {
    if legs == [] then M else LongestOf(Max(M, legs[0].S + legs[0].n), legs[1..])
  }

  function LastOf(T: nat, legs: seq<Leg>): nat
    decreases |legs|
  {
    if legs == [] then T else LastOf(legs[0].S + legs[0].n, legs[1..])
  }

  predicate LegalPlan<R(!new), L(!new), P(!new)>(lc: LayerCfg<R, L, P>, M: nat, T: nat, legs: seq<Leg>)
    requires lc.Ok()
    decreases |legs|
  {
    legs == [] ||
    (var l := legs[0];
     1 <= l.S && 1 <= l.n && Covers(lc.cfg, T, l.S) && Legal(lc, M, T, l.S, l.S + l.n)
     && LegalPlan(lc, Max(M, l.S + l.n), l.S + l.n, legs[1..]))
  }

  ghost predicate Follows<K, R>(ts: seq<Turn<K, R>>, legs: seq<Leg>)
    decreases |legs|
  {
    if legs == [] then ts == []
    else
      && ts != [] && ts[0].S == legs[0].S && Chunks(ts[0].chunks) && Total(ts[0].chunks) == legs[0].n
      && Follows(ts[1..], legs[1..])
  }

  lemma {:induction false} ConcatLen<K, R>(h: Rows<K, R>, xs: seq<Rows<K, R>>)
    requires h.Ok() && Chunks(xs)
    ensures Concat(h, xs).Ok() && Concat(h, xs).Len() == h.Len() + Total(xs)
    decreases |xs|
  {
    if xs != [] {
      assert xs[0].Ok();
      ConcatLen(h.Plus(xs[0]), xs[1..]);
    }
  }

  lemma {:induction false} FollowsLegal<K, R(!new), L(!new), P(!new)>(lc: LayerCfg<R, L, P>, h: Rows<K, R>, M: nat,
                                                                      ts: seq<Turn<K, R>>, legs: seq<Leg>)
    requires lc.Ok() && h.Ok() && LegalPlan(lc, M, h.Len(), legs) && Follows(ts, legs)
    ensures AllLegal(lc, h, M, ts) && Longest(h, M, ts) == LongestOf(M, legs)
    ensures Prompt(h, ts).Ok() && Prompt(h, ts).Len() == LastOf(h.Len(), legs)
    decreases |legs|
  {
    hide Chunks, Legal;
    if legs != [] {
      var h2 := Concat(h.Take(ts[0].S), ts[0].chunks);
      ConcatLen(h.Take(ts[0].S), ts[0].chunks);
      FollowsLegal(lc, h2, Max(M, h2.Len()), ts[1..], legs[1..]);
    }
  }

  function PieceTurns(legs: seq<Leg>): seq<Turn<nat, nat>> {
    if legs == [] then [] else [PieceTurn(legs[0].S, legs[0].n)] + PieceTurns(legs[1..])
  }

  lemma {:induction false} PiecesFollow<R(!new), L(!new), P(!new)>(lc: LayerCfg<R, L, P>, M: nat, T: nat,
                                                                   legs: seq<Leg>)
    requires lc.Ok() && LegalPlan(lc, M, T, legs)
    ensures Follows(PieceTurns(legs), legs) && Prompt(Piece(0, T), PieceTurns(legs)) == Piece(0, LastOf(T, legs))
    decreases |legs|
  {
    hide Legal, Piece;
    if legs != [] {
      var l := legs[0];
      var ts := PieceTurns(legs);
      assert ts[1..] == PieceTurns(legs[1..]);
      OneChunk(l.S, l.n);
      PieceJoin(T, l.S, l.n);
      PiecesFollow(lc, Max(M, l.S + l.n), l.S + l.n, legs[1..]);
    }
  }

  /** First capture, chain and one more turn: none is refused, and the last file is that of one capture of the whole
      prompt. */
  ghost predicate RightAfter<K, R(!new), L(!new), P(!new)>(lc: LayerCfg<R, L, P>, first: seq<Rows<K, R>>,
                                                           ts: seq<Turn<K, R>>, S: nat, xs: seq<Rows<K, R>>)
    requires lc.Ok()
  {
    var h := Prompt(Concat(Rows([], [], []), first), ts);
    var p := FirstTurn(lc, first);
    && p.Some? && Chain(lc, p.value, ts).Some?
    && var r := NextTurn(lc, Chain(lc, p.value, ts).value, Turn(S, xs));
       r.Some? && h.Ok() && S <= h.Len() && FileMeans(lc, r.value.out, Concat(h.Take(S), xs))
  }

  ghost predicate OnPlan<K, R>(first: seq<Rows<K, R>>, T: nat, ts: seq<Turn<K, R>>, legs: seq<Leg>) {
    Chunks(first) && Total(first) == T && Follows(ts, legs)
  }

  /** Where a legal plan leads, for any rows. */
  lemma PlanLeads<K, R(!new), L(!new), P(!new)>(lc: LayerCfg<R, L, P>, T: nat, legs: seq<Leg>, first: seq<Rows<K, R>>,
                                                ts: seq<Turn<K, R>>)
    requires lc.Ok() && 1 <= T && LegalPlan(lc, T, T, legs) && OnPlan(first, T, ts, legs)
    ensures var p := FirstTurn(lc, first); var h := Prompt(Concat(Rows([], [], []), first), ts);
            && p.Some? && Chain(lc, p.value, ts).Some? && h.Ok() && h.Len() == LastOf(T, legs)
            && ParentOf(lc, Chain(lc, p.value, ts).value, h, LongestOf(T, legs))
  {
    hide FirstTurn, Chain, ParentOf, LegalPlan, Chunks, Prompt, Longest, Follows, AllLegal;
    var h0: Rows<K, R> := Concat(Rows([], [], []), first);
    ConcatLen(Rows([], [], []), first);
    FirstTurnIsParent(lc, first);
    FollowsLegal(lc, h0, T, ts, legs);
    ChainKeeps(lc, FirstTurn(lc, first).value, h0, T, ts);
  }

  lemma GuardedIsRight<K, R(!new), L(!new), P(!new)>(lc: LayerCfg<R, L, P>, T: nat, legs: seq<Leg>, S: nat,
                                                     first: seq<Rows<K, R>>, ts: seq<Turn<K, R>>, xs: seq<Rows<K, R>>)
    requires lc.Ok() && Roomy(lc) && 1 <= T && LegalPlan(lc, T, T, legs) && 1 <= S && Covers(lc.cfg, LastOf(T, legs), S)
    requires CanResume(lc, LongestOf(T, legs), LastOf(T, legs), S) && OnPlan(first, T, ts, legs) && Chunks(xs)
             && xs != []
    ensures RightAfter(lc, first, ts, S, xs)
  {
    hide LegalPlan, CanResume, OnPlan, Chunks, Roomy, FirstTurn, NextTurn, Chain, FileMeans, Legal, Tails;
    PlanLeads(lc, T, legs, first, ts);
    var h := Prompt(Concat(Rows([], [], []), first), ts);
    ConcatGrows(h.Take(S), xs);
    GuardIsLegal(lc, LongestOf(T, legs), h.Len(), S, Concat(h.Take(S), xs).Len());
    TurnKeeps(lc, Chain(lc, FirstTurn(lc, first).value, ts).value, h, LongestOf(T, legs), Turn(S, xs));
  }

  lemma FirstPiece(T: nat)
    requires 1 <= T
    ensures Chunks([Piece(0, T)]) && Total([Piece(0, T)]) == T && Concat(Rows([], [], []), [Piece(0, T)]) == Piece(0, T)
  {
    OnePiece(Rows([], [], []), Piece(0, T));
    OneChunk(0, T);
  }

  lemma UnguardedFails<L(!new), P(!new)>(lc: LayerCfg<nat, L, P>, T: nat, legs: seq<Leg>, S: nat)
    requires lc.Ok() && Roomy(lc) && 1 <= T && LegalPlan(lc, T, T, legs) && 1 <= S && Covers(lc.cfg, LastOf(T, legs), S)
    requires !CanResume(lc, LongestOf(T, legs), LastOf(T, legs), S)
    ensures OnPlan([Piece(0, T)], T, PieceTurns(legs), legs)
    ensures !RightAfter(lc, [Piece(0, T)], PieceTurns(legs), S, [Piece(S, 1)])
  {
    hide LegalPlan, CanResume, Roomy, FirstTurn, NextTurn, Chain, FileMeans, Piece, ParentOf;
    var first, ts := [Piece(0, T)], PieceTurns(legs);
    FirstPiece(T);
    PiecesFollow(lc, T, T, legs);
    PlanLeads(lc, T, legs, first, ts);
    var t := LastOf(T, legs);
    PieceJoin(t, S, 1);
    TurnFails(lc, Chain(lc, FirstTurn(lc, first).value, ts).value, t, LongestOf(T, legs), S);
  }

  /** After any legal plan, resuming at S (which the code's own test accepts) is right for every content of every
      prompt and for every way to go on, exactly when the guard holds: S lies within keep + 1 of the longest prompt so
      far, not of the last. */
  lemma ResumeIff<L(!new), P(!new)>(lc: LayerCfg<nat, L, P>, T: nat, legs: seq<Leg>, S: nat)
    requires lc.Ok() && Roomy(lc) && 1 <= T && LegalPlan(lc, T, T, legs) && 1 <= S && Covers(lc.cfg, LastOf(T, legs), S)
    ensures CanResume(lc, LongestOf(T, legs), LastOf(T, legs), S)
       <==> forall first: seq<Rows<nat, nat>>, ts: seq<Turn<nat, nat>>, xs: seq<Rows<nat, nat>> |
              OnPlan(first, T, ts, legs) && Chunks(xs) && xs != [] :: RightAfter(lc, first, ts, S, xs)
  {
    hide LegalPlan, CanResume, RightAfter, OnPlan, Chunks, Roomy;
    if CanResume(lc, LongestOf(T, legs), LastOf(T, legs), S) {
      forall first: seq<Rows<nat, nat>>, ts: seq<Turn<nat, nat>>, xs: seq<Rows<nat, nat>> |
        OnPlan(first, T, ts, legs) && Chunks(xs) && xs != []
        ensures RightAfter(lc, first, ts, S, xs)
      {
        GuardedIsRight(lc, T, legs, S, first, ts, xs);
      }
    } else {
      UnguardedFails(lc, T, legs, S);
      OneChunk(S, 1);
    }
  }

  /** The source's constants. */
  const SIZES := Config(2048, 128, 136, 256)

  lemma TailGoesOn<R(!new), L(!new), P(!new)>(cfg: Config, k: Kernel<R, L, P>, ratio: nat, tail: seq<R>)
    requires cfg == SIZES && ratio in {4, 128} && |tail| == 137
    ensures Trim(Some(tail), 256).Some?
    ensures var s: Pool<R, P> := PoolSeed(cfg, PoolNew(ratio), Trim(Some(tail), 256), 489);
            CarryFits(s.carry, ratio) && forall x | |x| == 1 :: PoolFeed(cfg, k, s, x, 489).1
  {
    hide Cuts, Boundaries, LastN;
    AsOperators(489, 4);
    AsOperators(489, 128);
    SeedFits(cfg, PoolNew<R, P>(ratio), Trim(Some(tail), 256), 489);
  }

  /** At 489 the raw tails of the compressors are too short as well, but not empty: pooling goes on from the wrong
      rows. */
  lemma LastCompletes<L(!new), P(!new)>(lc: LayerCfg<nat, L, P>, p: Parent<nat, nat, P>)
    requires lc.cfg == SIZES && lc.ratio in {0, 4, 128} && ParentOf(lc, p, Piece(0, 745), 1000)
    ensures NextTurn(lc, p, PieceTurn(489, 1)).Some?
  {
    hide Export, Save, FileMeans, Cuts, Boundaries, LastN;
    AsOperators(489, 4);
    AsOperators(489, 128);
    var s := Resume(lc, p.saved, 489);
    assert [Piece(489, 1)][1..] == [];
    if lc.Has(Main) {
      TailGoesOn(lc.cfg, lc.main, lc.ratio, p.saved.main.value);
    }
    if lc.Has(Idx) {
      TailGoesOn(lc.cfg, lc.idx, 4, p.saved.idx.value);
    }
  }

  /** Why prompts must not shrink: 1000 tokens, then a resume at 744 for one token, then a resume at 489 for one
      token. Each passes the code's test and completes; the first two files are right, the third has a wrong
      window. */
  lemma ShrinkingChainFails<L(!new), P(!new)>(lc: LayerCfg<nat, L, P>)
    requires lc.Ok() && lc.cfg == SIZES && lc.ratio in {0, 4, 128}
    ensures var p1 := FirstTurn(lc, [Piece(0, 1000)]);
            && p1.Some? && FileMeans(lc, p1.value.out, Piece(0, 1000))
            && var p2 := NextTurn(lc, p1.value, PieceTurn(744, 1));
               && p2.Some? && FileMeans(lc, p2.value.out, Piece(0, 745))
               && var p3 := NextTurn(lc, p2.value, PieceTurn(489, 1));
                  p3.Some? && Lookup(p3.value.out, KvWinEnd) != LayerAt(lc, Piece(0, 490), 0, false, KvWinEnd)
  {
    hide NextTurn, FirstTurn, FileMeans, Piece, ParentOf;
    FirstPiece(1000);
    FirstTurnIsParent(lc, [Piece(0, 1000)]);
    var p1 := FirstTurn(lc, [Piece(0, 1000)]).value;
    ParentShape(lc, p1, Piece(0, 1000), 1000);
    PieceJoin(1000, 744, 1);
    OneChunk(744, 1);
    TurnKeeps(lc, p1, Piece(0, 1000), 1000, PieceTurn(744, 1));
    var p2 := NextTurn(lc, p1, PieceTurn(744, 1)).value;
    ParentShape(lc, p2, Piece(0, 745), 1000);
    TurnFails(lc, p2, 745, 1000, 489);
    LastCompletes(lc, p2);
  }
}
