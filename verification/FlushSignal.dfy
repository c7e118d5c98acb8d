/** When a capture is closed: the forward thread, the worker and the watcher of the recording process, the watchers of
    other processes, and the front, around one queue and one signal file. Which rows an item holds does not matter
    here. */
module FlushSignal {
  import opened Seqs

  /** One layer-chunk: the request and the position in it, the layer, and whether layer 0 would see it start over
      (start is 0, or not where layer 0 stands). */
  datatype Rec = Rec(req: nat, n: nat, li: nat, breaks: bool)

  datatype Reason = FlushNow | IdleTimer | NewRequest

  datatype Item = Data(rec: Rec) | Flush(reason: Reason)

  /** _Req; layers is max(kv) + 1. */
  datatype Req = Req(firstT: nat, lastT: nat, calls: nat, layers: nat, items: seq<Rec>)

  datatype Closed = Closed(reason: Reason, items: seq<Rec>)

  /** The shared state of one process's hook. */
  datatype Hook = Hook(q: seq<Item>, open: Option<Req>, closed: seq<Closed>)

  function Finish(h: Hook, reason: Reason): Hook {
    if h.open.None? then h else h.(open := None, closed := h.closed + [Closed(reason, h.open.value.items)])
  }

  /** ingest, up to what it does with the rows. */
  function Ingest(h: Hook, rec: Rec, now: nat): Hook {
    var before := if h.open.Some? && rec.li == 0 && 0 < h.open.value.calls && rec.breaks then Finish(h, NewRequest)
      else h;
    var r := if before.open.Some? then before.open.value else Req(now, now, 0, 0, []);
    before.(open := Some(Req(r.firstT, now, r.calls + 1, Max(r.layers, rec.li + 1), r.items + [rec])))
  }

  /** One item of the worker's loop. */
  function Worked(h: Hook, item: Item, now: nat): Hook {
    match item
    case Data(rec) => Ingest(h, rec, now)
    case Flush(reason) => Finish(h, reason)
  }

  function ItemsOf(captures: seq<Closed>): seq<Rec> {
    if captures == [] then [] else ItemsOf(captures[..|captures| - 1]) + captures[|captures| - 1].items
  }

  /** Everything the worker has taken in, by capture: the closed ones, then the open one. */
  function TakenIn(h: Hook): seq<Rec> {
    ItemsOf(h.closed) + if h.open.Some? then h.open.value.items else []
  }

  lemma FinishTakes(h: Hook, reason: Reason)
    ensures TakenIn(Finish(h, reason)) == TakenIn(h)
  {
    if h.open.Some? {
      var closed := Closed(reason, h.open.value.items);
      assert (h.closed + [closed])[..|h.closed|] == h.closed;
    }
  }

  lemma FinishOpens(h: Hook, reason: Reason)
    ensures Finish(h, reason).open.None?
  {
  }

  lemma IngestTakes(h: Hook, rec: Rec, now: nat)
    ensures TakenIn(Ingest(h, rec, now)) == TakenIn(h) + [rec]
  {
    hide ItemsOf, Finish;
    FinishTakes(h, NewRequest);
    assert Finish(h, NewRequest).open.None? by { FinishOpens(h, NewRequest); }
  }

  /** One watcher tick: whether it fires, and whether it unlinks the signal. idleS <= 0 switches the idle timer off. */
  function Decision(h: Hook, sig: Option<nat>, gpuBusy: bool, now: nat, idleS: int): (Option<Reason>, bool) {
    if h.open.None? then (None, false)
    else
      var r := h.open.value;
      var aligned := r.layers == 0 || r.calls % r.layers == 0;
      var settled := h.q == [] && !gpuBusy && aligned;
      var demanded := sig.Some? && sig.value >= r.firstT;
      var stale := sig.Some? && !demanded;
      var fire := if demanded && settled then Some(FlushNow)
                  else if 0 < idleS && settled && now - r.lastT >= idleS then Some(IdleTimer)
                  else None;
      (fire, stale || (fire.Some? && demanded))
  }

  /** _Capture of one process. */
  class Owner {
    const idleS: int
    var q: seq<Item>
    var open: Option<Req>
    var closed: seq<Closed>

    ghost function View(): Hook
      reads this
    {
      Hook(q, open, closed)
    }

    constructor (idleS: int)
      ensures this.idleS == idleS && View() == Hook([], None, [])
    {
      this.idleS, q, open, closed := idleS, [], None, [];
    }

    /** record, on the forward thread. */
    method Record(rec: Rec)
      modifies `q
      ensures View() == old(View()).(q := old(q) + [Data(rec)])
    {
      q := q + [Data(rec)];
    }

    /** _finish */
    method Close(reason: Reason)
      requires open.Some?
      modifies `open, `closed
      ensures View() == Finish(old(View()), reason)
    {
      closed := closed + [Closed(reason, open.value.items)];
      open := None;
    }

    method Feed(rec: Rec, now: nat)
      modifies `open, `closed
      ensures View() == Ingest(old(View()), rec, now)
    {
      if open.Some? && rec.li == 0 && open.value.calls > 0 {
        if rec.breaks {
          Close(NewRequest);
        }
      }
      if open.None? {
        open := Some(Req(now, now, 0, 0, []));
      }
      var r := open.value;
      open := Some(Req(r.firstT, now, r.calls + 1, Max(r.layers, rec.li + 1), r.items + [rec]));
    }

    /** One item of the worker's loop: whatever closes, every item taken in is in exactly one capture, in the order
        taken. */
    method Work(item: Item, now: nat)
      modifies `open, `closed
      ensures View() == Worked(old(View()), item, now)
      ensures TakenIn(View()) == TakenIn(old(View())) + if item.Data? then [item.rec] else []
    {
      hide TakenIn, Ingest;
      if item.Data? {
        IngestTakes(View(), item.rec, now);
      } else {
        FinishTakes(View(), item.reason);
      }
      if item.Flush? {
        if open.Some? {
          Close(item.reason);
        }
      } else {
        Feed(item.rec, now);
      }
    }

    /** _flush_decision: a process with nothing open never touches the signal; the owner consumes it only when it
        fires on it, or when it is older than the open request. */
    method FlushDecision(sig: Option<nat>, gpuBusy: bool, now: nat) returns (fire: Option<Reason>, unlink: bool)
      ensures (fire, unlink) == Decision(View(), sig, gpuBusy, now, idleS)
      ensures open.None? ==> fire.None? && !unlink
      ensures unlink ==>
                sig.Some?
                  && ((sig.value < open.value.firstT && fire != Some(FlushNow))
                    || (sig.value >= open.value.firstT && fire == Some(FlushNow)))
      ensures fire == Some(FlushNow) ==> unlink && q == [] && !gpuBusy
    {
      if open.None? {
        return None, false;
      }
      var r := open.value;
      var aligned := r.layers == 0 || r.calls % r.layers == 0;
      var settled := q == [] && !gpuBusy && aligned;
      var demanded := sig.Some? && sig.value >= r.firstT;
      var stale := sig.Some? && !demanded;
      if demanded && settled {
        fire := Some(FlushNow);
      } else if 0 < idleS && settled && now - r.lastT >= idleS {
        fire := Some(IdleTimer);
      } else {
        fire := None;
      }
      unlink := stale || (fire.Some? && demanded);
    }
  }

  // ---- front, engine, worker and watcher together

  /** The front runs one request after the other: the engine works on it, returns, and the front touches the signal
      file. */
  datatype Front = Waiting | Running | Returned | Signalled

  /** The watcher between two ticks, or inside one: it has read the file's mtime, it has decided under the lock, it has unlinked
      and will put its flush. */
  datatype Watcher =
    | Polling | Seen(mtime: Option<nat>) | Decided(fire: Option<Reason>, unlink: bool) | Putting(reason: Reason)

  /** sig is the signal file's mtime; busy the item the worker has taken; recorded the history of all items; done says
      that a capture holding rows of the current request has been closed, which is what the front waits for. */
  datatype State = State(now: nat, sig: Option<nat>, hook: Hook, busy: Option<Item>, watcher: Watcher,
                         front: Front, cur: nat, began: nat, done: bool, recorded: seq<Rec>)

  /** waits: the front starts the next request only when the current one's capture is closed. */
  datatype Setup = Setup(idleS: int, waits: bool)

  datatype Label =
    | Tick | NextRequest | Record(li: nat, breaks: bool) | Return | Signal
    | Pop | Work | Stat | Decide(gpuBusy: bool) | OtherDecide | Unlink | Put

  function Of(recs: seq<Rec>, i: nat): seq<Rec> {
    if recs == [] then []
      else Of(recs[..|recs| - 1], i) + (if recs[|recs| - 1].req == i then [recs[|recs| - 1]] else [])
  }

  /** A request begins at layer 0 and is gap-free from there. */
  predicate Enabled(u: Setup, s: State, l: Label) {
    match l
    case Tick => true
    case NextRequest => s.front.Waiting? || (s.front.Signalled? && (u.waits ==> s.done))
    case Record(li, breaks) => s.front.Running? && (li == 0 ==> (breaks <==> Of(s.recorded, s.cur) == []))
      && (Of(s.recorded, s.cur) == [] ==> li == 0)
    case Return => s.front.Running?
    case Signal => s.front.Returned?
    case Pop => s.busy.None? && s.hook.q != []
    case Work => s.busy.Some?
    case Stat => s.watcher.Polling?
    case Decide(_) => s.watcher.Seen?
    case OtherDecide => true
    case Unlink => s.watcher.Decided?
    case Put => s.watcher.Putting?
  }

  /** Closing a capture with rows of the current request is what the front sees as DONE. */
  function Noticed(s: State, h: Hook): bool {
    s.done || (|h.closed| > |s.hook.closed| && Of(h.closed[|h.closed| - 1].items, s.cur) != [])
  }

  function Step(u: Setup, s: State, l: Label): State
    requires Enabled(u, s, l)
  {
    match l
    case Tick => s.(now := s.now + 1)
    case NextRequest =>
      s.(now := s.now + 1, began := s.now + 1, cur := if s.front.Waiting? then s.cur else s.cur + 1,
         front := Running, done := false)
    case Record(li, breaks) =>
      var rec := Rec(s.cur, |Of(s.recorded, s.cur)|, li, breaks);
      s.(hook := s.hook.(q := s.hook.q + [Data(rec)]), recorded := s.recorded + [rec])
    case Return => s.(front := Returned)
    case Signal => s.(front := Signalled, sig := Some(s.now))
    case Pop => s.(busy := Some(s.hook.q[0]), hook := s.hook.(q := s.hook.q[1..]))
    case Work =>
      var h := Worked(s.hook, s.busy.value, s.now);
      s.(busy := None, hook := h, done := Noticed(s, h))
    case Stat => s.(watcher := Seen(s.sig))
    case Decide(gpuBusy) =>
      var d := Decision(s.hook, s.watcher.mtime, gpuBusy, s.now, u.idleS);
      s.(watcher := Decided(d.0, d.1))
    case OtherDecide =>
      var d := Decision(Hook([], None, []), s.sig, false, s.now, u.idleS);
      s.(sig := if d.1 then None else s.sig)
    case Unlink => s.(sig := if s.watcher.unlink then None else s.sig,
                      watcher := if s.watcher.fire.Some? then Putting(s.watcher.fire.value) else Polling)
    case Put => s.(hook := s.hook.(q := s.hook.q + [Flush(s.watcher.reason)]), watcher := Polling)
  }

  /** sig: a signal file left over from before. */
  function Start(sig: Option<nat>): State {
    State(sig.GetOr(0), sig, Hook([], None, []), None, Polling, Waiting, 0, 0, false, [])
  }

  function Run(u: Setup, sig: Option<nat>, labels: seq<Label>): Option<State> {
    if labels == [] then Some(Start(sig))
    else
      var before := Run(u, sig, labels[..|labels| - 1]);
      var l := labels[|labels| - 1];
      if before.Some? && Enabled(u, before.value, l) then Some(Step(u, before.value, l)) else None
  }

  // ---- the invariant of a front-driven set-up

  function Recs(q: seq<Item>): seq<Rec> {
    if q == [] then [] else (if q[0].Data? then [q[0].rec] else []) + Recs(q[1..])
  }

  /** Items of the current request on their way, oldest first: in the open capture, with the worker, in the queue. */
  function Live(s: State): seq<Rec> {
    (if s.hook.open.Some? then s.hook.open.value.items else [])
    + (if s.busy.Some? && s.busy.value.Data? then [s.busy.value.rec] else [])
    + Recs(s.hook.q)
  }

  /** A flush is on its way: decided, or in the queue, or with the worker. */
  predicate Flushing(s: State) {
    || (s.watcher.Decided? && s.watcher.fire.Some?) || s.watcher.Putting?
    || (s.busy.Some? && s.busy.value.Flush?) || (exists x :: x in s.hook.q && x.Flush?)
  }

  /** Nothing of the current request is lost or duplicated, and nothing else is on its way. */
  ghost predicate LiveKept(s: State) {
    && Live(s) == (if s.done then [] else Of(s.recorded, s.cur))
    && (s.hook.open.Some? ==>
        s.hook.open.value.items != [] && 0 < s.hook.open.value.calls && s.began <= s.hook.open.value.firstT <= s.now)
    && (forall i | 0 <= i < |s.recorded| :: s.recorded[i].req <= s.cur)
    && (forall i | 0 < i < |Of(s.recorded, s.cur)| :: Of(s.recorded, s.cur)[i].li == 0 ==>
        !Of(s.recorded, s.cur)[i].breaks)
    && (s.front.Waiting? ==> s.recorded == [] && s.cur == 0)
    && (s.done ==> s.front.Signalled?)
  }

  /** There is one flush at most, it follows the signal of the current request, and the signal is gone with it. */
  ghost predicate FlushKept(s: State) {
    && (Flushing(s) ==> s.front.Signalled? && !s.done && s.hook.open.Some? && Recs(s.hook.q) == []
                        && (s.sig.None? || s.watcher == Decided(Some(FlushNow), true))
                        && !(s.watcher.Seen? && s.watcher.mtime.Some?))
    && (s.watcher.Decided? && s.watcher.fire.Some? ==> s.watcher == Decided(Some(FlushNow), true))
    && (s.watcher.Putting? ==> s.watcher.reason == FlushNow)
    && (s.watcher.Putting? || (s.watcher.Decided? && s.watcher.fire.Some?) ==>
        s.hook.q == [] && (s.busy.Some? ==> s.busy.value.Data?))
    && (s.busy.Some? && s.busy.value.Flush? ==> s.busy.value.reason == FlushNow && s.hook.q == [])
    && (forall x | x in s.hook.q && x.Flush? :: s.hook.q == [Flush(FlushNow)])
  }

  ghost predicate TimesKept(s: State) {
    && s.began <= s.now
    && (s.sig.Some? ==> s.sig.value <= s.now && (s.front.Running? || s.front.Returned? ==> s.sig.value < s.began))
    && (s.watcher.Seen? && s.watcher.mtime.Some? ==>
          s.watcher.mtime.value <= s.now && (s.front.Running? || s.front.Returned? ==> s.watcher.mtime.value < s.began))
  }

  /** A closed capture holds all items of its request. */
  ghost predicate Whole(s: State, c: Closed) {
    && c.reason == FlushNow && c.items != [] && c.items == Of(s.recorded, c.items[0].req)
    && (c.items[0].req < s.cur || (c.items[0].req == s.cur && s.done))
  }

  ghost predicate ClosedKept(s: State) {
    forall i | 0 <= i < |s.hook.closed| :: Whole(s, s.hook.closed[i])
  }

  ghost predicate Inv(s: State) {
    LiveKept(s) && FlushKept(s) && TimesKept(s) && ClosedKept(s)
  }

  lemma {:induction false} RecsAppend(q: seq<Item>, x: Item)
    ensures Recs(q + [x]) == Recs(q) + if x.Data? then [x.rec] else []
  {
    if q != [] {
      RecsAppend(q[1..], x);
      assert (q + [x])[1..] == q[1..] + [x];
    }
  }

  lemma OfAppend(recs: seq<Rec>, r: Rec, i: nat)
    ensures Of(recs + [r], i) == Of(recs, i) + if r.req == i then [r] else []
  {
    assert (recs + [r])[..|recs|] == recs;
  }

  lemma {:induction false} OfNone(recs: seq<Rec>, i: nat)
    requires forall k | 0 <= k < |recs| :: recs[k].req < i
    ensures Of(recs, i) == []
  {
    if recs != [] {
      OfNone(recs[..|recs| - 1], i);
    }
  }

  lemma {:induction false} OfAll(recs: seq<Rec>, i: nat)
    ensures forall k | 0 <= k < |Of(recs, i)| :: Of(recs, i)[k].req == i
    ensures (forall k | 0 <= k < |recs| :: recs[k].req == i) ==> Of(recs, i) == recs
  {
    if recs != [] {
      OfAll(recs[..|recs| - 1], i);
    }
  }

  lemma OfEmpty(i: nat)
    ensures Of([], i) == []
  {
  }

  /** Once the current capture is closed, or before the first request, nothing is on its way. */
  lemma NothingLive(s: State)
    requires LiveKept(s) && FlushKept(s) && (s.done || s.front.Waiting?)
    ensures Live(s) == [] && s.hook.open.None? && !Flushing(s) && Recs(s.hook.q) == []
            && (s.busy.Some? ==> s.busy.value.Flush?)
  {
    hide Recs, Of;
    if s.front.Waiting? {
      OfEmpty(s.cur);
    }
  }

  lemma NextKeeps(u: Setup, s: State)
    requires Inv(s) && Enabled(u, s, NextRequest) && u.waits
    ensures Inv(Step(u, s, NextRequest))
  {
    hide Recs;
    if !s.front.Waiting? {
      OfNone(s.recorded, s.cur + 1);
    }
    NothingLive(s);
  }

  lemma RecordClosed(u: Setup, s: State, li: nat, breaks: bool)
    requires ClosedKept(s) && !s.done && Enabled(u, s, Record(li, breaks))
    ensures ClosedKept(Step(u, s, Record(li, breaks)))
  {
    hide Of;
    var rec := Rec(s.cur, |Of(s.recorded, s.cur)|, li, breaks);
    forall i | 0 <= i < |s.hook.closed|
      ensures Whole(Step(u, s, Record(li, breaks)), s.hook.closed[i])
    {
      assert Whole(s, s.hook.closed[i]);
      OfAppend(s.recorded, rec, s.hook.closed[i].items[0].req);
    }
  }

  lemma RecordLive(u: Setup, s: State, li: nat, breaks: bool)
    requires LiveKept(s) && Enabled(u, s, Record(li, breaks))
    ensures LiveKept(Step(u, s, Record(li, breaks)))
  {
    hide Recs, Of;
    var rec := Rec(s.cur, |Of(s.recorded, s.cur)|, li, breaks);
    RecsAppend(s.hook.q, Data(rec));
    OfAppend(s.recorded, rec, s.cur);
  }

  lemma RecordKeeps(u: Setup, s: State, li: nat, breaks: bool)
    requires Inv(s) && Enabled(u, s, Record(li, breaks))
    ensures Inv(Step(u, s, Record(li, breaks)))
  {
    hide Recs, Of, Live, ClosedKept;
    assert !s.done;
    RecordClosed(u, s, li, breaks);
    RecordLive(u, s, li, breaks);
    hide LiveKept;
  }

  lemma PopLive(u: Setup, s: State)
    requires Enabled(u, s, Pop)
    ensures Live(Step(u, s, Pop)) == Live(s)
  {
    assert s.hook.q == [s.hook.q[0]] + s.hook.q[1..];
  }

  lemma PopFlush(u: Setup, s: State)
    requires FlushKept(s) && Enabled(u, s, Pop)
    ensures FlushKept(Step(u, s, Pop))
  {
    var q := s.hook.q;
    assert q == [q[0]] + q[1..];
    if q[0].Flush? {
      assert q[0] in q;
    }
    assert forall x :: x in q[1..] ==> x in q;
  }

  lemma SameClosed(s: State, t: State)
    requires ClosedKept(s) && t.hook.closed == s.hook.closed && t.recorded == s.recorded && t.cur == s.cur
             && t.done == s.done
    ensures ClosedKept(t)
  {
    forall i | 0 <= i < |t.hook.closed|
      ensures Whole(t, t.hook.closed[i])
    {
      assert Whole(s, s.hook.closed[i]);
    }
  }

  lemma PopKeeps(u: Setup, s: State)
    requires Inv(s) && Enabled(u, s, Pop)
    ensures Inv(Step(u, s, Pop))
  {
    hide Of, Live, FlushKept, ClosedKept;
    PopLive(u, s);
    PopFlush(u, s);
    SameClosed(s, Step(u, s, Pop));
  }

  predicate RollsOver(h: Hook, rec: Rec) {
    h.open.Some? && rec.li == 0 && 0 < h.open.value.calls && rec.breaks
  }

  lemma IngestGrows(h: Hook, rec: Rec, now: nat)
    requires !RollsOver(h, rec)
    ensures var t := Ingest(h, rec, now);
            && t.q == h.q && t.closed == h.closed && t.open.Some? && 0 < t.open.value.calls
            && t.open.value.firstT == (if h.open.Some? then h.open.value.firstT else now)
            && t.open.value.items == (if h.open.Some? then h.open.value.items else []) + [rec]
  {
  }

  /** No item of a request is taken for the start of another. */
  lemma NoRollover(s: State)
    requires LiveKept(s) && s.busy.Some? && s.busy.value.Data?
    ensures !RollsOver(s.hook, s.busy.value.rec) && !s.done
  {
    hide Recs, Of;
    var own := Of(s.recorded, s.cur);
    if s.hook.open.Some? {
      var k := |s.hook.open.value.items|;
      assert own[k] == s.busy.value.rec;
    }
  }

  /** The worker takes in a data item: the open capture grows. */
  lemma IngestKeeps(u: Setup, s: State)
    requires Inv(s) && Enabled(u, s, Work) && s.busy.value.Data?
    ensures Inv(Step(u, s, Work))
  {
    hide Recs, Of, Ingest, Finish;
    NoRollover(s);
    IngestGrows(s.hook, s.busy.value.rec, s.now);
    var t := Step(u, s, Work);
    assert Live(t) == Live(s);
    assert ClosedKept(t) by { SameClosed(s, t); }
    hide Live, ClosedKept;
  }

  /** The flush reaches the worker behind everything recorded: the open capture is the whole request. */
  lemma FlushFindsAll(s: State)
    requires Inv(s) && s.busy.Some? && s.busy.value.Flush?
    ensures s.busy.value.reason == FlushNow && s.hook.open.Some? && !s.done && s.front.Signalled? && s.hook.q == []
    ensures s.hook.open.value.items == Of(s.recorded, s.cur) != []
    ensures Of(s.hook.open.value.items, s.cur) == s.hook.open.value.items && s.hook.open.value.items[0].req == s.cur
    ensures !(s.watcher.Decided? && s.watcher.fire.Some?) && !s.watcher.Putting?
  {
    hide Decision;
    assert Flushing(s);
    assert Live(s) == s.hook.open.value.items;
    OfAll(s.recorded, s.cur);
    OfAll(s.hook.open.value.items, s.cur);
  }

  lemma OneMoreClosed(u: Setup, s: State)
    requires Inv(s) && Enabled(u, s, Work) && s.busy.value.Flush?
    ensures ClosedKept(Step(u, s, Work))
  {
    FlushFindsAll(s);
    hide Of, LiveKept, FlushKept, TimesKept;
    var t := Step(u, s, Work);
    forall i | 0 <= i < |t.hook.closed|
      ensures Whole(t, t.hook.closed[i])
    {
      if i < |s.hook.closed| {
        assert Whole(s, s.hook.closed[i]);
      }
    }
  }

  lemma FlushCloses(u: Setup, s: State)
    requires Inv(s) && Enabled(u, s, Work) && s.busy.value.Flush?
    ensures Inv(Step(u, s, Work))
  {
    hide Of, Decision;
    FlushFindsAll(s);
    var t := Step(u, s, Work);
    assert ClosedKept(t) by { OneMoreClosed(u, s); }
    hide ClosedKept;
  }

  lemma OnlyTheSignalFires(h: Hook, sig: Option<nat>, gpuBusy: bool, now: nat, idleS: int)
    requires idleS <= 0 && Decision(h, sig, gpuBusy, now, idleS).0.Some?
    ensures Decision(h, sig, gpuBusy, now, idleS) == (Some(FlushNow), true)
    ensures h.open.Some? && h.q == [] && sig.Some? && h.open.value.firstT <= sig.value
  {
  }

  lemma DecideKeeps(u: Setup, s: State, gpuBusy: bool)
    requires Inv(s) && Enabled(u, s, Decide(gpuBusy)) && u.idleS <= 0
    ensures Inv(Step(u, s, Decide(gpuBusy)))
  {
    hide Of, ClosedKept, Decision;
    var t := Step(u, s, Decide(gpuBusy));
    assert ClosedKept(t) by { SameClosed(s, t); }
    if t.watcher.fire.Some? {
      OnlyTheSignalFires(s.hook, s.watcher.mtime, gpuBusy, s.now, u.idleS);
      OfEmpty(s.cur);
      assert !Flushing(s);
    }
    assert Live(t) == Live(s);
    hide Live;
  }

  lemma OthersKeep(u: Setup, s: State, l: Label)
    requires Inv(s) && Enabled(u, s, l)
    requires l.Tick? || l.Return? || l.Signal? || l.Stat? || l.OtherDecide?
    ensures Inv(Step(u, s, l))
  {
    hide Of, ClosedKept;
    var t := Step(u, s, l);
    assert ClosedKept(t) by { SameClosed(s, t); }
    assert Live(t) == Live(s);
    hide Live;
  }

  lemma WatcherKeeps(u: Setup, s: State, l: Label)
    requires Inv(s) && Enabled(u, s, l) && (l.Unlink? || l.Put?)
    ensures Inv(Step(u, s, l))
  {
    hide Of, ClosedKept;
    var t := Step(u, s, l);
    assert ClosedKept(t) by { SameClosed(s, t); }
    if l.Put? {
      RecsAppend(s.hook.q, Flush(s.watcher.reason));
    }
    assert Live(t) == Live(s);
    hide Live;
  }

  lemma WorkKeeps(u: Setup, s: State)
    requires Inv(s) && Enabled(u, s, Work)
    ensures Inv(Step(u, s, Work))
  {
    hide Inv, Step;
    if s.busy.value.Data? {
      IngestKeeps(u, s);
    } else {
      FlushCloses(u, s);
    }
  }

  lemma InvStep(u: Setup, s: State, l: Label)
    requires Inv(s) && Enabled(u, s, l) && u.waits && u.idleS <= 0
    ensures Inv(Step(u, s, l))
  {
    hide Inv, Step, Enabled;
    match l
    case NextRequest => NextKeeps(u, s);
    case Record(li, breaks) => RecordKeeps(u, s, li, breaks);
    case Pop => PopKeeps(u, s);
    case Work => WorkKeeps(u, s);
    case Decide(gpuBusy) => DecideKeeps(u, s, gpuBusy);
    case Unlink => WatcherKeeps(u, s, l);
    case Put => WatcherKeeps(u, s, l);
    case _ => OthersKeep(u, s, l);
  }

  lemma {:induction false} RunKeeps(u: Setup, sig: Option<nat>, labels: seq<Label>, s: State)
    requires u.waits && u.idleS <= 0 && Run(u, sig, labels) == Some(s)
    ensures Inv(s)
    decreases |labels|
  {
    if labels != [] {
      hide Inv, Step, Enabled;
      var before := Run(u, sig, labels[..|labels| - 1]).value;
      RunKeeps(u, sig, labels[..|labels| - 1], before);
      InvStep(u, before, labels[|labels| - 1]);
    }
  }

  /** Flush safety: when the front drives the hook (no idle timer) and starts a request only after the last capture
      closed, every capture in every run was closed by the front's signal and holds every item ever recorded for its
      request. */
  lemma CapturesAreWhole(u: Setup, sig: Option<nat>, labels: seq<Label>, s: State)
    requires u.waits && u.idleS <= 0 && Run(u, sig, labels) == Some(s)
    ensures forall i | 0 <= i < |s.hook.closed| ::
              var c := s.hook.closed[i];
              c.reason == FlushNow && c.items != [] && c.items == Of(s.recorded, c.items[0].req)
  {
    RunKeeps(u, sig, labels, s);
    hide Of;
    forall i | 0 <= i < |s.hook.closed|
      ensures Whole(s, s.hook.closed[i])
    {
    }
  }

  // ---- what each premise is for

  lemma Advance(u: Setup, sig: Option<nat>, labels: seq<Label>, s: State, l: Label)
    requires Run(u, sig, labels) == Some(s) && Enabled(u, s, l)
    ensures Run(u, sig, labels + [l]) == Some(Step(u, s, l))
  {
    assert (labels + [l])[..|labels|] == labels;
  }

  /** A capture closed by the signal that misses an item of its request. */
  predicate CutShort(s: State) {
    exists i :: 0 <= i < |s.hook.closed| && s.hook.closed[i].reason == FlushNow && s.hook.closed[i].items != []
                && s.hook.closed[i].items != Of(s.recorded, s.hook.closed[i].items[0].req)
  }

  /** Request 0 with one item, taken in and signalled; q is empty, the capture open since time 1. */
  function Served(now: nat, w: Watcher): State {
    var rec := Rec(0, 0, 0, true);
    State(now, Some(now), Hook([], Some(Req(1, 1, 1, 1, [rec])), []), None, w, Signalled, 0, 1, false, [rec])
  }

  /** Request 0 with one item, taken in; sig is what was left over from before. */
  function Opened(sig: Option<nat>): State {
    var rec := Rec(0, 0, 0, true);
    var now := sig.GetOr(0) + 1;
    State(now, sig, Hook([], Some(Req(now, now, 1, 1, [rec])), []), None, Polling, Running, 0, now, false, [rec])
  }

  lemma RunNothing(u: Setup, sig: Option<nat>)
    ensures Run(u, sig, []) == Some(Start(sig))
  {
  }

  lemma ReachOpened(u: Setup, sig: Option<nat>) returns (labels: seq<Label>)
    ensures Run(u, sig, labels) == Some(Opened(sig)) && labels == [NextRequest, Record(0, true), Pop, Work]
  {
    hide Run;
    labels := [];
    var s := Start(sig);
    RunNothing(u, sig);
    Advance(u, sig, labels, s, NextRequest);
    labels, s := labels + [NextRequest], Step(u, s, NextRequest);
    Advance(u, sig, labels, s, Record(0, true));
    labels, s := labels + [Record(0, true)], Step(u, s, Record(0, true));
    Advance(u, sig, labels, s, Pop);
    labels, s := labels + [Pop], Step(u, s, Pop);
    Advance(u, sig, labels, s, Work);
    labels, s := labels + [Work], Step(u, s, Work);
    assert s.hook.q == [] && s.recorded == [Rec(0, 0, 0, true)] && s.hook.open.value.items == [Rec(0, 0, 0, true)];
  }

  lemma ReachServed(u: Setup) returns (labels: seq<Label>)
    ensures Run(u, None, labels) == Some(Served(1, Polling))
  {
    hide Run;
    labels := ReachOpened(u, None);
    var s := Opened(None);
    Advance(u, None, labels, s, Return);
    labels, s := labels + [Return], Step(u, s, Return);
    Advance(u, None, labels, s, Signal);
    labels, s := labels + [Signal], Step(u, s, Signal);
  }

  /** The second request's first item is taken in, the late flush arrives and closes its capture, then its second item
      comes. */
  lemma LateFlush(u: Setup, before: seq<Label>, s: State) returns (labels: seq<Label>, t: State)
    requires Run(u, None, before) == Some(s) && s.front.Running? && s.hook.q == [] && s.busy.None?
             && s.watcher == Putting(FlushNow)
    requires Of(s.recorded, s.cur) == []
    requires s.hook.open.Some? ==> 0 < s.hook.open.value.calls
    ensures Run(u, None, labels) == Some(t) && CutShort(t)
  {
    hide Run, Of;
    labels, t := before, s;
    var r0, r1 := Rec(s.cur, 0, 0, true), Rec(s.cur, 1, 1, false);
    OfAppend(s.recorded, r0, s.cur);
    OfAppend(s.recorded + [r0], r1, s.cur);
    Advance(u, None, labels, t, Record(0, true));
    labels, t := labels + [Record(0, true)], Step(u, t, Record(0, true));
    Advance(u, None, labels, t, Pop);
    labels, t := labels + [Pop], Step(u, t, Pop);
    Advance(u, None, labels, t, Work);
    labels, t := labels + [Work], Step(u, t, Work);
    assert t.hook.open.value.items == [r0] && t.hook.q == [] && t.watcher == Putting(FlushNow);
    Advance(u, None, labels, t, Put);
    labels, t := labels + [Put], Step(u, t, Put);
    Advance(u, None, labels, t, Pop);
    labels, t := labels + [Pop], Step(u, t, Pop);
    Advance(u, None, labels, t, Work);
    labels, t := labels + [Work], Step(u, t, Work);
    assert t.recorded == s.recorded + [r0];
    Advance(u, None, labels, t, Record(1, false));
    labels, t := labels + [Record(1, false)], Step(u, t, Record(1, false));
    assert t.hook.closed[|t.hook.closed| - 1] == Closed(FlushNow, [r0]);
  }

  /** A front that does not wait: the decision is taken for one capture, the put comes after the next one has opened. */
  lemma NotWaitingCutsShort(u: Setup) returns (labels: seq<Label>, s: State)
    requires !u.waits
    ensures Run(u, None, labels) == Some(s) && CutShort(s)
  {
    hide Run;
    labels := ReachServed(u);
    s := Served(1, Polling);
    Advance(u, None, labels, s, Stat);
    labels, s := labels + [Stat], Step(u, s, Stat);
    Advance(u, None, labels, s, Decide(false));
    labels, s := labels + [Decide(false)], Step(u, s, Decide(false));
    assert s.watcher == Decided(Some(FlushNow), true);
    Advance(u, None, labels, s, Unlink);
    labels, s := labels + [Unlink], Step(u, s, Unlink);
    Advance(u, None, labels, s, NextRequest);
    labels, s := labels + [NextRequest], Step(u, s, NextRequest);
    labels, s := LateFlush(u, labels, s);
  }

  lemma {:induction false} Wait(u: Setup, before: seq<Label>, s: State, n: nat) returns (labels: seq<Label>)
    requires Run(u, None, before) == Some(s)
    ensures Run(u, None, labels) == Some(s.(now := s.now + n))
    decreases n
  {
    hide Run;
    labels := before;
    if n > 0 {
      Advance(u, None, labels, s, Tick);
      labels := Wait(u, labels + [Tick], Step(u, s, Tick), n - 1);
    }
  }

  /** The idle flush is with the worker, the request signalled, the capture still open. */
  lemma ReachIdle(u: Setup) returns (labels: seq<Label>, s: State)
    requires 0 < u.idleS
    ensures Run(u, None, labels) == Some(s)
    ensures s == Served(1 + u.idleS, Polling).(busy := Some(Flush(IdleTimer)))
  {
    hide Run;
    labels := ReachOpened(u, None);
    labels := Wait(u, labels, Opened(None), u.idleS);
    s := Opened(None).(now := 1 + u.idleS);
    Advance(u, None, labels, s, Stat);
    labels, s := labels + [Stat], Step(u, s, Stat);
    Advance(u, None, labels, s, Decide(false));
    labels, s := labels + [Decide(false)], Step(u, s, Decide(false));
    assert s.watcher == Decided(Some(IdleTimer), false);
    Advance(u, None, labels, s, Unlink);
    labels, s := labels + [Unlink], Step(u, s, Unlink);
    Advance(u, None, labels, s, Put);
    labels, s := labels + [Put], Step(u, s, Put);
    Advance(u, None, labels, s, Pop);
    labels, s := labels + [Pop], Step(u, s, Pop);
    Advance(u, None, labels, s, Return);
    labels, s := labels + [Return], Step(u, s, Return);
    Advance(u, None, labels, s, Signal);
    labels, s := labels + [Signal], Step(u, s, Signal);
    assert s.hook.q == [];
  }

  /** The idle timer: its flush can close the capture between the signal's decision and its put, however long the
      front waits. */
  lemma IdleTimerCutsShort(u: Setup) returns (labels: seq<Label>, s: State)
    requires 0 < u.idleS
    ensures Run(u, None, labels) == Some(s) && CutShort(s)
  {
    hide Run;
    labels, s := ReachIdle(u);
    Advance(u, None, labels, s, Stat);
    labels, s := labels + [Stat], Step(u, s, Stat);
    Advance(u, None, labels, s, Decide(false));
    labels, s := labels + [Decide(false)], Step(u, s, Decide(false));
    assert s.watcher == Decided(Some(FlushNow), true);
    Advance(u, None, labels, s, Unlink);
    labels, s := labels + [Unlink], Step(u, s, Unlink);
    Advance(u, None, labels, s, Work);
    labels, s := labels + [Work], Step(u, s, Work);
    assert s.done && s.hook.open.None? && s.hook.q == [] && s.watcher == Putting(FlushNow);
    Advance(u, None, labels, s, NextRequest);
    labels, s := labels + [NextRequest], Step(u, s, NextRequest);
    labels, s := LateFlush(u, labels, s);
  }

  ghost predicate NeverCutsShort(u: Setup) {
    forall sig, labels :: Run(u, sig, labels).Some? ==> !CutShort(Run(u, sig, labels).value)
  }

  lemma NotCutShort(u: Setup, sig: Option<nat>, labels: seq<Label>)
    requires u.waits && u.idleS <= 0 && Run(u, sig, labels).Some?
    ensures !CutShort(Run(u, sig, labels).value)
  {
    hide Run;
    CapturesAreWhole(u, sig, labels, Run(u, sig, labels).value);
  }

  /** Exactly when flush_now captures are whole in every run: the front waits for each capture, and the idle timer is
      off. */
  lemma WholeIff(u: Setup)
    ensures NeverCutsShort(u) <==> u.waits && u.idleS <= 0
  {
    hide Run, CutShort;
    if u.waits && u.idleS <= 0 {
      forall sig, labels | Run(u, sig, labels).Some?
        ensures !CutShort(Run(u, sig, labels).value)
      {
        NotCutShort(u, sig, labels);
      }
    } else if !u.waits {
      var labels, s := NotWaitingCutsShort(u);
      assert CutShort(Run(u, None, labels).value);
    } else {
      var labels, s := IdleTimerCutsShort(u);
      assert CutShort(Run(u, None, labels).value);
    }
  }

  // ---- a signal can be lost

  /** The capture is open, the signal gone, and no flush on its way. */
  ghost predicate Stranded(s: State) {
    && s.front.Signalled? && s.sig.None? && s.hook.open.Some? && !s.done
    && s.hook.q == [] && s.busy.None?
    && (s.watcher.Polling? || s.watcher == Seen(None) || (s.watcher.Decided? && s.watcher.fire.None?))
  }

  /** With a front that waits and no idle timer, a stranded capture stays open whatever happens. */
  lemma StrandedForGood(u: Setup, s: State, l: Label)
    requires u.waits && u.idleS <= 0 && Stranded(s) && Enabled(u, s, l)
    ensures Stranded(Step(u, s, l))
  {
  }

  /** A tick is on its way to remove the signal file: it has decided to, or has read an mtime older than the open request. */
  predicate UnlinkPending(s: State) {
    || (s.watcher.Decided? && s.watcher.unlink)
    || (s.watcher.Seen? && s.watcher.mtime.Some? && s.hook.open.Some? && s.watcher.mtime.value < s.hook.open.value.firstT)
  }

  /** When a signal is safe: the worker has taken in the request's first item, and no tick is about to remove the
      signal file. */
  predicate Opportune(s: State) {
    s.hook.open.Some? && !UnlinkPending(s)
  }

  /** The open capture's signal is there, counts as its own, and nothing is about to remove it; or its flush is on the
      way. */
  ghost predicate Held(s: State) {
    s.hook.open.Some? && (Flushing(s) || (s.sig.Some? && s.hook.open.value.firstT <= s.sig.value && !UnlinkPending(s)))
  }

  ghost predicate SignalKept(s: State) {
    s.front.Signalled? && !s.done && Of(s.recorded, s.cur) != [] ==> Held(s)
  }

  lemma WorkKeepsSignal(u: Setup, s: State)
    requires Inv(s) && SignalKept(s) && Enabled(u, s, Work)
    ensures SignalKept(Step(u, s, Work))
  {
    hide Recs, Ingest;
    if s.busy.value.Data? {
      NoRollover(s);
      IngestGrows(s.hook, s.busy.value.rec, s.now);
    } else {
      FlushFindsAll(s);
    }
  }

  lemma DecideKeepsSignal(u: Setup, s: State, gpuBusy: bool)
    requires Inv(s) && SignalKept(s) && Enabled(u, s, Decide(gpuBusy))
    ensures SignalKept(Step(u, s, Decide(gpuBusy)))
  {
    hide Of, Recs, LiveKept, ClosedKept;
  }

  lemma OthersKeepSignal(u: Setup, s: State, l: Label)
    requires Inv(s) && SignalKept(s) && Enabled(u, s, l) && (l.Signal? ==> Opportune(s))
    requires !l.Work? && !l.Decide?
    ensures SignalKept(Step(u, s, l))
  {
    hide Of, Recs, ClosedKept, Live;
    if l.Pop? {
      assert s.hook.q == [s.hook.q[0]] + s.hook.q[1..];
    } else if l.Put? {
      assert Flush(s.watcher.reason) in s.hook.q + [Flush(s.watcher.reason)];
    }
  }

  /** No step but an inopportune signal endangers the signal of the current request. */
  lemma SignalStep(u: Setup, s: State, l: Label)
    requires Inv(s) && SignalKept(s) && Enabled(u, s, l) && (l.Signal? ==> Opportune(s))
    ensures SignalKept(Step(u, s, l))
  {
    hide Inv, SignalKept, Step, Enabled;
    match l
    case Work => WorkKeepsSignal(u, s);
    case Decide(gpuBusy) => DecideKeepsSignal(u, s, gpuBusy);
    case _ => OthersKeepSignal(u, s, l);
  }

  /** Every signal of the run is opportune, or its request recorded nothing. */
  ghost predicate Punctual(u: Setup, sig: Option<nat>, labels: seq<Label>)
    decreases |labels|
  {
    labels == [] ||
    (var n := |labels| - 1;
     && Punctual(u, sig, labels[..n])
     && (labels[n].Signal? && Run(u, sig, labels[..n]).Some? ==>
           var s := Run(u, sig, labels[..n]).value; Opportune(s) || Of(s.recorded, s.cur) == []))
  }

  lemma NothingToKeep(u: Setup, s: State)
    requires Enabled(u, s, Signal) && Of(s.recorded, s.cur) == []
    ensures SignalKept(Step(u, s, Signal))
  {
  }

  lemma KeptIsNotStranded(s: State)
    requires Inv(s) && SignalKept(s)
    ensures !Stranded(s)
  {
    hide Of, ClosedKept;
  }

  /** When every signal is opportune no signal is lost: in every state of the run a signalled capture that is not
      closed still has its signal, or its flush is on the way. */
  lemma {:induction false} PunctualKeeps(u: Setup, sig: Option<nat>, labels: seq<Label>, s: State)
    requires u.waits && u.idleS <= 0 && Run(u, sig, labels) == Some(s) && Punctual(u, sig, labels)
    ensures Inv(s) && SignalKept(s) && !Stranded(s)
    decreases |labels|
  {
    RunKeeps(u, sig, labels, s);
    if labels != [] {
      hide Inv, SignalKept, Step, Enabled, Stranded, Opportune, Of;
      var l, earlier := labels[|labels| - 1], labels[..|labels| - 1];
      var before := Run(u, sig, earlier).value;
      PunctualKeeps(u, sig, earlier, before);
      if l.Signal? && Of(before.recorded, before.cur) == [] {
        NothingToKeep(u, before);
      } else {
        SignalStep(u, before, l);
      }
    }
    KeptIsNotStranded(s);
  }

  /** A held signal fires at the first tick that finds the worker's queue empty, the GPU idle and the layers even. */
  lemma HeldFires(s: State, idleS: int)
    requires Held(s) && !Flushing(s) && s.hook.q == []
    requires s.hook.open.value.layers == 0 || s.hook.open.value.calls % s.hook.open.value.layers == 0
    ensures Decision(s.hook, s.sig, false, s.now, idleS) == (Some(FlushNow), true)
  {
  }

  // ---- the converse: what an inopportune signal can lead to

  /** With no flush on its way, what the worker holds is an item of the current request. */
  lemma DataOnly(s: State)
    requires Inv(s) && s.busy.Some? && !Flushing(s)
    ensures s.busy.value.Data? && !RollsOver(s.hook, s.busy.value.rec)
  {
    hide Of, Recs;
    NoRollover(s);
  }

  /** The worker works its queue off while everything else stands still. */
  lemma {:induction false} WorkOff(u: Setup, sig: Option<nat>, before: seq<Label>, s: State)
    returns (more: seq<Label>, t: State)
    requires u.waits && u.idleS <= 0 && Run(u, sig, before) == Some(s) && Inv(s)
    requires s.front.Signalled? && !s.done && !Flushing(s)
    ensures Run(u, sig, before + more) == Some(t) && Inv(t) && t.hook.q == [] && t.busy.None? && !t.done
    ensures t.front == s.front && t.watcher == s.watcher && t.sig == s.sig && t.now == s.now
    ensures t.cur == s.cur && t.recorded == s.recorded
    ensures s.hook.open.Some? ==> t.hook.open.Some? && t.hook.open.value.firstT == s.hook.open.value.firstT
    ensures s.hook.open.None? && t.hook.open.Some? ==> t.hook.open.value.firstT == s.now
    decreases 2 * |s.hook.q| + if s.busy.Some? then 1 else 0
  {
    hide Run, Inv, Of, Ingest;
    if s.busy.None? && s.hook.q == [] {
      assert before + [] == before;
      more, t := [], s;
    } else {
      var l := if s.busy.Some? then Work else Pop;
      if s.busy.Some? {
        DataOnly(s);
        IngestGrows(s.hook, s.busy.value.rec, s.now);
      }
      InvStep(u, s, l);
      Advance(u, sig, before, s, l);
      more, t := WorkOff(u, sig, before + [l], Step(u, s, l));
      assert before + [l] + more == before + ([l] + more);
      more := [l] + more;
    }
  }

  lemma MustBeOpen(s: State)
    requires Inv(s) && s.hook.q == [] && s.busy.None? && !s.done && Of(s.recorded, s.cur) != []
    ensures s.hook.open.Some? && s.hook.open.value.firstT <= s.now
  {
    hide Of, ClosedKept, FlushKept;
  }

  lemma BeforeSignal(s: State)
    requires Inv(s) && s.front.Returned?
    ensures !s.done && !Flushing(s) && !s.watcher.Putting? && (s.watcher.Decided? ==> s.watcher.fire.None?)
    ensures s.watcher.Seen? && s.watcher.mtime.Some? && s.hook.open.Some? ==> s.watcher.mtime.value < s.hook.open.value.firstT
  {
    hide Of, Recs, ClosedKept;
  }

  /** A tick that was under way when the signal was given ends without firing; it removes the file if it was about to. */
  lemma TickEnds(u: Setup, sig: Option<nat>, labels: seq<Label>, s: State) returns (more: seq<Label>, t: State)
    requires u.waits && u.idleS <= 0 && Run(u, sig, labels) == Some(s) && Inv(s)
    requires s.front.Signalled? && !s.done && !Flushing(s) && !s.watcher.Putting?
    requires s.watcher.Seen? && s.watcher.mtime.Some? && s.hook.open.Some? ==> s.watcher.mtime.value < s.hook.open.value.firstT
    ensures Run(u, sig, labels + more) == Some(t) && Inv(t)
    ensures t == s.(watcher := Polling, sig := if UnlinkPending(s) then None else s.sig)
  {
    hide Run, Inv, Of;
    more, t := [], s;
    assert labels + [] == labels;
    if t.watcher.Seen? {
      InvStep(u, t, Decide(true));
      Advance(u, sig, labels, t, Decide(true));
      more, t := [Decide(true)], Step(u, t, Decide(true));
    }
    if t.watcher.Decided? {
      InvStep(u, t, Unlink);
      Advance(u, sig, labels + more, t, Unlink);
      assert labels + more + [Unlink] == labels + (more + [Unlink]);
      more, t := more + [Unlink], Step(u, t, Unlink);
    }
  }

  /** The signal is given, the clock ticks, and a tick that was under way ends. */
  lemma AfterSignal(u: Setup, sig: Option<nat>, labels: seq<Label>, s: State) returns (more: seq<Label>, t: State)
    requires u.waits && u.idleS <= 0 && Run(u, sig, labels) == Some(s) && Inv(s) && s.front.Returned?
    ensures Run(u, sig, labels + [Signal] + more) == Some(t) && Inv(t)
    ensures t.front.Signalled? && !t.done && !Flushing(t) && t.watcher.Polling? && t.now == s.now + 1
    ensures t.sig == if UnlinkPending(s) then None else Some(s.now)
    ensures t.hook == s.hook && t.cur == s.cur && t.recorded == s.recorded
  {
    hide Run, Inv, Of;
    BeforeSignal(s);
    InvStep(u, s, Signal);
    Advance(u, sig, labels, s, Signal);
    var s1 := Step(u, s, Signal);
    InvStep(u, s1, Tick);
    Advance(u, sig, labels + [Signal], s1, Tick);
    more, t := TickEnds(u, sig, labels + [Signal] + [Tick], Step(u, s1, Tick));
    assert labels + [Signal] + [Tick] + more == labels + [Signal] + ([Tick] + more);
    more := [Tick] + more;
  }

  /** From an inopportune signal of a request with items, a run leads to a stranded capture of that request. */
  lemma InopportuneStrands(u: Setup, sig: Option<nat>, labels: seq<Label>, s: State)
    returns (more: seq<Label>, t: State)
    requires u.waits && u.idleS <= 0 && Run(u, sig, labels) == Some(s)
    requires s.front.Returned? && Of(s.recorded, s.cur) != [] && !Opportune(s)
    ensures Run(u, sig, labels + [Signal] + more) == Some(t) && t.cur == s.cur && Stranded(t)
  {
    hide Run, Inv, Of;
    RunKeeps(u, sig, labels, s);
    more, t := AfterSignal(u, sig, labels, s);
    var from := labels + [Signal] + more;
    var rest;
    rest, t := WorkOff(u, sig, from, t);
    MustBeOpen(t);
    assert from + rest == labels + [Signal] + (more + rest);
    more := more + rest;
    if t.sig.Some? {
      // the worker opened the request after the signal: the signal counts as left over
      var here := labels + [Signal] + more;
      Advance(u, sig, here, t, Stat);
      t := Step(u, t, Stat);
      Advance(u, sig, here + [Stat], t, Decide(true));
      t := Step(u, t, Decide(true));
      Advance(u, sig, here + [Stat] + [Decide(true)], t, Unlink);
      t := Step(u, t, Unlink);
      assert here + [Stat] + [Decide(true)] + [Unlink] == labels + [Signal] + (more + [Stat, Decide(true), Unlink]);
      more := more + [Stat, Decide(true), Unlink];
    }
  }

  lemma {:induction false} CurGrows(u: Setup, sig: Option<nat>, labels: seq<Label>, more: seq<Label>)
    requires Run(u, sig, labels + more).Some?
    ensures Run(u, sig, labels).Some? && Run(u, sig, labels).value.cur <= Run(u, sig, labels + more).value.cur
    decreases |more|
  {
    if more == [] {
      assert labels + more == labels;
    } else {
      var n := |more| - 1;
      assert (labels + more)[..|labels + more| - 1] == labels + more[..n];
      CurGrows(u, sig, labels, more[..n]);
    }
  }

  /** A signal that is kept once stays kept for as long as its request is the current one. */
  lemma {:induction false} KeptAlong(u: Setup, sig: Option<nat>, labels: seq<Label>, s: State, more: seq<Label>)
    requires u.waits && u.idleS <= 0 && Run(u, sig, labels) == Some(s) && s.front.Signalled? && SignalKept(s)
    requires Run(u, sig, labels + more).Some? && Run(u, sig, labels + more).value.cur == s.cur
    ensures var t := Run(u, sig, labels + more).value; t.front.Signalled? && SignalKept(t) && Inv(t)
    decreases |more|
  {
    hide Inv, SignalKept;
    RunKeeps(u, sig, labels + more, Run(u, sig, labels + more).value);
    if more == [] {
      assert labels + more == labels;
    } else {
      var n := |more| - 1;
      assert (labels + more)[..|labels + more| - 1] == labels + more[..n];
      CurGrows(u, sig, labels, more[..n]);
      var before := Run(u, sig, labels + more[..n]).value;
      RunKeeps(u, sig, labels + more[..n], before);
      KeptAlong(u, sig, labels, s, more[..n]);
      SignalStep(u, before, more[n]);
    }
  }

  /** From here on this request's capture is never stranded, whatever happens. */
  ghost predicate NeverStrands(u: Setup, sig: Option<nat>, labels: seq<Label>, cur: nat) {
    forall more | Run(u, sig, labels + more).Some? && Run(u, sig, labels + more).value.cur == cur ::
      !Stranded(Run(u, sig, labels + more).value)
  }

  lemma SignalGiven(u: Setup, s: State)
    requires Inv(s) && Enabled(u, s, Signal) && Opportune(s)
    ensures SignalKept(Step(u, s, Signal))
  {
    hide Of, Recs, ClosedKept, FlushKept;
  }

  /** Exactly when a signal cannot be lost: at the moment the front gives it for a request with items, the worker has
      opened the request, and no tick is on the way to remove a signal file. */
  lemma SignalIff(u: Setup, sig: Option<nat>, labels: seq<Label>, s: State)
    requires u.waits && u.idleS <= 0 && Run(u, sig, labels) == Some(s)
    requires s.front.Returned? && Of(s.recorded, s.cur) != []
    ensures Opportune(s) <==> NeverStrands(u, sig, labels + [Signal], s.cur)
  {
    hide Run, Of, Inv, Stranded, SignalKept;
    if Opportune(s) {
      RunKeeps(u, sig, labels, s);
      Advance(u, sig, labels, s, Signal);
      SignalGiven(u, s);
      forall more | Run(u, sig, labels + [Signal] + more).Some?
        && Run(u, sig, labels + [Signal] + more).value.cur == s.cur
        ensures !Stranded(Run(u, sig, labels + [Signal] + more).value)
      {
        KeptAlong(u, sig, labels + [Signal], Step(u, s, Signal), more);
        KeptIsNotStranded(Run(u, sig, labels + [Signal] + more).value);
      }
    } else {
      var more, t := InopportuneStrands(u, sig, labels, s);
    }
  }

  /** Request 0 with one item, not taken in yet, and its signal. */
  function SignalledEarly(): State {
    var rec := Rec(0, 0, 0, true);
    State(2, Some(1), Hook([Data(rec)], None, []), None, Polling, Signalled, 0, 1, false, [rec])
  }

  lemma ReachSignalledEarly(u: Setup) returns (labels: seq<Label>)
    ensures Run(u, None, labels) == Some(SignalledEarly())
            && labels == [NextRequest, Record(0, true), Return, Signal, Tick]
  {
    hide Run;
    labels := [];
    var s := Start(None);
    RunNothing(u, None);
    Advance(u, None, labels, s, NextRequest);
    labels, s := labels + [NextRequest], Step(u, s, NextRequest);
    Advance(u, None, labels, s, Record(0, true));
    labels, s := labels + [Record(0, true)], Step(u, s, Record(0, true));
    Advance(u, None, labels, s, Return);
    labels, s := labels + [Return], Step(u, s, Return);
    Advance(u, None, labels, s, Signal);
    labels, s := labels + [Signal], Step(u, s, Signal);
    Advance(u, None, labels, s, Tick);
    labels, s := labels + [Tick], Step(u, s, Tick);
    assert s.hook.q == [Data(Rec(0, 0, 0, true))] && s.recorded == [Rec(0, 0, 0, true)];
  }

  /** A signal that lands before the worker has opened the request counts as older than it, and is removed. */
  lemma EarlySignalStrands(u: Setup) returns (labels: seq<Label>, s: State)
    ensures Run(u, None, labels) == Some(s) && Stranded(s)
    ensures labels == [NextRequest, Record(0, true), Return, Signal, Tick, Pop, Work, Stat, Decide(true), Unlink]
  {
    hide Run;
    labels := ReachSignalledEarly(u);
    s := SignalledEarly();
    Advance(u, None, labels, s, Pop);
    labels, s := labels + [Pop], Step(u, s, Pop);
    assert s.hook.q == [];
    Advance(u, None, labels, s, Work);
    labels, s := labels + [Work], Step(u, s, Work);
    Advance(u, None, labels, s, Stat);
    labels, s := labels + [Stat], Step(u, s, Stat);
    Advance(u, None, labels, s, Decide(true));
    labels, s := labels + [Decide(true)], Step(u, s, Decide(true));
    assert s.watcher == Decided(None, true);
    Advance(u, None, labels, s, Unlink);
    labels, s := labels + [Unlink], Step(u, s, Unlink);
  }

  /** A tick decides that a left-over signal file is stale; the front touches the file; the unlink, which comes after
      the lock has been released, removes the new signal. The worker had opened the request long before. */
  lemma LateUnlinkStrands(u: Setup) returns (labels: seq<Label>, s: State)
    ensures Run(u, Some(0), labels) == Some(s) && Stranded(s)
    ensures labels == [NextRequest, Record(0, true), Pop, Work, Stat, Decide(true), Return, Signal, Unlink]
  {
    hide Run;
    labels := ReachOpened(u, Some(0));
    s := Opened(Some(0));
    Advance(u, Some(0), labels, s, Stat);
    labels, s := labels + [Stat], Step(u, s, Stat);
    Advance(u, Some(0), labels, s, Decide(true));
    labels, s := labels + [Decide(true)], Step(u, s, Decide(true));
    assert s.watcher == Decided(None, true);
    Advance(u, Some(0), labels, s, Return);
    labels, s := labels + [Return], Step(u, s, Return);
    Advance(u, Some(0), labels, s, Signal);
    labels, s := labels + [Signal], Step(u, s, Signal);
    Advance(u, Some(0), labels, s, Unlink);
    labels, s := labels + [Unlink], Step(u, s, Unlink);
  }
}
