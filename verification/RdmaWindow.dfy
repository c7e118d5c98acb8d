/** fabric/rdma_file.c: the two-slot window protocol. Sender, network and receiver take steps in any order; the WRITEs
    of a window land in any order. An address is a slot and an offset here (RdmaGeometry says why that is enough). */
module RdmaWindow {
  import opened Seqs
  import opened RdmaGeometry

  /** Where the sender is: at the top of its loop; posting data, with `posted` WRITEs not landed yet and `unpolled`
      landed but not polled; or waiting for the completion of the flag WRITE. */
  datatype Phase = Top | Burst(off: nat, posted: seq<(nat, nat)>, unpolled: nat) | Flagging(landed: bool)

  /** The receiver polls the flag, has written `o` bytes of the window to the file, or has cleared the flag. */
  datatype Reading = Watch | Writing(o: nat) | Cleared

  datatype State<T> = State(
    sseq: nat, sent: nat, acked: nat, phase: Phase, own: seq<seq<T>>,
    rseq: nat, done: nat, reading: Reading, out: seq<T>,
    mem: seq<seq<T>>, flags: seq<nat>, acks: seq<nat>)

  datatype Label =
    | Fill | ReadAck | PostNext | Land(i: nat) | Poll | PostFlag | LandFlag | FlagDone
    | See | WriteOut(n: nat) | Clear | Ack

  /** k = (seq - 1) % SLOTS */
  function Slot(sseq: nat): nat
    requires 1 <= sseq
  {
    (sseq - 1) % SLOTS
  }

  /** The file, and the payload bytes of a slot. */
  datatype Job<T> = Job(file: seq<T>, cap: nat) {
    predicate Ok() { 0 < cap }

    /** wl of the window that begins at byte x. */
    function Wl(x: nat): nat
      requires x <= |file|
    {
      Min(|file| - x, cap)
    }

    function Next(x: nat): nat
      requires x <= |file|
    {
      x + Wl(x)
    }
  }

  /** Overwrites buf from off on. */
  function Patch<T>(buf: seq<T>, off: nat, data: seq<T>): (r: seq<T>)
    requires off + |data| <= |buf|
    ensures |r| == |buf| && r[off..off + |data|] == data
    ensures forall i | 0 <= i < |buf| && !(off <= i < off + |data|) :: r[i] == buf[i]
  {
    buf[..off] + data + buf[off + |data|..]
  }

  ghost predicate Shape<T>(j: Job<T>, s: State<T>) {
    && j.Ok() && 1 <= s.sseq && 1 <= s.rseq && s.sent <= |j.file| && s.done <= |j.file|
    && |s.own| == |s.mem| == |s.flags| == SLOTS
    && (forall k | 0 <= k < SLOTS :: |s.own[k]| == |s.mem[k]| == j.cap)
    && (s.phase.Burst? ==> s.phase.off <= Lim(j.Wl(s.sent), j.cap)
                           && forall p | p in s.phase.posted :: p.0 + p.1 <= s.phase.off)
    && (s.reading.Writing? ==> s.reading.o <= j.Wl(s.done))
  }

  ghost predicate Enabled<T>(j: Job<T>, s: State<T>, l: Label)
    requires Shape(j, s)
  {
    match l
    case Fill => s.phase.Top? && s.sent < |j.file| && (SLOTS < s.sseq ==> s.sseq - SLOTS <= s.acked)
    case ReadAck => s.phase.Top? && s.sent < |j.file| && SLOTS < s.sseq && s.acked < s.sseq - SLOTS && s.acks != []
    case PostNext => s.phase.Burst? && s.phase.off < Lim(j.Wl(s.sent), j.cap)
      && |s.phase.posted| + s.phase.unpolled < DEPTH
    case Land(i) => s.phase.Burst? && i < |s.phase.posted|
    case Poll => s.phase.Burst? && 0 < s.phase.unpolled
    case PostFlag => s.phase.Burst? && s.phase.off == Lim(j.Wl(s.sent), j.cap) && s.phase.posted == []
      && s.phase.unpolled == 0
    case LandFlag => s.phase == Flagging(false)
    case FlagDone => s.phase == Flagging(true)
    case See => s.reading.Watch? && s.done < |j.file| && s.flags[Slot(s.rseq)] == s.rseq
    case WriteOut(n) => s.reading.Writing? && 0 < n && s.reading.o + n <= j.Wl(s.done)
    case Clear => s.reading.Writing? && s.reading.o == j.Wl(s.done)
    case Ack => s.reading.Cleared?
  }

  /** A WRITE lands: the receiver's slot takes the bytes the sender's buffer holds at that moment. */
  ghost function LandAt<T>(j: Job<T>, s: State<T>, i: nat): State<T>
    requires Shape(j, s) && Enabled(j, s, Land(i))
  {
    var k, p := Slot(s.sseq), s.phase.posted[i];
    LimCovers(j.Wl(s.sent), j.cap);
    s.(mem := s.mem[k := Patch(s.mem[k], p.0, s.own[k][p.0..p.0 + p.1])],
       phase := Burst(s.phase.off, s.phase.posted[..i] + s.phase.posted[i + 1..], s.phase.unpolled + 1))
  }

  ghost function Step<T>(j: Job<T>, s: State<T>, l: Label): State<T>
    requires Shape(j, s) && Enabled(j, s, l)
  {
    match l
    case Fill =>
      var k := Slot(s.sseq);
      s.(own := s.own[k := Patch(s.own[k], 0, j.file[s.sent..j.Next(s.sent)])], phase := Burst(0, [], 0))
    case ReadAck => s.(acked := s.acks[0], acks := s.acks[1..])
    case PostNext =>
      var len := NextLen(s.phase.off, Lim(j.Wl(s.sent), j.cap));
      s.(phase := Burst(s.phase.off + len, s.phase.posted + [(s.phase.off, len)], s.phase.unpolled))
    case Land(i) => LandAt(j, s, i)
    case Poll => s.(phase := s.phase.(unpolled := s.phase.unpolled - 1))
    case PostFlag => s.(phase := Flagging(false))
    case LandFlag => s.(flags := s.flags[Slot(s.sseq) := s.sseq], phase := Flagging(true))
    case FlagDone => s.(sent := j.Next(s.sent), sseq := s.sseq + 1, phase := Top)
    case See => s.(reading := Writing(0))
    case WriteOut(n) =>
      var o := s.reading.o;
      s.(out := s.out + s.mem[Slot(s.rseq)][o..o + n], reading := Writing(o + n))
    case Clear => s.(flags := s.flags[Slot(s.rseq) := 0], reading := Cleared)
    case Ack => s.(acks := s.acks + [s.rseq], done := j.Next(s.done), rseq := s.rseq + 1, reading := Watch)
  }

  // ---- the invariant

  /** How far apart the two sides can be, and the ACKs between them. */
  ghost predicate Apart<T>(j: Job<T>, s: State<T>)
    requires Shape(j, s)
  {
    var q, r := s.sseq, s.rseq;
    && r <= q + 1 && q <= r + 2
    && (q + 1 == r ==> s.phase == Flagging(true) && s.sent < |j.file| && s.done == j.Next(s.sent) && s.reading.Watch?)
    && (q == r ==> s.sent == s.done)
    && (q == r + 1 ==> s.done < |j.file| && s.sent == j.Next(s.done))
    && (q == r + 2 ==>
        s.phase.Top? && s.done < |j.file| && j.Next(s.done) < |j.file| && s.sent == j.Next(j.Next(s.done)))
    && (!s.phase.Top? ==> s.sent < |j.file| && q <= s.acked + SLOTS)
    && (s.phase.Top? ==> q <= s.acked + SLOTS + 1)
    && s.acked < r && |s.acks| == r - 1 - s.acked && (forall i | 0 <= i < |s.acks| :: s.acks[i] == s.acked + 1 + i)
    && (!s.reading.Watch? ==> r < q || (r == q && s.phase == Flagging(true)))
  }

  /** Each flag word holds its window's number from the moment the flag lands until the receiver clears it. */
  ghost predicate FlagsKept<T>(j: Job<T>, s: State<T>)
    requires Shape(j, s)
  {
    var q, r := s.sseq, s.rseq;
    && s.flags[Slot(q)] == (if r == q && s.phase == Flagging(true) && !s.reading.Cleared? then q
                            else if q == r + 1 && s.phase == Flagging(true) then q
                            else if q == r + 2 && !s.reading.Cleared? then r else 0)
    && s.flags[Slot(q + 1)] == (if q == r + 1 && !s.reading.Cleared? then r else if q == r + 2 then q - 1 else 0)
  }

  /** Slot k holds the window that begins at byte x. */
  ghost predicate Full<T>(j: Job<T>, s: State<T>, k: nat, x: nat)
    requires Shape(j, s) && k < SLOTS
  {
    x <= |j.file| && s.mem[k][..j.Wl(x)] == j.file[x..j.Next(x)]
  }

  /** Every window that is flagged and not consumed is in its slot. */
  ghost predicate SlotsKept<T>(j: Job<T>, s: State<T>)
    requires Shape(j, s)
  {
    var q, r := s.sseq, s.rseq;
    && (s.phase.Flagging? && r <= q ==> Full(j, s, Slot(q), s.sent))
    && (q == r + 1 ==> Full(j, s, Slot(r), s.done))
    && (q == r + 2 ==> Full(j, s, Slot(r), s.done) && Full(j, s, Slot(r + 1), j.Next(s.done)))
  }

  predicate Outstanding(posted: seq<(nat, nat)>, x: nat) {
    exists p :: p in posted && p.0 <= x < p.0 + p.1
  }

  /** While a window is under way: the sender's buffer holds it, and whatever is posted and not outstanding has
      landed. */
  ghost predicate BurstKept<T>(j: Job<T>, s: State<T>)
    requires Shape(j, s)
  {
    s.phase.Burst? ==>
      var k := Slot(s.sseq);
      && s.own[k][..j.Wl(s.sent)] == j.file[s.sent..j.Next(s.sent)]
      && forall x | 0 <= x < s.phase.off && x < j.cap && !Outstanding(s.phase.posted, x) :: s.mem[k][x] == s.own[k][x]
  }

  ghost predicate OutKept<T>(j: Job<T>, s: State<T>)
    requires Shape(j, s)
  {
    var o := match s.reading case Watch => 0 case Writing(o) => o case Cleared => j.Wl(s.done);
    s.out == j.file[..s.done + o]
  }

  ghost predicate Inv<T>(j: Job<T>, s: State<T>) {
    Shape(j, s) && Apart(j, s) && FlagsKept(j, s) && SlotsKept(j, s) && BurstKept(j, s) && OutKept(j, s)
  }

  function Start<T>(own: seq<seq<T>>, mem: seq<seq<T>>): State<T> {
    State(1, 0, 0, Top, own, 1, 0, Watch, [], mem, [0, 0], [])
  }

  lemma LandShape<T>(j: Job<T>, s: State<T>, i: nat)
    requires Shape(j, s) && Enabled(j, s, Land(i))
    ensures Shape(j, LandAt(j, s, i))
  {
    hide Lim, Patch;
    LimCovers(j.Wl(s.sent), j.cap);
    var t := LandAt(j, s, i);
    forall p | p in t.phase.posted
      ensures p in s.phase.posted
    {
    }
  }

  lemma ShapeStep<T>(j: Job<T>, s: State<T>, l: Label)
    requires Shape(j, s) && Enabled(j, s, l)
    ensures Shape(j, Step(j, s, l))
  {
    hide Lim, NextLen, Patch;
    if l.Land? {
      LandShape(j, s, l.i);
      hide Shape, LandAt;
    }
  }

  lemma ApartStep<T>(j: Job<T>, s: State<T>, l: Label)
    requires Inv(j, s) && Enabled(j, s, l)
    ensures Shape(j, Step(j, s, l)) && Apart(j, Step(j, s, l))
  {
    hide Lim, Full, Outstanding, OutKept, BurstKept, SlotsKept, Patch;
    ShapeStep(j, s, l);
  }

  lemma FlagsStep<T>(j: Job<T>, s: State<T>, l: Label)
    requires Inv(j, s) && Enabled(j, s, l)
    ensures Shape(j, Step(j, s, l)) && FlagsKept(j, Step(j, s, l))
  {
    hide Lim, Full, Outstanding, OutKept, BurstKept, SlotsKept, Patch;
    ShapeStep(j, s, l);
  }

  lemma PatchAt<T>(mem: seq<T>, own: seq<T>, at: nat, len: nat, x: nat)
    requires at + len <= |mem| == |own| && x < |mem|
    ensures Patch(mem, at, own[at..at + len])[x] == if at <= x < at + len then own[x] else mem[x]
  {
  }

  lemma Unaffected(posted: seq<(nat, nat)>, i: nat, x: nat)
    requires i < |posted|
    ensures Outstanding(posted, x) && !(posted[i].0 <= x < posted[i].0 + posted[i].1) ==>
              Outstanding(posted[..i] + posted[i + 1..], x)
  {
    if Outstanding(posted, x) && !(posted[i].0 <= x < posted[i].0 + posted[i].1) {
      var p :| p in posted && p.0 <= x < p.0 + p.1;
      var n :| 0 <= n < |posted| && posted[n] == p;
      assert p == (posted[..i] + posted[i + 1..])[if n < i then n else n - 1];
    }
  }

  /** What a landing WRITE leaves: its range is the sender's, the rest of the slot and the other slot are as before. */
  lemma LandEffect<T>(j: Job<T>, s: State<T>, i: nat)
    requires Inv(j, s) && Enabled(j, s, Land(i))
    ensures Shape(j, LandAt(j, s, i)) && BurstKept(j, LandAt(j, s, i))
    ensures LandAt(j, s, i).mem[Slot(s.sseq + 1)] == s.mem[Slot(s.sseq + 1)]
  {
    hide Lim, Patch, Outstanding, Apart, FlagsKept, SlotsKept, OutKept;
    LandShape(j, s, i);
    LimCovers(j.Wl(s.sent), j.cap);
    var t := LandAt(j, s, i);
    var k, p := Slot(s.sseq), s.phase.posted[i];
    assert t.mem[k] == Patch(s.mem[k], p.0, s.own[k][p.0..p.0 + p.1]);
    forall x | 0 <= x < s.phase.off && x < j.cap && !Outstanding(t.phase.posted, x)
      ensures t.mem[k][x] == t.own[k][x]
    {
      Unaffected(s.phase.posted, i, x);
      PatchAt(s.mem[k], s.own[k], p.0, p.1, x);
    }
  }

  lemma StillOutstanding(posted: seq<(nat, nat)>, p: (nat, nat), x: nat)
    ensures Outstanding(posted, x) ==> Outstanding(posted + [p], x)
    ensures p.0 <= x < p.0 + p.1 ==> Outstanding(posted + [p], x)
  {
    assert (posted + [p])[|posted|] == p;
    if Outstanding(posted, x) {
      var q :| q in posted && q.0 <= x < q.0 + q.1;
      assert q in posted + [p];
    }
  }

  lemma PostKeeps<T>(j: Job<T>, s: State<T>)
    requires Shape(j, s) && BurstKept(j, s) && Enabled(j, s, PostNext)
    ensures Shape(j, Step(j, s, PostNext)) && BurstKept(j, Step(j, s, PostNext))
  {
    hide Lim;
    ShapeStep(j, s, PostNext);
    var t := Step(j, s, PostNext);
    forall x | 0 <= x < t.phase.off && x < j.cap && !Outstanding(t.phase.posted, x)
      ensures x < s.phase.off && !Outstanding(s.phase.posted, x)
    {
      StillOutstanding(s.phase.posted, t.phase.posted[|s.phase.posted|], x);
    }
  }

  lemma BurstStep<T>(j: Job<T>, s: State<T>, l: Label)
    requires Inv(j, s) && Enabled(j, s, l)
    ensures Shape(j, Step(j, s, l)) && BurstKept(j, Step(j, s, l))
  {
    hide Lim, Full, OutKept, SlotsKept, FlagsKept, Apart;
    ShapeStep(j, s, l);
    match l
    case Land(i) => LandEffect(j, s, i);
    case PostNext => PostKeeps(j, s);
    case Fill =>
      var k := Slot(s.sseq);
      assert Step(j, s, l).own[k][..j.Wl(s.sent)] == Step(j, s, l).own[k][0..0 + j.Wl(s.sent)];
    case _ =>
  }

  /** When the last completion has been polled, the slot holds the window. */
  lemma BurstDone<T>(j: Job<T>, s: State<T>)
    requires Shape(j, s) && BurstKept(j, s) && Enabled(j, s, PostFlag)
    ensures Full(j, s, Slot(s.sseq), s.sent)
  {
    hide Lim;
    LimCovers(j.Wl(s.sent), j.cap);
    var k := Slot(s.sseq);
    forall x | 0 <= x < j.Wl(s.sent)
      ensures s.mem[k][x] == s.own[k][x]
    {
      assert !Outstanding(s.phase.posted, x);
    }
    assert s.mem[k][..j.Wl(s.sent)] == s.own[k][..j.Wl(s.sent)];
  }

  lemma SlotsStep<T>(j: Job<T>, s: State<T>, l: Label)
    requires Inv(j, s) && Enabled(j, s, l)
    ensures Shape(j, Step(j, s, l)) && SlotsKept(j, Step(j, s, l))
  {
    hide Lim, Outstanding, BurstKept, OutKept, FlagsKept, Patch;
    ShapeStep(j, s, l);
    match l
    case PostFlag => BurstDone(j, s);
    case Land(i) => LandEffect(j, s, i);
    case _ =>
  }

  lemma WriteOutKeeps<T>(j: Job<T>, s: State<T>, n: nat)
    requires Shape(j, s) && Enabled(j, s, WriteOut(n)) && OutKept(j, s) && Full(j, s, Slot(s.rseq), s.done)
    ensures Shape(j, Step(j, s, WriteOut(n))) && OutKept(j, Step(j, s, WriteOut(n)))
  {
    hide Lim;
    ShapeStep(j, s, WriteOut(n));
    var o := s.reading.o;
    var x := s.mem[Slot(s.rseq)];
    SliceOfSlice(x, 0, j.Wl(s.done), o, o + n);
    SliceOfSlice(j.file, s.done, j.Next(s.done), o, o + n);
    SliceJoin(j.file, 0, s.done + o, s.done + o + n);
  }

  lemma BeingRead<T>(j: Job<T>, s: State<T>)
    requires Shape(j, s) && Apart(j, s) && SlotsKept(j, s) && !s.reading.Watch?
    ensures Full(j, s, Slot(s.rseq), s.done)
  {
    hide Full;
  }

  lemma OutStep<T>(j: Job<T>, s: State<T>, l: Label)
    requires Inv(j, s) && Enabled(j, s, l)
    ensures Shape(j, Step(j, s, l)) && OutKept(j, Step(j, s, l))
  {
    hide Lim, BurstKept, FlagsKept, Apart, SlotsKept, Full, Patch;
    ShapeStep(j, s, l);
    if l.WriteOut? {
      BeingRead(j, s);
      WriteOutKeeps(j, s, l.n);
    }
  }

  // ---- whole runs

  ghost predicate Begins<T>(j: Job<T>, own: seq<seq<T>>, mem: seq<seq<T>>) {
    j.Ok() && |own| == |mem| == SLOTS && forall k | 0 <= k < SLOTS :: |own[k]| == |mem[k]| == j.cap
  }

  /** The state after the steps in labels, or None when one of them was not enabled. */
  ghost function Run<T>(j: Job<T>, own: seq<seq<T>>, mem: seq<seq<T>>, labels: seq<Label>): Option<State<T>> {
    if labels == [] then Some(Start(own, mem))
    else
      var before := Run(j, own, mem, labels[..|labels| - 1]);
      var l := labels[|labels| - 1];
      if before.Some? && Shape(j, before.value) && Enabled(j, before.value, l) then Some(Step(j, before.value, l))
        else None
  }

  lemma StartInv<T>(j: Job<T>, own: seq<seq<T>>, mem: seq<seq<T>>)
    requires Begins(j, own, mem)
    ensures Inv(j, Start(own, mem))
  {
  }

  lemma {:induction false} RunKeeps<T>(j: Job<T>, own: seq<seq<T>>, mem: seq<seq<T>>, labels: seq<Label>, s: State<T>)
    requires Begins(j, own, mem) && Run(j, own, mem, labels) == Some(s)
    ensures Inv(j, s)
    decreases |labels|
  {
    hide Apart, FlagsKept, SlotsKept, BurstKept, OutKept, Step, Enabled, Shape;
    if labels == [] {
      StartInv(j, own, mem);
    } else {
      var l := labels[|labels| - 1];
      var before := Run(j, own, mem, labels[..|labels| - 1]).value;
      RunKeeps(j, own, mem, labels[..|labels| - 1], before);
      ApartStep(j, before, l);
      FlagsStep(j, before, l);
      SlotsStep(j, before, l);
      BurstStep(j, before, l);
      OutStep(j, before, l);
    }
  }

  /** In every interleaving, with the WRITEs of a window landing in any order: the receiver's file is the sender's up
      to where it stands, and once the receiver's loop has ended, all of it. */
  lemma FileArrives<T>(j: Job<T>, own: seq<seq<T>>, mem: seq<seq<T>>, labels: seq<Label>, s: State<T>)
    requires Begins(j, own, mem) && Run(j, own, mem, labels) == Some(s)
    ensures s.out <= j.file
    ensures s.done == |j.file| && s.reading.Watch? ==> s.out == j.file
  {
    RunKeeps(j, own, mem, labels, s);
  }

  lemma Consumed<T>(j: Job<T>, s: State<T>)
    requires Shape(j, s) && Apart(j, s) && s.phase.Burst?
    ensures SLOTS < s.sseq ==> s.sseq - SLOTS <= s.acked < s.rseq
    ensures !s.reading.Watch? ==> Slot(s.rseq) != Slot(s.sseq)
  {
    hide Lim;
  }

  /** No slot is refilled before it was consumed: a WRITE lands only in a slot whose previous window the receiver has
      written out and acknowledged, and which it is not reading. */
  lemma NoSlotReused<T>(j: Job<T>, own: seq<seq<T>>, mem: seq<seq<T>>, labels: seq<Label>, s: State<T>, i: nat)
    requires Begins(j, own, mem) && Run(j, own, mem, labels) == Some(s)
    requires Shape(j, s) && Enabled(j, s, Land(i))
    ensures SLOTS < s.sseq ==> s.sseq - SLOTS <= s.acked < s.rseq
    ensures !s.reading.Watch? ==> Slot(s.rseq) != Slot(s.sseq)
  {
    hide Apart, FlagsKept, SlotsKept, BurstKept, OutKept, Shape, Begins, Run;
    RunKeeps(j, own, mem, labels, s);
    Consumed(j, s);
  }

  lemma FlagWords<T>(j: Job<T>, s: State<T>)
    requires Shape(j, s) && Apart(j, s) && FlagsKept(j, s)
    ensures s.reading.Writing? ==> s.flags[Slot(s.rseq)] == s.rseq
    ensures s.phase == Flagging(false) ==> s.flags[Slot(s.sseq)] == 0
  {
    hide Lim;
  }

  /** No flag is lost: `*flag = 0` only ever erases the number of the window just written out, and a flag lands on a
      zero word. */
  lemma NoFlagLost<T>(j: Job<T>, own: seq<seq<T>>, mem: seq<seq<T>>, labels: seq<Label>, s: State<T>)
    requires Begins(j, own, mem) && Run(j, own, mem, labels) == Some(s) && Shape(j, s)
    ensures Enabled(j, s, Clear) ==> s.flags[Slot(s.rseq)] == s.rseq
    ensures Enabled(j, s, LandFlag) ==> s.flags[Slot(s.sseq)] == 0
  {
    hide Apart, FlagsKept, SlotsKept, BurstKept, OutKept, Begins, Run;
    RunKeeps(j, own, mem, labels, s);
    FlagWords(j, s);
  }

  lemma SenderMoves<T>(j: Job<T>, s: State<T>)
    requires Shape(j, s) && !s.phase.Top?
    ensures exists l :: Enabled(j, s, l)
  {
    hide Lim;
    if s.phase.Flagging? {
      assert Enabled(j, s, if s.phase.landed then FlagDone else LandFlag);
    } else if s.phase.posted != [] {
      assert Enabled(j, s, Land(0));
    } else if 0 < s.phase.unpolled {
      assert Enabled(j, s, Poll);
    } else {
      assert Enabled(j, s, if s.phase.off < Lim(j.Wl(s.sent), j.cap) then PostNext else PostFlag);
    }
  }

  lemma ReceiverMoves<T>(j: Job<T>, s: State<T>)
    requires Shape(j, s) && Apart(j, s) && FlagsKept(j, s) && s.phase.Top? && s.rseq < s.sseq
    ensures exists l :: Enabled(j, s, l)
  {
    hide Lim;
    if s.reading.Watch? {
      assert Enabled(j, s, See);
    } else if s.reading.Cleared? {
      assert Enabled(j, s, Ack);
    } else {
      assert Enabled(j, s, if s.reading.o < j.Wl(s.done) then WriteOut(1) else Clear);
    }
  }

  /** Some step is enabled until both loops have ended. */
  lemma NeverStuck<T>(j: Job<T>, own: seq<seq<T>>, mem: seq<seq<T>>, labels: seq<Label>, s: State<T>)
    requires Begins(j, own, mem) && Run(j, own, mem, labels) == Some(s)
    requires !(s.phase.Top? && s.sent == |j.file| && s.reading.Watch? && s.done == |j.file|)
    ensures Shape(j, s) && exists l :: Enabled(j, s, l)
  {
    RunKeeps(j, own, mem, labels, s);
    hide SlotsKept, BurstKept, OutKept, Lim;
    if !s.phase.Top? {
      SenderMoves(j, s);
    } else if s.sent < |j.file| && (SLOTS < s.sseq ==> s.sseq - SLOTS <= s.acked) {
      assert Enabled(j, s, Fill);
    } else if s.sent < |j.file| && s.acks != [] {
      assert Enabled(j, s, ReadAck);
    } else {
      ReceiverMoves(j, s);
    }
  }
}
