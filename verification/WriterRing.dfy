/** rdma/pd_rdma.c: the receiver's asynchronous block writer, a four-deep ring of jobs over a pool of four buffers,
    shared by the command thread (put, drain) and the writer thread under one mutex and one condition variable. */
module WriterRing {
  import opened Seqs

  /** PD_WQ_DEPTH */
  const DEPTH: nat := 4

  type Bytes = seq<bv8>

  datatype File = File(path: string, data: Bytes)

  /** struct pd_wjob; buf is the index of a pool buffer. */
  datatype Job = Job(path: string, len: nat, buf: nat)

  /** What the struct stands for: queued jobs oldest first, the stack of free buffers, the two flags. */
  datatype Ring = Ring(queue: seq<Job>, free: seq<nat>, busy: bool, failed: bool)

  function NewRing(): Ring {
    Ring([], [0, 1, 2, 3], false, false)
  }

  /** put's first half: the buffer on top of the stack is taken. */
  function Took(r: Ring): Ring
    requires r.free != []
  {
    r.(free := r.free[..|r.free| - 1])
  }

  function Queued(r: Ring, job: Job): Ring {
    r.(queue := r.queue + [job])
  }

  function Popped(r: Ring): Ring
    requires r.queue != []
  {
    r.(queue := r.queue[1..], busy := true)
  }

  function Returned(r: Ring, job: Job, ok: bool): Ring {
    Ring(r.queue, r.free + [job.buf], false, r.failed || !ok)
  }

  function Cleared(r: Ring): Ring {
    r.(failed := false)
  }

  /** struct pd_writer. A method is what one thread does while it holds the mutex. */
  class Writer {
    const jobs: array<Job>
    const freeBufs: array<nat>
    var head: nat
    var count: nat
    var nfree: nat
    var busy: bool
    var failed: bool

    ghost predicate Valid()
      reads this, jobs, freeBufs
    {
      jobs.Length == DEPTH == freeBufs.Length && head < DEPTH && count <= DEPTH && nfree <= DEPTH
    }

    ghost function View(): Ring
      requires Valid()
      reads this, jobs, freeBufs
    {
      Ring(seq(count, i requires 0 <= i < count reads this, jobs, freeBufs => if Valid() then jobs[(head + i) % DEPTH]
        else jobs[0]),
           freeBufs[..nfree], busy, failed)
    }

    /** pd_writer_start */
    constructor ()
      ensures Valid() && fresh(jobs) && fresh(freeBufs) && View() == NewRing()
    {
      jobs := new Job[DEPTH](i => Job("", 0, 0));
      freeBufs := new nat[DEPTH](i => i);
      head, count, nfree, busy, failed := 0, 0, DEPTH, false, false;
      new;
      assert freeBufs[..] == [0, 1, 2, 3];
    }

    /** The first half of put: a free buffer, or None when an earlier write failed. Waits while there is neither. */
    method Take() returns (buf: Option<nat>)
      requires Valid() && (nfree > 0 || failed)
      modifies `nfree
      ensures Valid() && buf.Some? == !old(failed)
      ensures old(failed) ==> View() == old(View())
      ensures !old(failed) ==> nfree < DEPTH && View() == Took(old(View())) && buf.value == old(View()).free[nfree]
    {
      if failed {
        return None;
      }
      nfree := nfree - 1;
      buf := Some(freeBufs[nfree]);
    }

    /** The second half of put, after the copy. */
    method Enqueue(job: Job)
      requires Valid() && count < DEPTH
      modifies `count, jobs
      ensures Valid() && View() == Queued(old(View()), job)
    {
      jobs[(head + count) % DEPTH] := job;
      count := count + 1;
    }

    /** The writer thread takes the oldest job. Waits while there is none. */
    method Dequeue() returns (job: Job)
      requires Valid() && count > 0
      modifies `head, `count, `busy
      ensures Valid() && job == old(View()).queue[0] && View() == Popped(old(View()))
    {
      job := jobs[head];
      head := (head + 1) % DEPTH;
      count := count - 1;
      busy := true;
    }

    /** The writer thread gives the buffer back; ok is write_file_atomic's return code. */
    method Land(job: Job, ok: bool)
      requires Valid() && nfree < DEPTH
      modifies this, freeBufs
      ensures Valid()
      ensures View() == Returned(old(View()), job, ok)
    {
      if !ok {
        failed := true;
      }
      freeBufs[nfree] := job.buf;
      nfree := nfree + 1;
      busy := false;
    }

    /** drain, once nothing is queued or being written: reports and clears the failure flag. */
    method Drain() returns (bad: bool)
      requires Valid() && count == 0 && !busy
      modifies `failed
      ensures Valid() && bad == old(failed) && View() == Cleared(old(View()))
    {
      bad := failed;
      failed := false;
    }
  }

  // ---- both threads

  /** Where the command thread is. Putting waits for a buffer; Holding has one, before or after the memcpy. */
  datatype Command = Idle | Putting(file: File, asleep: bool) | Holding(file: File, buf: nat,
                                    copied: bool) | Draining(asleep: bool)

  datatype Worker = Seeking(asleep: bool) | Writing(job: Job)

  /** mem: the pool buffers. accepted and landed are histories: the files put, and each finished write with its success;
      mark is where landed stood when the last drain returned. */
  datatype State = State(ring: Ring, mem: seq<Bytes>, command: Command, worker: Worker,
                         accepted: seq<File>, landed: seq<(File, bool)>, mark: nat)

  datatype Label =
    | StartPut(file: File) | PutTry | Copy | PutEnqueue
    | StartDrain | DrainTry
    | WorkerTry | Finish(ok: bool)
    | SpuriousWakeup

  /** pthread_cond_broadcast */
  function Wake(s: State): State {
    s.(command := match s.command case Putting(f, _) => Putting(f,
      false) case Draining(_) => Draining(false) case c => c,
       worker := if s.worker.Seeking? then Seeking(false) else s.worker)
  }

  /** memcpy of a whole file over the front of a buffer. */
  function Overlay(buf: Bytes, data: Bytes): Bytes {
    data + if |data| <= |buf| then buf[|data|..] else []
  }

  function FileOf(mem: seq<Bytes>, job: Job): File {
    var buf := if job.buf < |mem| then mem[job.buf] else [];
    File(job.path, if job.len <= |buf| then buf[..job.len] else buf)
  }

  predicate Enabled(s: State, l: Label) {
    match l
    case StartPut(_) => s.command.Idle?
    case PutTry => s.command.Putting? && !s.command.asleep
    case Copy => s.command.Holding? && !s.command.copied && s.command.buf < |s.mem|
    case PutEnqueue => s.command.Holding? && s.command.copied
    case StartDrain => s.command.Idle?
    case DrainTry => s.command.Draining? && !s.command.asleep
    case WorkerTry => s.worker == Seeking(false)
    case Finish(_) => s.worker.Writing?
    case SpuriousWakeup => true
  }

  /** One atomic step of one thread. */
  function Step(s: State, l: Label): State
    requires Enabled(s, l)
  {
    var r := s.ring;
    match l
    case StartPut(f) => s.(command := Putting(f, false))
    case PutTry =>
      if r.free == [] && !r.failed then s.(command := Putting(s.command.file, true))
      else if r.failed then s.(command := Idle)
      else s.(ring := Took(r), command := Holding(s.command.file, r.free[|r.free| - 1], false))
    case Copy => s.(mem := s.mem[s.command.buf := Overlay(s.mem[s.command.buf], s.command.file.data)],
      command := s.command.(copied := true))
    case PutEnqueue =>
      var f := s.command.file;
      Wake(s.(ring := Queued(r, Job(f.path, |f.data|, s.command.buf)), command := Idle, accepted := s.accepted + [f]))
    case StartDrain => s.(command := Draining(false))
    case DrainTry =>
      if r.queue != [] || r.busy then s.(command := Draining(true))
      else s.(ring := Cleared(r), command := Idle, mark := |s.landed|)
    case WorkerTry =>
      if r.queue == [] then s.(worker := Seeking(true))
      else s.(ring := Popped(r), worker := Writing(r.queue[0]))
    case Finish(ok) =>
      var job := s.worker.job;
      Wake(s.(ring := Returned(r, job, ok), worker := Seeking(false),
              landed := s.landed + [(FileOf(s.mem, job), ok)]))
    case SpuriousWakeup => Wake(s)
  }

  function Start(mem: seq<Bytes>): State {
    State(NewRing(), mem, Idle, Seeking(false), [], [], 0)
  }

  /** The state after the steps in labels, or None when one of them was not enabled. */
  function Run(mem: seq<Bytes>, labels: seq<Label>): Option<State> {
    if labels == [] then Some(Start(mem))
    else
      var before := Run(mem, labels[..|labels| - 1]);
      var l := labels[|labels| - 1];
      if before.Some? && Enabled(before.value, l) then Some(Step(before.value, l)) else None
  }

  // ---- the invariant

  function JobBufs(q: seq<Job>): multiset<nat> {
    if q == [] then multiset{} else JobBufs(q[..|q| - 1]) + multiset{q[|q| - 1].buf}
  }

  function FilesOf(mem: seq<Bytes>, q: seq<Job>): seq<File> {
    if q == [] then [] else FilesOf(mem, q[..|q| - 1]) + [FileOf(mem, q[|q| - 1])]
  }

  /** Jobs not finished yet, oldest first. */
  function Unfinished(s: State): seq<Job> {
    (if s.worker.Writing? then [s.worker.job] else []) + s.ring.queue
  }

  function Finished(landed: seq<(File, bool)>): seq<File> {
    if landed == [] then [] else Finished(landed[..|landed| - 1]) + [landed[|landed| - 1].0]
  }

  function Held(s: State): multiset<nat> {
    if s.command.Holding? then multiset{s.command.buf} else multiset{}
  }

  /** Every buffer wherever it is, counted with multiplicity. */
  function Total(free: seq<nat>, unfinished: seq<Job>, held: multiset<nat>): multiset<nat> {
    multiset(free) + JobBufs(unfinished) + held
  }

  /** free + queued + in write + held by put are the four buffers, each once. */
  ghost predicate BuffersKept(s: State) {
    |s.mem| == DEPTH && Total(s.ring.free, Unfinished(s), Held(s)) == multiset{0, 1, 2, 3}
  }

  /** What was accepted is what has landed, then what the unfinished jobs' buffers hold, in that order. */
  ghost predicate FilesKept(s: State) {
    && s.accepted == Finished(s.landed) + FilesOf(s.mem, Unfinished(s))
    && (s.command.Holding? && s.command.copied && s.command.buf < |s.mem| ==>
          |s.command.file.data| <= |s.mem[s.command.buf]|
            && s.mem[s.command.buf][..|s.command.file.data|] == s.command.file.data)
  }

  ghost predicate FlagsKept(s: State) {
    && s.ring.busy == s.worker.Writing?
    && s.mark <= |s.landed|
    && (s.ring.failed <==> exists i :: s.mark <= i < |s.landed| && !s.landed[i].1)
  }

  /** A thread sleeps only while what it waits for has not happened: no wakeup is lost. */
  ghost predicate SleepersKept(s: State) {
    && (s.command.Putting? && s.command.asleep ==> s.ring.free == [] && !s.ring.failed)
    && (s.command.Draining? && s.command.asleep ==> Unfinished(s) != [])
    && (s.worker == Seeking(true) ==> s.ring.queue == [])
  }

  ghost predicate Inv(s: State) {
    BuffersKept(s) && FilesKept(s) && FlagsKept(s) && SleepersKept(s)
  }

  lemma JobBufsPush(q: seq<Job>, j: Job)
    ensures JobBufs(q + [j]) == JobBufs(q) + multiset{j.buf}
  {
    assert (q + [j])[..|q|] == q;
  }

  lemma {:induction false} JobBufsAre(q: seq<Job>)
    ensures |JobBufs(q)| == |q| && forall j | j in q :: j.buf in JobBufs(q)
  {
    if q != [] {
      JobBufsAre(q[..|q| - 1]);
      assert q == q[..|q| - 1] + [q[|q| - 1]];
    }
  }

  lemma FilesOfPush(mem: seq<Bytes>, q: seq<Job>, j: Job)
    ensures FilesOf(mem, q + [j]) == FilesOf(mem, q) + [FileOf(mem, j)]
  {
    assert (q + [j])[..|q|] == q;
  }

  lemma NoJobs(mem: seq<Bytes>)
    ensures FilesOf(mem, []) == [] && JobBufs([]) == multiset{}
  {
  }

  lemma Regroup(a: multiset<nat>, b: multiset<nat>, c: multiset<nat>)
    ensures (a + b) + c == a + (b + c)
  {
  }

  lemma {:induction false} PopFirst(mem: seq<Bytes>, q: seq<Job>)
    requires q != []
    ensures FilesOf(mem, q) == [FileOf(mem, q[0])] + FilesOf(mem, q[1..])
    ensures JobBufs(q) == multiset{q[0].buf} + JobBufs(q[1..])
  {
    hide FileOf, FilesOf, JobBufs;
    var n := |q| - 1;
    var last := q[n];
    assert q == q[..n] + [last];
    FilesOfPush(mem, q[..n], last);
    JobBufsPush(q[..n], last);
    if n == 0 {
      NoJobs(mem);
      assert q[..n] == [] && q[1..] == [];
    } else {
      PopFirst(mem, q[..n]);
      assert q[1..] == q[..n][1..] + [last];
      FilesOfPush(mem, q[..n][1..], last);
      JobBufsPush(q[..n][1..], last);
      Regroup(multiset{q[0].buf}, JobBufs(q[..n][1..]), multiset{last.buf});
    }
  }

  /** Writing a buffer that no job uses changes no job's file. */
  lemma {:induction false} OtherBuffer(mem: seq<Bytes>, q: seq<Job>, buf: nat, data: Bytes)
    requires buf < |mem| && buf !in JobBufs(q)
    ensures FilesOf(mem[buf := data], q) == FilesOf(mem, q)
  {
    if q != [] {
      OtherBuffer(mem, q[..|q| - 1], buf, data);
    }
  }

  lemma TotalTake(free: seq<nat>, unfinished: seq<Job>)
    requires free != []
    ensures Total(free[..|free| - 1], unfinished, multiset{free[|free| - 1]}) == Total(free, unfinished, multiset{})
  {
    hide JobBufs;
    assert free == free[..|free| - 1] + [free[|free| - 1]];
  }

  lemma TotalQueue(free: seq<nat>, unfinished: seq<Job>, j: Job)
    ensures Total(free, unfinished + [j], multiset{}) == Total(free, unfinished, multiset{j.buf})
  {
    JobBufsPush(unfinished, j);
  }

  lemma TotalReturn(free: seq<nat>, unfinished: seq<Job>, held: multiset<nat>)
    requires unfinished != []
    ensures Total(free + [unfinished[0].buf], unfinished[1..], held) == Total(free, unfinished, held)
  {
    PopFirst([], unfinished);
  }

  lemma Once(a: multiset<nat>, c: multiset<nat>, x: nat)
    requires a + c <= multiset{0, 1, 2, 3} && x in a
    ensures x < DEPTH && x !in c
  {
    assert x in a + c;
  }

  lemma TotalMembers(free: seq<nat>, unfinished: seq<Job>, held: multiset<nat>)
    requires Total(free, unfinished, held) == multiset{0, 1, 2, 3}
    ensures |free| + |unfinished| + |held| == DEPTH
    ensures forall b | b in held :: b < DEPTH && b !in JobBufs(unfinished)
    ensures unfinished != [] ==> unfinished[0].buf !in JobBufs(unfinished[1..])
  {
    hide JobBufs;
    JobBufsAre(unfinished);
    assert |multiset(free)| == |free|;
    assert |Total(free, unfinished, held)| == 4;
    forall b | b in held
      ensures b < DEPTH && b !in JobBufs(unfinished)
    {
      Once(held, JobBufs(unfinished), b);
    }
    if unfinished != [] {
      PopFirst([], unfinished);
      Once(multiset{unfinished[0].buf}, JobBufs(unfinished[1..]), unfinished[0].buf);
    }
  }

  /** No sharing, and the slot put writes is never occupied. */
  lemma Exclusive(s: State)
    requires BuffersKept(s)
    ensures |s.mem| == DEPTH && |s.ring.free| + |Unfinished(s)| + |Held(s)| == DEPTH
    ensures s.command.Holding? ==>
              s.command.buf < DEPTH && s.command.buf !in JobBufs(Unfinished(s)) && |s.ring.queue| < DEPTH
    ensures s.worker.Writing? ==> s.worker.job.buf !in JobBufs(s.ring.queue) && |s.ring.free| < DEPTH
  {
    hide Total, JobBufs;
    TotalMembers(s.ring.free, Unfinished(s), Held(s));
    if s.worker.Writing? {
      assert Unfinished(s)[1..] == s.ring.queue;
    }
  }

  lemma TakeKeeps(s: State)
    requires BuffersKept(s) && FilesKept(s) && Enabled(s, PutTry)
    ensures BuffersKept(Step(s, PutTry)) && FilesKept(Step(s, PutTry))
  {
    hide FilesOf, Finished, FileOf, Total;
    if s.ring.free != [] && !s.ring.failed {
      TotalTake(s.ring.free, Unfinished(s));
    }
  }

  lemma CopyKeeps(s: State)
    requires BuffersKept(s) && FilesKept(s) && Enabled(s, Copy)
    ensures BuffersKept(Step(s, Copy)) && FilesKept(Step(s, Copy))
  {
    hide FilesOf, JobBufs, Finished, FileOf, Total;
    var t := Step(s, Copy);
    Exclusive(s);
    OtherBuffer(s.mem, Unfinished(s), s.command.buf, t.mem[s.command.buf]);
    assert t.mem[s.command.buf][..|s.command.file.data|] == s.command.file.data;
  }

  lemma EnqueueKeeps(s: State)
    requires BuffersKept(s) && FilesKept(s) && Enabled(s, PutEnqueue)
    ensures BuffersKept(Step(s, PutEnqueue)) && FilesKept(Step(s, PutEnqueue))
  {
    hide FilesOf, JobBufs, Finished, Total;
    var t := Step(s, PutEnqueue);
    var j := Job(s.command.file.path, |s.command.file.data|, s.command.buf);
    Exclusive(s);
    TotalQueue(s.ring.free, Unfinished(s), j);
    FilesOfPush(s.mem, Unfinished(s), j);
    assert Unfinished(t) == Unfinished(s) + [j];
  }

  lemma PopKeeps(s: State)
    requires BuffersKept(s) && FilesKept(s) && Enabled(s, WorkerTry)
    ensures BuffersKept(Step(s, WorkerTry)) && FilesKept(Step(s, WorkerTry))
  {
    hide FilesOf, Finished, FileOf, Total;
    if s.ring.queue != [] {
      assert Unfinished(Step(s, WorkerTry)) == Unfinished(s);
    }
  }

  lemma FinishedPush(landed: seq<(File, bool)>, f: (File, bool))
    ensures Finished(landed + [f]) == Finished(landed) + [f.0]
  {
    assert (landed + [f])[..|landed|] == landed;
  }

  /** Finishing the oldest job moves its file from the unfinished to the landed. */
  lemma FinishFiles(s: State, ok: bool)
    requires Enabled(s, Finish(ok))
    ensures var t := Step(s, Finish(ok));
            Finished(t.landed) + FilesOf(t.mem, Unfinished(t)) == Finished(s.landed) + FilesOf(s.mem, Unfinished(s))
  {
    hide FilesOf, FileOf, Finished;
    var job := s.worker.job;
    assert Unfinished(s)[1..] == s.ring.queue == Unfinished(Step(s, Finish(ok)));
    PopFirst(s.mem, Unfinished(s));
    FinishedPush(s.landed, (FileOf(s.mem, job), ok));
  }

  lemma FinishKeeps(s: State, ok: bool)
    requires BuffersKept(s) && FilesKept(s) && Enabled(s, Finish(ok))
    ensures BuffersKept(Step(s, Finish(ok))) && FilesKept(Step(s, Finish(ok)))
  {
    hide FilesOf, FileOf, Total, Finished;
    var t := Step(s, Finish(ok));
    assert Unfinished(s)[0] == s.worker.job && Unfinished(s)[1..] == s.ring.queue == Unfinished(t);
    TotalReturn(s.ring.free, Unfinished(s), Held(s));
    FinishFiles(s, ok);
    hide Unfinished;
  }

  lemma SameParts(s: State, t: State)
    requires BuffersKept(s) && FilesKept(s)
    requires t.ring.free == s.ring.free && t.mem == s.mem && Held(t) == Held(s) && Unfinished(t) == Unfinished(s)
    requires t.accepted == s.accepted && t.landed == s.landed && (t.command.Holding? ==> t.command == s.command)
    ensures BuffersKept(t) && FilesKept(t)
  {
    hide FilesOf, FileOf, Finished, Total, Unfinished;
  }

  lemma OthersKeep(s: State, l: Label)
    requires BuffersKept(s) && FilesKept(s) && Enabled(s, l)
    requires l.StartPut? || l.StartDrain? || l.DrainTry? || l.SpuriousWakeup?
    ensures BuffersKept(Step(s, l)) && FilesKept(Step(s, l))
  {
    hide BuffersKept, FilesKept;
    SameParts(s, Step(s, l));
  }

  lemma BuffersStep(s: State, l: Label)
    requires BuffersKept(s) && FilesKept(s) && Enabled(s, l)
    ensures BuffersKept(Step(s, l)) && FilesKept(Step(s, l))
  {
    hide BuffersKept, FilesKept, Step, Enabled;
    match l
    case PutTry => TakeKeeps(s);
    case Copy => CopyKeeps(s);
    case PutEnqueue => EnqueueKeeps(s);
    case WorkerTry => PopKeeps(s);
    case Finish(ok) => FinishKeeps(s, ok);
    case _ => OthersKeep(s, l);
  }

  lemma FlagsStep(s: State, l: Label)
    requires Inv(s) && Enabled(s, l)
    ensures FlagsKept(Step(s, l))
  {
    hide FilesKept, SleepersKept, BuffersKept, JobBufs, FilesOf, FileOf, Overlay;
    var t := Step(s, l);
    if l.Finish? {
      assert forall i | 0 <= i < |s.landed| :: t.landed[i] == s.landed[i];
      assert !l.ok ==> !t.landed[|s.landed|].1;
    }
  }

  lemma SleepersStep(s: State, l: Label)
    requires Inv(s) && Enabled(s, l)
    ensures SleepersKept(Step(s, l))
  {
    hide FilesKept, BuffersKept, JobBufs, FilesOf, FileOf, Overlay;
  }

  /** Every interleaving keeps the four buffers, the FIFO contents, the flags and the sleepers. */
  lemma {:induction false} RunKeeps(mem: seq<Bytes>, labels: seq<Label>, s: State)
    requires |mem| == DEPTH && Run(mem, labels) == Some(s)
    ensures Inv(s)
    decreases |labels|
  {
    if labels == [] {
      assert JobBufs([]) == multiset{};
    } else {
      var l := labels[|labels| - 1];
      var before := Run(mem, labels[..|labels| - 1]).value;
      RunKeeps(mem, labels[..|labels| - 1], before);
      BuffersStep(before, l);
      FlagsStep(before, l);
      SleepersStep(before, l);
    }
  }

  /** Nothing shared, nothing overwritten: files finish in the order they were put, with the bytes they were put
      with. */
  lemma LandsInOrder(mem: seq<Bytes>, labels: seq<Label>, s: State)
    requires |mem| == DEPTH && Run(mem, labels) == Some(s)
    ensures Finished(s.landed) <= s.accepted
    ensures |s.ring.free| + |Unfinished(s)| + |Held(s)| == DEPTH
    ensures s.command.Holding? ==> |s.ring.queue| < DEPTH && s.command.buf !in JobBufs(Unfinished(s))
  {
    RunKeeps(mem, labels, s);
    Exclusive(s);
  }

  /** When drain returns, every accepted file has finished, and it reports failure exactly when a write since the last
      drain failed. */
  lemma DrainWaitsForAll(mem: seq<Bytes>, labels: seq<Label>, s: State)
    requires |mem| == DEPTH && Run(mem, labels) == Some(s)
    requires Enabled(s, DrainTry) && Step(s, DrainTry).command.Idle?
    ensures s.accepted == Finished(s.landed)
    ensures s.ring.failed <==> exists i :: s.mark <= i < |s.landed| && !s.landed[i].1
  {
    RunKeeps(mem, labels, s);
    assert Unfinished(s) == [];
  }

  /** The command thread never waits for good: unless it is idle, it can step itself or the writer can. */
  lemma NeverStuck(mem: seq<Bytes>, labels: seq<Label>, s: State)
    requires |mem| == DEPTH && Run(mem, labels) == Some(s) && !s.command.Idle?
    ensures exists l :: l in {PutTry, Copy, PutEnqueue, DrainTry, WorkerTry, Finish(true)} && Enabled(s, l)
  {
    RunKeeps(mem, labels, s);
    Exclusive(s);
    assert s.worker.Writing? ==> Enabled(s, Finish(true));
    assert s.worker == Seeking(false) ==> Enabled(s, WorkerTry);
    if s.command.Putting? {
      assert !s.command.asleep ==> Enabled(s, PutTry);
    } else if s.command.Draining? {
      assert !s.command.asleep ==> Enabled(s, DrainTry);
    } else {
      assert Enabled(s, if s.command.copied then PutEnqueue else Copy);
    }
  }

  /** Writer steps still to come before everything accepted so far has finished. */
  function Rank(s: State): nat {
    2 * |s.ring.queue| + if s.worker.Writing? then 1 else 0
  }

  /** What a sleeping command waits for is still to come. */
  lemma WorkLeft(s: State)
    requires Inv(s) && (s.command == Draining(true) || (s.command.Putting? && s.command.asleep))
    ensures Unfinished(s) != []
  {
    hide FilesKept, FlagsKept, JobBufs, BuffersKept;
    Exclusive(s);
  }

  /** A sleeping command is not forgotten: work is left, and whatever the writer does next is part of it. */
  lemma WaitEnds(mem: seq<Bytes>, labels: seq<Label>, s: State, l: Label)
    requires |mem| == DEPTH && Run(mem, labels) == Some(s)
    requires s.command == Draining(true) || (s.command.Putting? && s.command.asleep)
    requires (l == WorkerTry || l.Finish?) && Enabled(s, l)
    ensures 0 < Rank(s) && Rank(Step(s, l)) < Rank(s)
    ensures l.Finish? && s.command.Putting? ==>
              Step(s, l).command == Putting(s.command.file, false) && Step(s, l).ring.free != []
  {
    hide Run, FileOf, Inv;
    RunKeeps(mem, labels, s);
    WorkLeft(s);
  }
}
