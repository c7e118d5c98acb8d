/** The connection of the push pipeline: pd_rdma_tx.c on the sending side, the command loop of `pd_rdma recvd` with its
    background writer on the receiving side. The sender waits for each reply; only background writes run beside it. */
module PushLink {
  import opened Seqs
  import WriterRing

  /** What the receiver holds: files acknowledged but still on their way to disk (oldest first), the failure flag, and
      the disk as the files landed on it, in order. */
  datatype Rx<F> = Rx(inflight: seq<F>, failed: bool, disk: seq<F>)

  /** OBLK, FILE and DONE, each with the file it puts on disk. */
  datatype Command<F> = Oblk(file: F) | File(file: F) | Done(file: F)

  /** How the world treats one command. lands: the background writes that finish before it is answered, and whether
      each succeeds. taken: the receiver accepts the arguments (and, for OBLK, makes the directory). wrote: the
      command's own write succeeds. */
  datatype World = World(sent: bool, lands: seq<bool>, taken: bool, wrote: bool, replied: bool)

  /** The writer thread finishes the oldest file. */
  function LandOne<F>(rx: Rx<F>, ok: bool): Rx<F>
    requires rx.inflight != []
  {
    Rx(rx.inflight[1..], rx.failed || !ok, if ok then rx.disk + [rx.inflight[0]] else rx.disk)
  }

  function Land<F>(rx: Rx<F>, lands: seq<bool>): (res: Rx<F>)
    requires |lands| <= |rx.inflight|
    ensures |res.inflight| == |rx.inflight| - |lands|
    decreases |lands|
  {
    if lands == [] then rx else Land(LandOne(rx, lands[0]), lands[1..])
  }

  /** The waits of the command loop: put waits for a free buffer or a failure, drain for all background writes. */
  predicate Timely<F>(rx: Rx<F>, cmd: Command<F>, world: World, background: bool) {
    && |world.lands| <= |rx.inflight|
    && (background && world.sent && world.taken ==>
          var then' := Land(rx, world.lands);
          if cmd.Oblk? then |then'.inflight| < WriterRing.DEPTH || then'.failed else then'.inflight == [])
  }

  /** One turn of the command loop, once it may proceed: the receiver's new state and whether it answers OK. */
  function Serve<F>(rx: Rx<F>, cmd: Command<F>, world: World, background: bool): (Rx<F>, bool) {
    if !world.taken then (rx, false)
    else if background && cmd.Oblk? then
      if rx.failed then (rx, false) else (rx.(inflight := rx.inflight + [cmd.file]), true)
    else if background && rx.failed then (rx.(failed := false), false)
    else
      var drained := if background then rx.(failed := false) else rx;
      if world.wrote then (drained.(disk := rx.disk + [cmd.file]), true) else (drained, false)
  }

  /** Background writes move files to disk in order, or raise the flag. */
  lemma {:induction false} LandKeeps<F>(rx: Rx<F>, lands: seq<bool>, all: seq<F>)
    requires |lands| <= |rx.inflight| && (rx.failed || rx.disk + rx.inflight == all)
    ensures var res := Land(rx, lands); (rx.failed ==> res.failed) && (res.failed || res.disk + res.inflight == all)
    decreases |lands|
  {
    if lands != [] {
      assert rx.inflight == [rx.inflight[0]] + rx.inflight[1..];
      LandKeeps(LandOne(rx, lands[0]), lands[1..], all);
    }
  }

  lemma ServeKeeps<F>(rx: Rx<F>, cmd: Command<F>, world: World, background: bool, all: seq<F>)
    requires rx.failed || rx.disk + rx.inflight == all
    requires !background ==> rx.inflight == [] && !rx.failed
    requires background && world.taken && !cmd.Oblk? ==> rx.inflight == []
    ensures var (res, ok) := Serve(rx, cmd, world, background);
            && (ok ==> res.disk + res.inflight == all + [cmd.file] && !res.failed)
            && (ok && !cmd.Oblk? ==> res.inflight == [] && res.disk == all + [cmd.file])
            && (!background ==> res.inflight == [] && !res.failed)
  {
    if rx.inflight == [] {
      assert rx.disk + rx.inflight == rx.disk;
    }
    assert rx.disk + (rx.inflight + [cmd.file]) == rx.disk + rx.inflight + [cmd.file];
  }

  /** struct pd_tx, with the receiver it is connected to. `background` is PD_RDMA_ASYNC_WRITES. */
  class Tx<F> {
    const background: bool
    const capacity: nat
    var dead: bool
    var bytes: nat
    var rx: Rx<F>
    /** Files of the calls that returned success since `from`; what was on disk or on its way there at that point. */
    ghost var acked: seq<F>
    ghost var from: seq<F>

    /** Unless the handle is dead or the receiver's flag is up, nothing that was acknowledged is lost or out of
        order. */
    ghost predicate Valid()
      reads this
    {
      (!background ==> rx.inflight == [] && !rx.failed) && (dead || rx.failed || rx.disk + rx.inflight == from + acked)
    }

    constructor (background: bool, capacity: nat, disk: seq<F>)
      ensures Valid() && !dead && this.background == background && this.capacity == capacity
      ensures rx == Rx([], false, disk) && acked == [] && from == disk
    {
      this.background, this.capacity := background, capacity;
      dead, bytes, rx, acked, from := false, 0, Rx([], false, disk), [], disk;
    }

    /** A new capture begins on this connection: from here on `acked` is its own. */
    ghost method Begin()
      requires Valid()
      modifies `acked, `from
      ensures Valid() && acked == [] && from == rx.disk + rx.inflight
    {
      acked, from := [], rx.disk + rx.inflight;
    }

    /** tx_ok: anything but OK, or no reply, kills the handle. */
    method TxOk(answer: bool, replied: bool) returns (ok: bool)
      modifies `dead
      ensures ok == (answer && replied) && dead == (old(dead) || !ok)
    {
      if !replied {
        dead := true;
        return false;
      }
      if !answer {
        dead := true;
        return false;
      }
      return true;
    }

    /** tx_write: the payload goes into the receiver's arena. */
    method TxWrite(len: nat, wrote: bool) returns (ok: bool)
      modifies `dead, `bytes
      ensures ok == (!old(dead) && len <= capacity && (len > 0 ==> wrote))
      ensures dead == (old(dead) || (len <= capacity && len > 0 && !wrote))
    {
      if dead {
        return false;
      }
      if len > capacity {
        return false;
      }
      if len > 0 && !wrote {
        dead := true;
        return false;
      }
      bytes := bytes + len;
      return true;
    }

    /** The command line and its answer. A lost line or a lost reply leaves the receiver having done nothing, or all
        of it. */
    method Exchange(cmd: Command<F>, world: World) returns (ok: bool)
      requires Valid() && !dead && Timely(rx, cmd, world, background)
      modifies `dead, `rx, `acked
      ensures Valid() && dead == !ok && from == old(from)
      ensures ok ==> world.sent && world.taken && acked == old(acked) + [cmd.file]
      ensures !ok ==> acked == old(acked)
      ensures ok && !cmd.Oblk? ==> rx == Rx([], false, from + acked)
    {
      if !world.sent {
        dead := true;
        return false;
      }
      LandKeeps(rx, world.lands, from + acked);
      rx := Land(rx, world.lands);
      var served := Serve(rx, cmd, world, background);
      ServeKeeps(rx, cmd, world, background, from + acked);
      rx := served.0;
      ok := TxOk(served.1, world.replied);
      if ok {
        acked := acked + [cmd.file];
        assert from + acked == from + acked[..|acked| - 1] + [cmd.file];
      }
    }

    /** pd_tx_oblk */
    method SendBlock(file: F, len: nat, wire: bool, world: World) returns (ok: bool)
      requires Valid() && (!dead ==> Timely(rx, Oblk(file), world, background))
      modifies this
      ensures Valid() && from == old(from) && (old(dead) ==> !ok) && (ok ==> !dead)
      ensures acked == if ok then old(acked) + [file] else old(acked)
    {
      ok := TxWrite(len, wire);
      if ok {
        ok := Exchange(Oblk(file), world);
      }
    }

    /** pd_tx_file */
    method SendFile(file: F, len: nat, wire: bool, world: World) returns (ok: bool)
      requires Valid() && (!dead ==> Timely(rx, File(file), world, background))
      modifies this
      ensures Valid() && from == old(from) && (old(dead) ==> !ok) && (ok ==> !dead)
      ensures acked == if ok then old(acked) + [file] else old(acked)
      ensures ok ==> rx == Rx([], false, from + acked)
    {
      ok := TxWrite(len, wire);
      if ok {
        ok := Exchange(File(file), world);
      }
    }

    /** pd_tx_done: success means that every file acknowledged since `from`, in order, and then DONE are on disk. */
    method SendDone(file: F, world: World) returns (ok: bool)
      requires Valid() && (!dead ==> Timely(rx, Done(file), world, background))
      modifies this
      ensures Valid() && from == old(from) && (old(dead) ==> !ok) && (ok ==> !dead)
      ensures acked == if ok then old(acked) + [file] else old(acked)
      ensures ok ==> rx == Rx([], false, from + acked)
    {
      if dead {
        return false;
      }
      ok := Exchange(Done(file), world);
    }
  }

  // ---- the ring is the background writer assumed here

  function Durable(landed: seq<(WriterRing.File, bool)>): seq<WriterRing.File> {
    if landed == [] then []
    else
      var last := landed[|landed| - 1];
      Durable(landed[..|landed| - 1]) + if last.1 then [last.0] else []
  }

  /** The receiver a ring state stands for. */
  function AsRx(s: WriterRing.State): Rx<WriterRing.File> {
    Rx(WriterRing.FilesOf(s.mem, WriterRing.Unfinished(s)), s.ring.failed, Durable(s.landed))
  }

  lemma NoFiles(mem: seq<WriterRing.Bytes>)
    ensures WriterRing.FilesOf(mem, []) == []
  {
  }

  lemma RefinesEnqueue(s: WriterRing.State)
    requires WriterRing.FilesKept(s) && WriterRing.BuffersKept(s) && WriterRing.Enabled(s, WriterRing.PutEnqueue)
    ensures AsRx(WriterRing.Step(s, WriterRing.PutEnqueue)) == AsRx(s).(inflight := AsRx(s).inflight + [s.command.file])
  {
    hide WriterRing.FilesOf, Durable, WriterRing.Total, WriterRing.JobBufs, WriterRing.Finished;
    var f := s.command.file;
    var j := WriterRing.Job(f.path, |f.data|, s.command.buf);
    WriterRing.Exclusive(s);
    WriterRing.FilesOfPush(s.mem, WriterRing.Unfinished(s), j);
    assert WriterRing.Unfinished(WriterRing.Step(s, WriterRing.PutEnqueue)) == WriterRing.Unfinished(s) + [j];
  }

  lemma RefinesFinish(s: WriterRing.State, ok: bool)
    requires WriterRing.Enabled(s, WriterRing.Finish(ok))
    ensures AsRx(s).inflight != [] && AsRx(WriterRing.Step(s, WriterRing.Finish(ok))) == LandOne(AsRx(s), ok)
  {
    hide WriterRing.FilesOf, WriterRing.FileOf;
    var t := WriterRing.Step(s, WriterRing.Finish(ok));
    WriterRing.PopFirst(s.mem, WriterRing.Unfinished(s));
    assert WriterRing.Unfinished(s)[1..] == s.ring.queue == WriterRing.Unfinished(t);
    assert t.landed[..|s.landed|] == s.landed;
  }

  lemma RefinesStep(s: WriterRing.State, l: WriterRing.Label)
    requires WriterRing.Inv(s) && WriterRing.Enabled(s, l)
    ensures var t := WriterRing.Step(s, l);
            if l.PutEnqueue? then AsRx(t) == AsRx(s).(inflight := AsRx(s).inflight + [s.command.file])
            else if l.Finish? then AsRx(s).inflight != [] && AsRx(t) == LandOne(AsRx(s), l.ok)
            else if l.DrainTry? && t.command.Idle? then AsRx(s).inflight == [] && AsRx(t) == AsRx(s).(failed := false)
            else AsRx(t) == AsRx(s)
    ensures s.command.Putting? && WriterRing.Step(s, l).command.Idle? ==> AsRx(s).failed
  {
    hide WriterRing.FilesOf, WriterRing.FileOf, Durable, WriterRing.BuffersKept, WriterRing.Total, WriterRing.JobBufs;
    var t := WriterRing.Step(s, l);
    WriterRing.Exclusive(s);
    match l
    case Copy => WriterRing.OtherBuffer(s.mem, WriterRing.Unfinished(s), s.command.buf, t.mem[s.command.buf]);
    case PutEnqueue => RefinesEnqueue(s);
    case Finish(ok) => RefinesFinish(s, ok);
    case WorkerTry =>
      if s.ring.queue != [] {
        assert WriterRing.Unfinished(t) == WriterRing.Unfinished(s);
      }
    case _ =>
      NoFiles(s.mem);
      assert WriterRing.Unfinished(t) == WriterRing.Unfinished(s);
  }

  /** Every step of the two threads is a step of the receiver modelled here, or changes nothing it can see: the put that
      answers OK appends its file, a finished write lands the oldest one, a drain returns with nothing in flight. */
  lemma RingRefines(mem: seq<WriterRing.Bytes>, labels: seq<WriterRing.Label>, s: WriterRing.State, l: WriterRing.Label)
    requires |mem| == WriterRing.DEPTH && WriterRing.Run(mem, labels) == Some(s) && WriterRing.Enabled(s, l)
    ensures var t := WriterRing.Step(s, l);
            if l.PutEnqueue? then AsRx(t) == AsRx(s).(inflight := AsRx(s).inflight + [s.command.file])
            else if l.Finish? then AsRx(s).inflight != [] && AsRx(t) == LandOne(AsRx(s), l.ok)
            else if l.DrainTry? && t.command.Idle? then AsRx(s).inflight == [] && AsRx(t) == AsRx(s).(failed := false)
            else AsRx(t) == AsRx(s)
    ensures s.command.Putting? && WriterRing.Step(s, l).command.Idle? ==> AsRx(s).failed
  {
    hide WriterRing.FilesOf, WriterRing.FileOf, Durable, WriterRing.Run, WriterRing.Inv, WriterRing.BuffersKept;
    WriterRing.RunKeeps(mem, labels, s);
    RefinesStep(s, l);
  }
}
