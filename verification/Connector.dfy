/** spark/pd_kv_connector.py, worker side: the forward thread cuts the rows of a prompt into blocks and queues them, the
    sender thread ships them over the connection and finishes with tail, manifest and DONE. */
module Connector {
  import opened Blocks
  import opened Seqs
  import opened PushLink

  datatype Manifest = Manifest(T: nat, promptLen: nat, blocks: nat, sent: nat, complete: bool, tailRows: nat)

  /** What reaches the decoder's disk. */
  datatype Landed<Row> =
    | BlockFile(hash: string, rows: seq<Row>)
    | TailFile(rows: seq<Row>)
    | ManifestFile(m: Manifest)
    | DoneFile(complete: bool)

  datatype Item<Row> = Block(index: nat, hash: string, rows: seq<Row>) | Finish

  /** _SEND_QUEUE_BLOCKS */
  const SEND_QUEUE_BLOCKS: nat := 32

  /** The queue when blocks from index `head` on have not been taken yet. */
  function Queued<Row>(cut: seq<seq<Row>>, hashes: seq<string>, head: nat, closing: bool): seq<Item<Row>>
    requires head <= |cut| <= |hashes|
    decreases |cut| - head
  {
    if head == |cut| then (if closing then [Finish] else [])
    else [Block(head, hashes[head], cut[head])] + Queued(cut, hashes, head + 1, closing)
  }

  lemma {:induction false} QueuedBlock<Row>(cut: seq<seq<Row>>, hashes: seq<string>, head: nat, rows: seq<Row>)
    requires head <= |cut| < |hashes|
    ensures Queued(cut + [rows], hashes, head, false)
            == Queued(cut, hashes, head, false) + [Block(|cut|, hashes[|cut|], rows)]
    decreases |cut| - head
  {
    if head < |cut| {
      QueuedBlock(cut, hashes, head + 1, rows);
    } else {
      assert Queued(cut + [rows], hashes, head + 1, false) == [];
    }
  }

  lemma {:induction false} QueuedFinish<Row>(cut: seq<seq<Row>>, hashes: seq<string>, head: nat)
    requires head <= |cut| <= |hashes|
    ensures Queued(cut, hashes, head, true) == Queued(cut, hashes, head, false) + [Finish]
    decreases |cut| - head
  {
    if head < |cut| {
      QueuedFinish(cut, hashes, head + 1);
    }
  }

  lemma NothingQueued<Row>(cut: seq<seq<Row>>, hashes: seq<string>)
    requires |cut| <= |hashes|
    ensures Queued(cut, hashes, |cut|, false) == []
  {
  }

  /** The files of blocks 0..n-1. */
  ghost function BlockFiles<Row>(cut: seq<seq<Row>>, hashes: seq<string>, n: nat): seq<Landed<Row>>
    requires n <= |cut| <= |hashes|
  {
    if n == 0 then [] else BlockFiles(cut, hashes, n - 1) + [BlockFile(hashes[n - 1], cut[n - 1])]
  }

  lemma {:induction false} BlockFilesGrow<Row>(cut: seq<seq<Row>>, hashes: seq<string>, n: nat, rows: seq<Row>)
    requires n <= |cut| < |hashes|
    ensures BlockFiles(cut + [rows], hashes, n) == BlockFiles(cut, hashes, n)
  {
    if n > 0 {
      BlockFilesGrow(cut, hashes, n - 1, rows);
    }
  }

  /** Block j holds rows [j*B, (j+1)*B) of the prompt. */
  ghost predicate IsBlock<Row>(rows: seq<Row>, prompt: seq<Row>, j: nat, B: nat) {
    Off(j, B) <= Off(j + 1, B) <= |prompt| && rows == prompt[Off(j, B)..Off(j + 1, B)]
  }

  ghost predicate CutOk<Row>(cut: seq<seq<Row>>, prompt: seq<Row>, B: nat) {
    forall j | 0 <= j < |cut| :: IsBlock(cut[j], prompt, j, B)
  }

  type Weather<!Row> = (nat, Rx<Landed<Row>>, Command<Landed<Row>>) -> (bool, World)

  /** Whatever the network, the receiver and its writer thread do at each command. */
  ghost predicate Possible<Row(!new)>(weather: Weather<Row>, background: bool) {
    forall n, rx, cmd :: Timely(rx, cmd, weather(n, rx, cmd).1, background)
  }

  lemma SomethingQueued<Row>(cut: seq<seq<Row>>, hashes: seq<string>, head: nat)
    requires head <= |cut| <= |hashes|
    ensures Queued(cut, hashes, head, true) != []
  {
  }

  /** What is left after the full blocks of the pending rows. */
  lemma RestRows<Row>(prompt: seq<Row>, B: nat, q: nat, have: nat, buf: seq<Row>)
    requires 0 < B && Off(q, B) <= have <= |prompt| && buf == prompt[Off(q, B)..have]
    ensures var n := Count(|buf|, B);
            && Off(n, B) <= |buf| && Off(q + n, B) + |buf[Off(n, B)..]| == have
            && buf[Off(n, B)..] == prompt[Off(q + n, B)..have] && |buf[Off(n, B)..]| < B
  {
    hide Off, Count, Rem;
    Split(|buf|, B);
    OffAdd(q, Count(|buf|, B), B);
  }

  lemma OnlyOne<Row>(pending: seq<seq<Row>>)
    ensures |pending| == 1 ==> Flatten(pending) == pending[0]
    ensures pending == [] ==> Flatten(pending) == []
  {
    if |pending| == 1 {
      assert pending[1..] == [];
    }
  }

  lemma OneFlat<Row>(rest: seq<Row>)
    ensures Flatten(if rest != [] then [rest] else []) == rest
  {
    OnlyOne([rest]);
  }

  /** Block i of the pending rows is block q + i of the prompt. */
  lemma NextBlock<Row>(cut: seq<seq<Row>>, prompt: seq<Row>, B: nat, q: nat, i: nat, have: nat, buf: seq<Row>)
    requires 0 < B && CutOk(cut, prompt, B) && |cut| == q + i && i < Count(|buf|, B)
    requires Off(q, B) <= have <= |prompt| && buf == prompt[Off(q, B)..have]
    ensures Off(i, B) <= Off(i + 1, B) <= |buf|
    ensures CutOk(cut + [buf[Off(i, B)..Off(i + 1, B)]], prompt, B)
  {
    hide Off, Count;
    Fits(i + 1, |buf|, B);
    OffMonotone(i, i + 1, B);
    OffAdd(q, i, B);
    OffAdd(q, i + 1, B);
    SliceOfSlice(prompt, Off(q, B), have, Off(i, B), Off(i + 1, B));
    assert IsBlock(buf[Off(i, B)..Off(i + 1, B)], prompt, q + i, B);
  }

  lemma NextFile<Row>(cut: seq<seq<Row>>, hashes: seq<string>, n: nat)
    requires n <= |cut| <= |hashes|
    ensures n > 0 ==>
              BlockFiles(cut, hashes, n) == BlockFiles(cut, hashes, n - 1) + [BlockFile(hashes[n - 1], cut[n - 1])]
  {
  }

  lemma {:induction false} NoFinishYet<Row>(cut: seq<seq<Row>>, hashes: seq<string>, head: nat)
    requires head <= |cut| <= |hashes|
    ensures |Queued(cut, hashes, head, false)| == |cut| - head && Finish !in Queued(cut, hashes, head, false)
    decreases |cut| - head
  {
    if head < |cut| {
      NoFinishYet(cut, hashes, head + 1);
    }
  }

  /** One tagged request whose blocks go out in the decoder's own format, with the queue and the connection it uses. */
  class Capture<Row(!new)> {
    const B: nat
    const promptLen: nat
    const hashes: seq<string>
    const async: bool
    const link: Tx<Landed<Row>>
    const weather: Weather<Row>
    /** How many sender steps run before each action of the forward thread. */
    const pace: nat -> nat
    const size: Landed<Row> -> nat
    ghost const prompt: seq<Row>

    var have: nat
    var pending: seq<seq<Row>>
    var pendingRows: nat
    var blocks: nat
    var sent: nat
    var gaps: seq<(nat, nat)>
    var error: bool
    var connected: bool
    var sendq: seq<Item<Row>>
    var tick: nat
    var closing: bool
    var finished: bool
    var delivered: bool
    var tailShipped: bool

    ghost var cut: seq<seq<Row>>
    ghost var head: nat

    /** The queue, the acknowledgements and the connection. Acknowledged blocks are 0..sent-1, in order; the sender has
        taken blocks 0..head-1, all of them successfully unless an error is recorded. */
    ghost predicate Sending()
      reads this, link
    {
      && 0 < B && |hashes| == Count(promptLen, B) && link.Valid() && Possible(weather, link.background)
      && blocks == |cut| <= |hashes| && sent <= head <= blocks
      && sendq == Queued(cut, hashes, head, closing && !finished) && |sendq| <= SEND_QUEUE_BLOCKS
      && (!error ==> sent == head) && (error ==> gaps != [])
      && (connected ==> !link.dead) && (!connected && !finished ==> error)
      && (!finished ==> link.acked == BlockFiles(cut, hashes, sent))
      && (finished ==> closing && head == blocks)
    }

    /** The rows: cut blocks are prompt blocks; what is left over is pending, unless a failure dropped it. */
    ghost predicate RowsHeld()
      reads `have, `pending, `pendingRows, `blocks, `error, `cut
    {
      && 0 < B && blocks == |cut| && |prompt| == promptLen && have <= promptLen
      && CutOk(cut, prompt, B)
      && Off(blocks, B) <= Off(blocks, B) + pendingRows <= have
      && pendingRows == |Flatten(pending)|
      && (!error ==> Flatten(pending) == prompt[Off(blocks, B)..have])
    }

    ghost predicate RowsKept()
      reads `have, `pending, `pendingRows, `blocks, `error, `cut, `gaps
    {
      RowsHeld() && (gaps == [] ==> pendingRows < B)
    }

    /** _manifest */
    function ManifestNow(tailRows: nat): Manifest
      reads `have, `blocks, `sent, `gaps, `error
    {
      Manifest(if gaps == [] then have else gaps[0].0, promptLen, blocks, sent,
               gaps == [] && have == promptLen && sent == blocks && !error, tailRows)
    }

    /** _tail_blob: rows after the last full block but the last, read from the first pending tensor only. */
    function TailRows(): (res: Option<(seq<Row>, nat)>)
      reads `gaps, `error, `pendingRows, `pending
    {
      if gaps != [] || error || pendingRows <= 1 || pending == [] then None
      else
        var n := pendingRows - 1;
        Some((if n <= |pending[0]| then pending[0][..n] else pending[0], n))
    }

    function TailCount(tailSent: bool): nat
      reads `gaps, `error, `pendingRows, `pending
    {
      if tailSent && TailRows().Some? then TailRows().value.1 else 0
    }

    ghost function TailFiles(tailSent: bool): seq<Landed<Row>>
      reads `gaps, `error, `pendingRows, `pending
    {
      if tailSent && TailRows().Some? then [TailFile(TailRows().value.0)] else []
    }

    ghost function EndFiles(tailSent: bool): seq<Landed<Row>>
      reads `have, `blocks, `sent, `gaps, `error, `pendingRows, `pending
    {
      var m := ManifestNow(TailCount(tailSent));
      TailFiles(tailSent) + [ManifestFile(m), DoneFile(m.complete)]
    }

    /** The acknowledged blocks, the tail if it was sent, the manifest and DONE, in that order, and nothing on its
        way. */
    ghost predicate DiskHolds()
      requires sent <= |cut| <= |hashes|
      reads `have, `blocks, `sent, `gaps, `error, `pendingRows, `pending, `tailShipped, `cut, link
    {
      link.rx == Rx([], false, link.from + (BlockFiles(cut, hashes, sent) + EndFiles(tailShipped)))
    }

    ghost predicate Valid()
      reads this, link
    {
      Sending() && RowsKept() && (finished && delivered ==> DiskHolds())
    }

    /** A capture begins with a chunk at position 0, after the queue has been joined. */
    constructor (B: nat, ghost prompt: seq<Row>, promptLen: nat, hashes: seq<string>, async: bool,
                 link: Tx<Landed<Row>>, weather: Weather<Row>, pace: nat -> nat, size: Landed<Row> -> nat)
      requires 0 < B && |prompt| == promptLen && |hashes| == Count(promptLen, B)
      requires link.Valid() && !link.dead && Possible(weather, link.background)
      modifies link
      ensures Valid() && !closing && !error && gaps == [] && have == 0 && pending == [] && pendingRows == 0
              && fresh(this)
      ensures this.B == B && this.prompt == prompt && this.promptLen == promptLen && this.hashes == hashes
              && this.link == link
      ensures link.from == old(link.rx.disk) + old(link.rx.inflight)
    {
      this.B, this.prompt, this.promptLen, this.hashes, this.async := B, prompt, promptLen, hashes, async;
      this.link, this.weather, this.pace, this.size := link, weather, pace, size;
      have, pending, pendingRows, blocks, sent, gaps, error, connected := 0, [], 0, 0, 0, [], false, true;
      sendq, tick, closing, finished, delivered, tailShipped := [], 0, false, false, false, false;
      cut, head := [], 0;
      new;
      link.Begin();
      assert prompt[0..0] == [];
    }

    // ---- sender thread

    /** _send_block: nothing is sent after the first failure. */
    method SendBlock(index: nat, hash: string, rows: seq<Row>)
      requires link.Valid() && Possible(weather, link.background) && (connected ==> !link.dead)
      modifies `sent, `gaps, `error, `connected, `tick, link
      ensures link.Valid() && (connected ==> !link.dead) && link.from == old(link.from)
      ensures error ==> sent == old(sent) && link.acked == old(link.acked)
      ensures old(error) ==> error && gaps == old(gaps) && connected == old(connected)
      ensures !old(error) && error ==> gaps == old(gaps) + [(Off(index, B), have)] && !connected
      ensures !error ==>
                sent == old(sent) + 1 && link.acked == old(link.acked) + [BlockFile(hash, rows)] && gaps == old(gaps)
                  && connected
    {
      if error {
        return;
      }
      var ok := false;
      if connected {
        var file := BlockFile(hash, rows);
        var (wire, world) := weather(tick, link.rx, Oblk(file));
        tick := tick + 1;
        ok := link.SendBlock(file, size(file), wire, world);
      }
      if ok {
        sent := sent + 1;
      } else {
        error := true;
        gaps := gaps + [(Off(index, B), have)];
        connected := false;
      }
    }

    /** The end of _finish_rdma: the manifest, then DONE. */
    method SendManifest(m: Manifest) returns (ok: bool)
      requires link.Valid() && Possible(weather, link.background)
      modifies `tick, link
      ensures link.Valid() && link.from == old(link.from) && (ok ==> !old(link.dead) && !link.dead)
      ensures ok ==> link.rx == Rx([], false, link.from + link.acked)
      ensures ok ==> link.acked == old(link.acked) + [ManifestFile(m), DoneFile(m.complete)]
    {
      var file := ManifestFile(m);
      var (wire, world) := weather(tick, link.rx, File(file));
      tick := tick + 1;
      ok := link.SendFile(file, size(file), wire, world);
      if ok {
        var (_, world') := weather(tick, link.rx, Done(DoneFile(m.complete)));
        tick := tick + 1;
        ok := link.SendDone(DoneFile(m.complete), world');
      }
    }

    /** The tail goes first; it is an optimization, so a failure is not an error of the capture. */
    method SendTail() returns (tailSent: bool)
      requires link.Valid() && Possible(weather, link.background)
      modifies `tick, link
      ensures link.Valid() && link.from == old(link.from) && TailRows() == old(TailRows())
      ensures tailSent ==> TailRows().Some?
      ensures link.acked == old(link.acked) + TailFiles(tailSent)
    {
      var tail := TailRows();
      tailSent := false;
      if tail.Some? && connected {
        var file := TailFile(tail.value.0);
        var (wire, world) := weather(tick, link.rx, File(file));
        tick := tick + 1;
        tailSent := link.SendFile(file, size(file), wire, world);
      }
    }

    /** Tail, manifest and DONE over the connection. */
    method ShipEnd() returns (ok: bool)
      requires link.Valid() && Possible(weather, link.background) && sent <= |cut| <= |hashes|
      requires link.acked == BlockFiles(cut, hashes, sent)
      modifies `tick, `tailShipped, link
      ensures link.Valid() && link.from == old(link.from) && (ok ==> connected && !link.dead)
      ensures ok ==> DiskHolds()
    {
      hide Possible, BlockFiles;
      ghost var before := link.acked;
      tailShipped := SendTail();
      ok := false;
      if connected {
        ok := SendManifest(ManifestNow(TailCount(tailShipped)));
        assert ok ==> link.acked == before + EndFiles(tailShipped);
      }
    }

    /** _finish_rdma, reached when every block has been taken from the queue. */
    method FinishRdma()
      requires Sending() && closing && !finished && head == blocks
      modifies `connected, `tick, `finished, `delivered, `tailShipped, `sendq, link
      ensures Sending() && finished && sendq == [] && link.from == old(link.from)
      ensures delivered ==> DiskHolds()
    {
      hide CutOk, Off, Count, BlockFiles, Possible, Queued, EndFiles, link.Valid, DiskHolds;
      NothingQueued(cut, hashes);
      delivered := ShipEnd();
      connected := connected && delivered;
      finished := true;
      sendq := [];
    }

    /** One round of _sender_loop. */
    method SenderStep()
      requires Sending() && sendq != []
      modifies `sent, `gaps, `error, `connected, `tick, `head, `finished, `delivered, `tailShipped, `sendq, link
      ensures Sending() && sendq == old(sendq)[1..] && link.from == old(link.from)
      ensures old(error) ==> error && sent == old(sent)
      ensures old(gaps) <= gaps && (!error ==> gaps == old(gaps))
      ensures finished == (old(sendq)[0] == Finish)
      ensures finished && delivered ==> DiskHolds()
    {
      hide CutOk, Off, Count, BlockFiles, Possible, EndFiles, DiskHolds;
      var item := sendq[0];
      if item == Finish {
        FinishRdma();
      } else {
        sendq := sendq[1..];
        SendBlock(item.index, item.hash, item.rows);
        head := head + 1;
        NextFile(cut, hashes, sent);
      }
    }

    /** Whatever the sender does leaves the rows of the forward thread alone. */
    twostate lemma RowsStay()
      requires old(RowsKept()) && have == old(have) && pending == old(pending) && pendingRows == old(pendingRows)
      requires blocks == old(blocks) && cut == old(cut) && old(error ==> gaps != [])
      requires (old(error) ==> error) && old(gaps) <= gaps && (!error ==> gaps == old(gaps))
      ensures RowsKept()
    {
    }

    // ---- forward thread

    /** Any number of sender steps, and as many as it takes for the queue to have room. */
    method Interleave()
      requires Sending() && !closing
      modifies `sent, `gaps, `error, `connected, `tick, `head, `finished, `delivered, `tailShipped, `sendq, link
      ensures Sending() && !finished && |sendq| < SEND_QUEUE_BLOCKS && link.from == old(link.from)
      ensures old(error) ==> error && sent == old(sent)
      ensures old(gaps) <= gaps && (!error ==> gaps == old(gaps))
    {
      hide CutOk, Off, Count, BlockFiles, Possible, EndFiles, DiskHolds;
      var n := pace(tick);
      tick := tick + 1;
      while sendq != [] && (n > 0 || |sendq| >= SEND_QUEUE_BLOCKS)
        invariant Sending() && !closing && !finished && link.from == old(link.from)
        invariant old(error) ==> error && sent == old(sent)
        invariant old(gaps) <= gaps && (!error ==> gaps == old(gaps))
        decreases |sendq|
      {
        NoFinishYet(cut, hashes, head);
        SenderStep();
        n := if n > 0 then n - 1 else 0;
      }
    }

    /** One block goes onto the queue; in synchronous mode it is sent at once. */
    method Enqueue(rows: seq<Row>)
      requires Sending() && !closing && !finished && blocks < |hashes| && |sendq| < SEND_QUEUE_BLOCKS
      modifies `sent, `gaps, `error, `connected, `tick, `head, `finished, `delivered, `tailShipped, `sendq, `cut,
               `blocks, link
      ensures Sending() && !finished && cut == old(cut) + [rows] && blocks == old(blocks) + 1
              && link.from == old(link.from)
      ensures old(error) ==> error && sent == old(sent)
      ensures old(gaps) <= gaps && (!error ==> gaps == old(gaps))
      ensures !async && old(sendq) == [] ==> sendq == []
    {
      hide CutOk, Off, Count, BlockFiles, Possible, EndFiles, DiskHolds, Queued;
      QueuedBlock(cut, hashes, head, rows);
      BlockFilesGrow(cut, hashes, sent, rows);
      sendq := sendq + [Block(blocks, hashes[blocks], rows)];
      cut := cut + [rows];
      blocks := blocks + 1;
      if !async {
        NoFinishYet(cut, hashes, head);
        SenderStep();
      }
    }

    /** The loop of _cut_blocks over the full blocks of buf. */
    method QueueBlocks(buf: seq<Row>)
      requires Sending() && CutOk(cut, prompt, B) && !closing && !finished && gaps == []
      requires Off(blocks, B) <= have <= |prompt| && buf == prompt[Off(blocks, B)..have]
      modifies `sent, `gaps, `error, `connected, `tick, `head, `finished, `delivered, `tailShipped, `sendq, `cut,
               `blocks, link
      ensures Sending() && CutOk(cut, prompt, B) && !finished && link.from == old(link.from) && old(cut) <= cut
      ensures blocks <= old(blocks) + Count(|buf|, B)
              && (!error ==> blocks == old(blocks) + Count(|buf|, B) && gaps == [])
    {
      hide CutOk, Off, Count, Rem, BlockFiles, Possible, EndFiles, DiskHolds, Queued, link.Valid;
      var n := Count(|buf|, B);
      var i := 0;
      while i < n
        invariant 0 <= i <= n && blocks == old(blocks) + i && Sending() && !finished && link.from == old(link.from)
        invariant CutOk(cut, prompt, B) && old(cut) <= cut
        invariant gaps == [] || error
      {
        if error {
          break;
        }
        if blocks >= |hashes| {
          error := true;
          gaps := gaps + [(Off(blocks, B), have)];
          break;
        }
        NextBlock(cut, prompt, B, old(blocks), i, have, buf);
        var rows := buf[Off(i, B)..Off(i + 1, B)];
        Interleave();
        Enqueue(rows);
        i := i + 1;
      }
    }

    /** _cut_blocks: every full block of the pending rows goes onto the queue. A gap freezes it; an error stops it and
        drops the rows of the blocks it did not reach. */
    method CutBlocks()
      requires Sending() && RowsHeld() && !closing && !finished
      modifies `sent, `gaps, `error, `connected, `tick, `head, `finished, `delivered, `tailShipped, `sendq, `cut,
               `blocks, `pending, `pendingRows, link
      ensures Sending() && RowsKept() && !finished && link.from == old(link.from) && old(cut) <= cut
      ensures old(gaps) != [] ==> cut == old(cut) && pending == old(pending) && gaps == old(gaps) && error == old(error)
      ensures old(gaps) == [] && B <= old(pendingRows) ==> |pending| <= 1
      ensures old(pendingRows) < B ==>
                pending == old(pending) && pendingRows == old(pendingRows) && gaps == old(gaps) && error == old(error)
      ensures gaps == old(gaps) || error
    {
      hide CutOk, Off, Count, Rem, BlockFiles, Possible, EndFiles, DiskHolds, Queued, Flatten, link.Valid;
      if gaps != [] || pendingRows < B {
        return;
      }
      OnlyOne(pending);
      var buf := if |pending| > 1 then Flatten(pending) else pending[0];
      var n := Count(|buf|, B);
      ghost var q := blocks;
      RestRows(prompt, B, q, have, buf);
      QueueBlocks(buf);
      OffMonotone(blocks, q + n, B);
      var rest := buf[Off(n, B)..];
      OneFlat(rest);
      pending := if rest != [] then [rest] else [];
      pendingRows := |rest|;
    }

    method Append(chunk: seq<Row>)
      requires RowsHeld() && have + |chunk| <= promptLen && chunk == prompt[have..have + |chunk|]
      modifies `pending, `pendingRows, `have
      ensures RowsHeld() && have == old(have) + |chunk| && pending == old(pending) + [chunk]
              && pendingRows == old(pendingRows) + |chunk|
    {
      hide CutOk, Off, Flatten;
      FlattenAppend(pending, chunk);
      SliceJoin(prompt, Off(blocks, B), have, have + |chunk|);
      pending := pending + [chunk];
      pendingRows := pendingRows + |chunk|;
      have := have + |chunk|;
    }

    /** _ingest for the chunk [start, start + |chunk|) of the prompt, up to the finish. */
    method Receive(start: nat, chunk: seq<Row>)
      requires Valid() && !closing
      requires start + |chunk| <= promptLen && chunk == prompt[start..start + |chunk|]
      modifies this, link
      ensures Valid() && !closing && link.from == old(link.from) && old(cut) <= cut
      ensures have == old(have) + if start == old(have) then |chunk| else 0
      ensures old(gaps) != [] || start != old(have) ==> gaps != [] && cut == old(cut)
      ensures old(gaps) == [] && start == old(have) ==> gaps == [] || error
      ensures start == old(have) && old(pendingRows) + |chunk| < B ==>
                pending == old(pending) + [chunk] && pendingRows == old(pendingRows) + |chunk| && gaps == old(gaps)
                  && error == old(error)
      ensures start == old(have) && old(gaps) == [] && B <= old(pendingRows) + |chunk| ==> |pending| <= 1
      ensures old(error) ==> error
    {
      hide CutOk, Off, Count, Rem, BlockFiles, Possible, EndFiles, DiskHolds, Queued, link.Valid;
      if start != have {
        gaps := gaps + [(have, start)];
      } else {
        Append(chunk);
        CutBlocks();
      }
    }

    /** After a cut nothing is left that would fill a block. */
    lemma Counted()
      requires RowsKept() && Sending()
      ensures gaps == [] ==> blocks == Count(have, B) && pendingRows == Rem(have, B)
    {
      hide CutOk, Queued, BlockFiles, Possible;
      if gaps == [] {
        Unique(blocks, pendingRows, B);
      }
    }

    /** The sender works the queue off. */
    method RunSender()
      requires Valid()
      modifies `sent, `gaps, `error, `connected, `tick, `head, `finished, `delivered, `tailShipped, `sendq, link
      ensures Valid() && sendq == [] && (closing ==> finished) && link.from == old(link.from)
      ensures gaps == old(gaps) || (old(gaps) <= gaps && error)
      ensures old(error) ==> error
    {
      hide CutOk, Off, Count, Rem, BlockFiles, Possible, EndFiles, DiskHolds, Queued, link.Valid, RowsHeld;
      while sendq != []
        invariant Valid() && link.from == old(link.from)
        invariant gaps == old(gaps) || (old(gaps) <= gaps && error)
        invariant old(error) ==> error
        decreases |sendq|
      {
        label Before:
        SenderStep();
        RowsStay@Before();
      }
      SomethingQueued(cut, hashes, head);
    }

    /** _finish: the finish item goes behind the capture's last block once the queue has room, or, in synchronous
        mode, is handled at once. */
    method Close()
      requires Valid() && !closing
      modifies `closing, `connected, `tick, `finished, `delivered, `tailShipped, `sendq, `sent, `gaps, `error, `head,
               link
      ensures Valid() && closing && link.from == old(link.from)
      ensures gaps == old(gaps) || (old(gaps) <= gaps && error)
      ensures old(error) ==> error
    {
      hide CutOk, Off, Count, Rem, BlockFiles, Possible, EndFiles, DiskHolds, Queued, link.Valid, RowsHeld;
      Interleave();
      RowsStay();
      QueuedFinish(cut, hashes, head);
      closing := true;
      sendq := sendq + [Finish];
      if !async {
        RunSender();
      }
    }

    /** _ingest; last when the chunk reaches the prompt's end. */
    method Ingest(start: nat, chunk: seq<Row>, last: bool)
      requires Valid() && !closing
      requires start + |chunk| <= promptLen && chunk == prompt[start..start + |chunk|]
      modifies this, link
      ensures Valid() && closing == last && link.from == old(link.from) && old(cut) <= cut
      ensures have == old(have) + if start == old(have) then |chunk| else 0
      ensures old(gaps) != [] || start != old(have) ==> gaps != [] && cut == old(cut)
      ensures old(gaps) == [] && start == old(have) ==> gaps == [] || error
      ensures gaps == [] ==> blocks == Count(have, B) && pendingRows == Rem(have, B)
    {
      hide CutOk, Off, Count, Rem, BlockFiles, Possible, EndFiles, DiskHolds, Queued, link.Valid;
      Receive(start, chunk);
      if last {
        Close();
      }
      Counted();
    }
  }

  // ---- what a finished capture means

  /** Blocks 0..n-1 of a prompt as the decoder's own files. */
  ghost function PromptBlocks<Row>(prompt: seq<Row>, hashes: seq<string>, B: nat, n: nat): seq<Landed<Row>>
    requires n <= |hashes| && Off(n, B) <= |prompt|
  {
    if n == 0 then []
    else
      OffMonotone(n - 1, n, B);
      PromptBlocks(prompt, hashes, B, n - 1) + [BlockFile(hashes[n - 1], prompt[Off(n - 1, B)..Off(n, B)])]
  }

  lemma {:induction false} BlockFilesAre<Row>(cut: seq<seq<Row>>, prompt: seq<Row>, hashes: seq<string>, B: nat, n: nat)
    requires CutOk(cut, prompt, B) && n <= |cut| <= |hashes|
    ensures Off(n, B) <= |prompt| && BlockFiles(cut, hashes, n) == PromptBlocks(prompt, hashes, B, n)
  {
    if n > 0 {
      BlockFilesAre(cut, prompt, hashes, B, n - 1);
      assert IsBlock(cut[n - 1], prompt, n - 1, B);
    }
  }

  /** DONE means landed. Once DONE has been answered OK, the decoder's disk is what it was when the capture began,
      then the prompt's blocks 0..sent-1, then the tail if it went, the manifest and DONE; and it says complete
      exactly when every row arrived without a gap, in which case the blocks are all the full blocks the prompt
      has. */
  lemma DoneMeansLanded<Row(!new)>(c: Capture<Row>)
    requires c.Valid() && c.finished && c.delivered
    ensures c.sent <= |c.hashes| && Off(c.sent, c.B) <= |c.prompt|
    ensures var m := c.ManifestNow(c.TailCount(c.tailShipped));
            && c.link.rx.inflight == [] && !c.link.rx.failed
            && c.link.rx.disk == c.link.from
                                 + (PromptBlocks(c.prompt, c.hashes, c.B, c.sent)
                                    + (c.TailFiles(c.tailShipped) + [ManifestFile(m), DoneFile(m.complete)]))
            && (m.complete <==> c.gaps == [] && c.have == c.promptLen)
            && (m.complete ==> c.sent == c.blocks == Count(c.promptLen, c.B))
  {
    hide CutOk, Off, Count, Queued, Possible, BlockFiles, PromptBlocks;
    BlockFilesAre(c.cut, c.prompt, c.hashes, c.B, c.sent);
    c.Counted();
  }

  lemma FirstPiece<T>(s: seq<T>, a: nat, first: seq<T>, rest: seq<T>)
    requires a + 1 < |s| && s[a..] == first + rest
    ensures var n := |s| - a - 1;
            var got := if n <= |first| then first[..n] else first;
            got <= s[a..|s| - 1] && (got == s[a..|s| - 1] <==> n <= |first|)
  {
    assert s[a..|s| - 1] == (first + rest)[..|s| - a - 1];
  }

  /** The tail file holds the rows it is announced with, [blocks*B, T-1), exactly when they are all in the first pending
      tensor: _tail_blob reads no other, and _cut_blocks joins the tensors only when they fill a block. */
  lemma TailIsWholeIff<Row(!new)>(c: Capture<Row>)
    requires c.Valid() && c.gaps == [] && c.have == c.promptLen
    ensures c.TailRows().Some? <==> 1 < c.pendingRows
    ensures Off(c.blocks, c.B) + c.pendingRows == c.promptLen == |c.prompt|
    ensures c.TailRows().Some? ==>
              && c.TailRows().value.1 == c.promptLen - 1 - Off(c.blocks, c.B)
              && c.pending != []
              && (c.TailRows().value.0 == c.prompt[Off(c.blocks, c.B)..c.promptLen - 1] <==>
                c.pendingRows - 1 <= |c.pending[0]|)
              && c.TailRows().value.0 <= c.prompt[Off(c.blocks, c.B)..c.promptLen - 1]
  {
    hide CutOk, Off, Count, Queued, Possible, BlockFiles, Rem;
    c.Counted();
    Split(c.have, c.B);
    if c.pending != [] && 1 < c.pendingRows {
      FirstPiece(c.prompt, Off(c.blocks, c.B), c.pending[0], Flatten(c.pending[1..]));
    }
  }

  lemma NoError<Row(!new)>(c: Capture<Row>)
    requires c.Valid()
    ensures c.error ==> c.gaps != []
  {
  }

  /** After a chunk that began with nothing pending, what is pending is one tensor with the rows behind the last full
      block. */
  lemma OnePending<Row(!new)>(c: Capture<Row>)
    requires c.Valid()
    ensures c.gaps == [] ==> !c.error && c.pendingRows == Rem(c.have, c.B) && c.have <= |c.prompt|
    ensures c.gaps == [] && |c.pending| <= 1 && 0 < c.pendingRows ==>
              Off(Count(c.have, c.B), c.B) <= c.have && c.pending == [c.prompt[Off(Count(c.have, c.B), c.B)..c.have]]
  {
    hide CutOk, Queued, BlockFiles, Possible, Count, Off, Rem;
    c.Counted();
    Split(c.have, c.B);
    OnlyOne(c.pending);
  }

  /** The two chunks, up to the tail. */
  method TwoPieces<Row(!new)>(c: Capture<Row>, prompt: seq<Row>, first: nat)
    requires c.Valid() && !c.closing && !c.error && c.gaps == [] && c.have == 0 && c.pending == [] && c.pendingRows == 0
    requires c.prompt == prompt && c.promptLen == |prompt| && first + 1 < |prompt|
    requires Count(first, c.B) == Count(|prompt|, c.B) && 0 < Rem(first, c.B)
    modifies c, c.link
    ensures c.Valid() && c.have == c.promptLen && (c.gaps == [] || c.error) && (|prompt| < c.B ==> !c.error)
    ensures var q := Off(Count(first, c.B), c.B);
            q < first
              && (c.gaps == [] ==>
                  !c.error && c.pending == [prompt[q..first], prompt[first..]] && c.pendingRows == |prompt| - q)
  {
    hide c.Valid, Count, Off, CutOk, Rem;
    Split(first, c.B);
    Split(|prompt|, c.B);
    c.Receive(0, prompt[..first]);
    assert |prompt| < c.B ==> c.gaps == [] && !c.error;
    OnePending(c);
    c.Receive(first, prompt[first..]);
    NoError(c);
  }

  /** Two chunks of which the first leaves rows behind its last full block and the second does not fill another: the
      tail announces all rows behind that block but the last, and holds those of the first chunk only, unless a block
      failed to go out. */
  method ShortTail<Row(!new)>(c: Capture<Row>, prompt: seq<Row>, first: nat) returns (rows: seq<Row>, announced: nat)
    requires c.Valid() && !c.closing && !c.error && c.gaps == [] && c.have == 0 && c.pending == [] && c.pendingRows == 0
    requires c.prompt == prompt && c.promptLen == |prompt| && first + 1 < |prompt|
    requires Count(first, c.B) == Count(|prompt|, c.B) && 0 < Rem(first, c.B)
    modifies c, c.link
    ensures c.Valid() && c.have == c.promptLen && (c.gaps == [] || c.error) && (|prompt| < c.B ==> !c.error)
    ensures var q := Off(Count(first, c.B), c.B);
            q < first
              && (c.gaps == [] ==> rows == prompt[q..first] && announced == |prompt| - 1 - q && |rows| < announced)
  {
    hide c.Valid, Count, Off, CutOk, Rem;
    Split(first, c.B);
    Split(|prompt|, c.B);
    TwoPieces(c, prompt, first);
    rows, announced := [], 0;
    if c.gaps == [] {
      var tail := c.TailRows();
      rows, announced := tail.value.0, tail.value.1;
    }
  }
}
