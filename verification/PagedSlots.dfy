/** spark/pd_kv_connector.py, scheduler side and gather: which rows of the paged KV cache a step's chunk reads. */
module PagedSlots {
  import opened Blocks
  import opened Seqs

  /** _Chunk, without its labels. */
  datatype Chunk = Chunk(start: nat, slots: seq<nat>, last: bool)

  /** What the engine does to a request's page table: append pages, or, after a preemption, start over with a new
      list. */
  datatype PageEvent = Grow(more: seq<nat>) | Resume(table: seq<nat>)

  function Apply(table: seq<nat>, e: PageEvent): seq<nat> {
    match e
    case Grow(more) => table + more
    case Resume(full) => full
  }

  function ApplyAll(table: seq<nat>, events: seq<PageEvent>): seq<nat> {
    if events == [] then table else Apply(ApplyAll(table, events[..|events| - 1]), events[|events| - 1])
  }

  /** How the scheduler output reports an event: the resumed flag and new_block_ids, None when there is nothing new. */
  function Reported(e: PageEvent): (bool, Option<seq<nat>>) {
    match e
    case Grow(more) => (false, if more == [] then None else Some(more))
    case Resume(full) => (true, Some(full))
  }

  /** blocks[pos // bs] * bs + pos % bs */
  function Slot(blocks: seq<nat>, bs: nat, pos: nat): nat
    requires 0 < bs && Count(pos, bs) < |blocks|
  {
    Off(blocks[Count(pos, bs)], bs) + Rem(pos, bs)
  }

  lemma InTable(blocks: seq<nat>, bs: nat, pos: nat)
    requires 0 < bs && pos < Off(|blocks|, bs)
    ensures Count(pos, bs) < |blocks|
  {
    Fits(|blocks|, pos, bs);
  }

  /** The slots of n positions, from `start` on. */
  function Slots(blocks: seq<nat>, bs: nat, start: nat, n: nat): (s: seq<nat>)
    requires 0 < bs && start + n <= Off(|blocks|, bs)
    ensures |s| == n
    decreases n
  {
    if n == 0 then []
    else
      InTable(blocks, bs, start);
      [Slot(blocks, bs, start)] + Slots(blocks, bs, start + 1, n - 1)
  }

  /** What the scheduler side keeps of one tagged request. */
  class Tracked {
    const bs: nat
    const promptLen: nat
    var blocks: seq<nat>

    constructor (bs: nat, promptLen: nat, table: seq<nat>)
      ensures this.bs == bs && this.promptLen == promptLen && blocks == table
    {
      this.bs, this.promptLen, blocks := bs, promptLen, table;
    }

    /** build_connector_meta for a request that was scheduled before. */
    method Update(resumed: bool, newBlocks: Option<seq<nat>>, ghost e: PageEvent)
      requires (resumed, newBlocks) == Reported(e)
      modifies this
      ensures blocks == Apply(old(blocks), e)
    {
      if resumed {
        if newBlocks.Some? {
          blocks := newBlocks.value;
        }
      } else if newBlocks.Some? {
        blocks := blocks + newBlocks.value;
      }
    }

    /** _emit: the chunk of this step, or None for a decode step. */
    method Emit(computed: nat, scheduled: int) returns (res: Option<Chunk>)
      requires 0 < bs
      requires 0 < scheduled && computed < promptLen ==> Min(computed + scheduled, promptLen) <= Off(|blocks|, bs)
      ensures res.Some? <==> 0 < scheduled && computed < promptLen
      ensures res.Some? ==>
                var end := Min(computed + scheduled, promptLen);
                computed < end
                  && res.value == Chunk(computed, Slots(blocks, bs, computed, end - computed), end == promptLen)
    {
      if scheduled <= 0 || computed >= promptLen {
        return None;
      }
      var end := Min(computed + scheduled, promptLen);
      return Some(Chunk(computed, Slots(blocks, bs, computed, end - computed), end >= promptLen));
    }
  }

  /** The paged cache: row `off` of physical page `page`. */
  type Cache<!Row> = (nat, nat) -> Row

  /** save_kv_layer and _gather_kv: slot s is row s % bs of page s // bs. */
  function Gather<Row>(cache: Cache<Row>, bs: nat, slots: seq<nat>): seq<Row>
    requires 0 < bs
  {
    if slots == [] then [] else [cache(Count(slots[0], bs), Rem(slots[0], bs))] + Gather(cache, bs, slots[1..])
  }

  /** The engine's side: position p of the prompt lives in row p % bs of the p // bs'th page of its table. */
  ghost predicate Holds<Row>(cache: Cache<Row>, bs: nat, table: seq<nat>, prompt: seq<Row>, end: nat)
    requires 0 < bs
  {
    end <= |prompt| && end <= Off(|table|, bs)
    && forall p: nat | p < end && Count(p, bs) < |table| :: cache(table[Count(p, bs)], Rem(p, bs)) == prompt[p]
  }

  lemma {:induction false} GatherSlots<Row>(cache: Cache<Row>, bs: nat, table: seq<nat>, prompt: seq<Row>, start: nat,
                                            n: nat)
    requires 0 < bs && Holds(cache, bs, table, prompt, start + n)
    ensures Gather(cache, bs, Slots(table, bs, start, n)) == prompt[start..start + n]
    decreases n
  {
    hide Off, Count, Rem;
    if n > 0 {
      InTable(table, bs, start);
      var page := table[Count(start, bs)];
      Unique(page, Rem(start, bs), bs);
      assert cache(page, Rem(start, bs)) == prompt[start];
      GatherSlots(cache, bs, table, prompt, start + 1, n - 1);
      assert Slots(table, bs, start, n)[1..] == Slots(table, bs, start + 1, n - 1);
    }
  }

  /** Following the reports keeps the connector's list equal to the engine's table, through any extensions and
      resumptions; so the rows gathered for a chunk are the prompt rows of its positions, in order. */
  method Follow<Row>(bs: nat, promptLen: nat, table: seq<nat>, events: seq<PageEvent>, computed: nat, scheduled: int,
                     cache: Cache<Row>, ghost prompt: seq<Row>) returns (res: Option<(nat, seq<Row>, bool)>)
    requires 0 < bs && |prompt| == promptLen
    requires 0 < scheduled && computed < promptLen ==>
               Holds(cache, bs, ApplyAll(table, events), prompt, Min(computed + scheduled, promptLen))
    ensures res.Some? <==> 0 < scheduled && computed < promptLen
    ensures res.Some? ==> var end := Min(computed + scheduled, promptLen);
                          res.value == (computed, prompt[computed..end], end == promptLen)
  {
    hide Off, Count, Rem;
    var st := new Tracked(bs, promptLen, table);
    for i := 0 to |events|
      invariant st.bs == bs && st.promptLen == promptLen && st.blocks == ApplyAll(table, events[..i])
    {
      var (resumed, newBlocks) := Reported(events[i]);
      st.Update(resumed, newBlocks, events[i]);
      assert events[..i + 1][..i] == events[..i];
    }
    assert events[..|events|] == events;
    var ch := st.Emit(computed, scheduled);
    if ch.None? {
      return None;
    }
    GatherSlots(cache, bs, st.blocks, prompt, computed, Min(computed + scheduled, promptLen) - computed);
    return Some((ch.value.start, Gather(cache, bs, ch.value.slots), ch.value.last));
  }
}
