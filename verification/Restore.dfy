/** The decoder's end of the push pipeline: studio/pd_omlx_hooks.py (staged buffers, tail rows) and the lookup of
    pd_front.py, on the disk the connector filled. A row stands for the K and V of one token in every layer. */
module Restore {
  import opened Blocks
  import opened Seqs
  import opened HashChain
  import opened Connector
  import opened PushLink

  // ---- the rows of a prompt and the files that hold them

  /** The K/V row of a position is a function of the ids up to and including it. */
  function Rows<Row>(kv: seq<nat> -> Row, ids: seq<nat>): (rows: seq<Row>)
    ensures |rows| == |ids|
  {
    seq(|ids|, p requires 0 <= p < |ids| => kv(ids[..p + 1]))
  }

  lemma RowsOfPrefix<Row>(kv: seq<nat> -> Row, a: seq<nat>, b: seq<nat>, n: nat)
    requires n <= |a| && n <= |b| && a[..n] == b[..n]
    ensures Rows(kv, a)[..n] == Rows(kv, b)[..n]
  {
    forall p | 0 <= p < n
      ensures Rows(kv, a)[p] == Rows(kv, b)[p]
    {
      assert a[..p + 1] == a[..n][..p + 1] && b[..p + 1] == b[..n][..p + 1];
    }
  }

  /** Reading a block file: the newest one of that name. */
  function Find<Row>(disk: seq<Landed<Row>>, hash: string): Option<seq<Row>> {
    if disk == [] then None
    else
      var last := disk[|disk| - 1];
      if last.BlockFile? && last.hash == hash then Some(last.rows) else Find(disk[..|disk| - 1], hash)
  }

  datatype Codec<!Row(!new)> = Codec(sha: string -> string, model: string, kv: seq<nat> -> Row, B: nat) {
    ghost predicate Ok() { 0 < B && forall m :: |sha(m)| == 32 }
  }

  /** f is block j of the prompt ids. */
  ghost predicate StoredFor<Row(!new)>(c: Codec<Row>, f: Landed<Row>, ids: seq<nat>, j: nat) {
    f.BlockFile? && Off(j, c.B) <= Off(j + 1, c.B) <= |ids| && f.hash == HashAt(c.sha, c.model, ids, c.B, j)
    && f.rows == Rows(c.kv, ids)[Off(j, c.B)..Off(j + 1, c.B)]
  }

  /** Block j of a prompt. */
  datatype Origin = Origin(ids: seq<nat>, j: nat)

  /** Every block file was written for some prompt's block, under the name that block has. */
  ghost predicate Honest<Row(!new)>(c: Codec<Row>, disk: seq<Landed<Row>>, origins: seq<Origin>) {
    |origins| == |disk| && forall i | 0 <= i < |disk| && disk[i].BlockFile? ::
        StoredFor(c, disk[i], origins[i].ids, origins[i].j)
  }

  /** The digests of this prompt's chain and of the chains stored do not clash. */
  ghost predicate ClashFree<Row(!new)>(c: Codec<Row>, origins: seq<Origin>, ids: seq<nat>) {
    forall i, j: nat | 0 <= i < |origins| :: !Clash(c.sha, c.model, c.B, ids, j, origins[i].ids, origins[i].j)
  }

  lemma SameRows<Row(!new)>(c: Codec<Row>, a: seq<nat>, i: nat, b: seq<nat>, j: nat)
    requires c.Ok() && Off(i, c.B) <= Off(i + 1, c.B) <= |a| && Off(j, c.B) <= Off(j + 1, c.B) <= |b|
    requires HashAt(c.sha, c.model, a, c.B, i) == HashAt(c.sha, c.model, b, c.B, j)
             && !Clash(c.sha, c.model, c.B, a, i, b, j)
    ensures Rows(c.kv, a)[Off(i, c.B)..Off(i + 1, c.B)] == Rows(c.kv, b)[Off(j, c.B)..Off(j + 1, c.B)]
  {
    hide Off, HashAt, Rows, Clash;
    SameNameSamePrefix(c.sha, c.model, c.B, a, i, b, j);
    var n := Off(i + 1, c.B);
    RowsOfPrefix(c.kv, a, b, n);
    assert Rows(c.kv, a)[Off(i, c.B)..n] == Rows(c.kv, a)[..n][Off(i, c.B)..];
    assert Rows(c.kv, b)[Off(j, c.B)..n] == Rows(c.kv, b)[..n][Off(j, c.B)..];
  }

  /** A hit is ours: whatever prompt a found block was stored for, its rows are this prompt's rows of that block. */
  lemma {:induction false} HitIsOurs<Row(!new)>(c: Codec<Row>, disk: seq<Landed<Row>>, origins: seq<Origin>,
                                                ids: seq<nat>, j: nat)
    requires c.Ok() && Honest(c, disk, origins) && ClashFree(c, origins, ids) && Off(j + 1, c.B) <= |ids|
    requires Find(disk, HashAt(c.sha, c.model, ids, c.B, j)).Some?
    ensures Off(j, c.B) <= Off(j + 1, c.B)
    ensures Find(disk, HashAt(c.sha, c.model, ids, c.B, j)) == Some(Rows(c.kv, ids)[Off(j, c.B)..Off(j + 1, c.B)])
    decreases |disk|
  {
    hide Off, HashAt, Rows, Clash;
    OffMonotone(j, j + 1, c.B);
    var last := |disk| - 1;
    var f := disk[last];
    if f.BlockFile? && f.hash == HashAt(c.sha, c.model, ids, c.B, j) {
      assert StoredFor(c, f, origins[last].ids, origins[last].j);
      SameRows(c, ids, j, origins[last].ids, origins[last].j);
    } else {
      HitIsOurs(c, disk[..last], origins[..last], ids, j);
    }
  }

  ghost predicate IsName<Row(!new)>(c: Codec<Row>, ids: seq<nat>, hash: string, j: nat) {
    Off(j + 1, c.B) <= |ids| && hash == HashAt(c.sha, c.model, ids, c.B, j)
  }

  function Own(ids: seq<nat>, n: nat): (o: seq<Origin>)
    ensures |o| == n
  {
    if n == 0 then [] else Own(ids, n - 1) + [Origin(ids, n - 1)]
  }

  lemma FindAppend<Row>(disk: seq<Landed<Row>>, f: Landed<Row>, hash: string)
    ensures Find(disk + [f], hash) == if f.BlockFile? && f.hash == hash then Some(f.rows) else Find(disk, hash)
  {
    assert (disk + [f])[..|disk|] == disk;
  }

  lemma OneMore<Row(!new)>(c: Codec<Row>, disk: seq<Landed<Row>>, origins: seq<Origin>, f: Landed<Row>, o: Origin)
    requires Honest(c, disk, origins) && (f.BlockFile? ==> StoredFor(c, f, o.ids, o.j))
    ensures Honest(c, disk + [f], origins + [o])
  {
    hide StoredFor;
  }

  /** What the connector ships for ids keeps the disk honest, and leaves every shipped block to be found. */
  lemma {:induction false} ShippedIsHonest<Row(!new)>(c: Codec<Row>, disk: seq<Landed<Row>>, origins: seq<Origin>,
                                                      ids: seq<nat>, hashes: seq<string>, n: nat)
    requires c.Ok() && Honest(c, disk, origins) && n <= |hashes| && Off(n, c.B) <= |ids|
    requires forall j | 0 <= j < n :: IsName(c, ids, hashes[j], j)
    ensures Honest(c, disk + PromptBlocks(Rows(c.kv, ids), hashes, c.B, n), origins + Own(ids, n))
    ensures forall j | 0 <= j < n :: Find(disk + PromptBlocks(Rows(c.kv, ids), hashes, c.B, n), hashes[j]).Some?
  {
    hide Off, HashAt, Rows, Honest;
    if n > 0 {
      OffMonotone(n - 1, n, c.B);
      ShippedIsHonest(c, disk, origins, ids, hashes, n - 1);
      var before := disk + PromptBlocks(Rows(c.kv, ids), hashes, c.B, n - 1);
      var f := BlockFile(hashes[n - 1], Rows(c.kv, ids)[Off(n - 1, c.B)..Off(n, c.B)]);
      assert IsName(c, ids, hashes[n - 1], n - 1);
      OneMore(c, before, origins + Own(ids, n - 1), f, Origin(ids, n - 1));
      assert disk + PromptBlocks(Rows(c.kv, ids), hashes, c.B, n) == before + [f];
      assert origins + Own(ids, n) == origins + Own(ids, n - 1) + [Origin(ids, n - 1)];
      forall j | 0 <= j < n
        ensures Find(before + [f], hashes[j]).Some?
      {
        FindAppend(before, f, hashes[j]);
      }
    } else {
      assert disk + [] == disk && origins + [] == origins;
    }
  }

  // ---- staged buffers

  /** ((n*block + max(reserve, 0) + block - 1) // block) * block */
  function Capacity(n: nat, B: nat, reserve: int): nat
    requires 0 < B
  {
    Off(Count(Off(n, B) + Max(reserve, 0) + B - 1, B), B)
  }

  lemma CapacityIs(n: nat, B: nat, reserve: int)
    requires 0 < B
    ensures Capacity(n, B, reserve) == Off(n + Count(Max(reserve, 0) + B - 1, B), B) >= Off(n, B)
  {
    var m := Max(reserve, 0) + B - 1;
    Extend(Off(n, B), m, B);
    Unique(n, 0, B);
    assert Off(n, B) + Max(reserve, 0) + B - 1 == Off(n, B) + m;
    OffMonotone(n, n + Count(m, B), B);
  }

  /** With rows left after the last full block, all but the last of them fit behind the blocks, in place, exactly when a
      reserve was asked for. */
  lemma TailFitsIff(T: nat, B: nat, reserve: int)
    requires 0 < B && Off(Count(T, B), B) < T - 1
    ensures T - 1 <= Capacity(Count(T, B), B, reserve) <==> 0 < reserve
  {
    hide Count, Off, Rem, Capacity;
    var n := Count(T, B);
    CapacityIs(n, B, reserve);
    Split(T, B);
    OneBlock(B);
    if 0 < reserve {
      Fits(1, reserve + B - 1, B);
      OffMonotone(n + 1, n + Count(reserve + B - 1, B), B);
      OffAdd(n, 1, B);
    } else {
      Fits(1, B - 1, B);
    }
  }

  /** KVCache: rows in a buffer that may be longer than what it holds. */
  class KVCache<Row(0)> {
    var keys: array<Row>
    var offset: nat

    ghost predicate Valid()
      reads this
    {
      offset <= keys.Length
    }

    ghost function Contents(): seq<Row>
      requires Valid()
      reads this, keys
    {
      keys[..offset]
    }

    constructor (keys: array<Row>, offset: nat)
      requires offset <= keys.Length
      ensures Valid() && this.keys == keys && this.offset == offset
    {
      this.keys, this.offset := keys, offset;
    }

    /** update_and_fetch: in place while the buffer has room, else into a new and longer one. */
    method UpdateAndFetch(rows: seq<Row>)
      requires Valid()
      modifies this, keys
      ensures Valid() && Contents() == old(Contents()) + rows && offset == old(offset) + |rows|
      ensures old(offset) + |rows| <= old(keys.Length) <==> keys == old(keys)
    {
      var n := |rows|;
      if offset + n > keys.Length {
        var wider := new Row[offset + n];
        forall i | 0 <= i < offset {
          wider[i] := keys[i];
        }
        assert wider[..offset] == keys[..offset];
        keys := wider;
      }
      label Written:
      forall i | 0 <= i < n {
        keys[offset + i] := rows[i];
      }
      assert keys[..offset] == old@Written(keys[..offset]);
      offset := offset + n;
      assert keys[..offset] == old@Written(keys[..offset]) + rows;
    }
  }

  lemma OneStep(j: nat, B: nat)
    ensures Off(j, B) + B == Off(j + 1, B)
  {
  }

  /** Rows written in place. */
  method CopyIn<Row>(buf: array<Row>, at: nat, rows: seq<Row>)
    requires at + |rows| <= buf.Length
    modifies buf
    ensures buf[at..at + |rows|] == rows
    ensures forall k | 0 <= k < buf.Length && !(at <= k < at + |rows|) :: buf[k] == old(buf[k])
  {
    forall k | 0 <= k < |rows| {
      buf[at + k] := rows[k];
    }
  }

  /** A stage: the whole restored cache, filled block by block while the prefill still runs. `landed` is what the wait
      for each name will end with, None when it times out; given says that a request has taken the buffer. */
  class Stage<Row(0)> {
    const hashes: seq<string>
    const B: nat
    const buf: array<Row>
    const landed: seq<Option<seq<Row>>>
    var ready: nat
    var error: bool
    var given: bool

    /** The file of block j arrives and has the right shape. */
    predicate Whole(j: nat)
      requires j < |landed|
    {
      landed[j].Some? && |landed[j].value| == B
    }

    /** Block j's rows sit at [j*B, (j+1)*B). */
    ghost predicate Placed(j: nat)
      reads buf
    {
      j < |landed| && Whole(j) && Off(j, B) + B == Off(j + 1, B) <= buf.Length
        && buf[Off(j, B)..Off(j + 1, B)] == landed[j].value
    }

    /** Ready blocks sit in their places for as long as the buffer is the stage's own; an error is about the next
        block. */
    ghost predicate Valid()
      reads this, buf
    {
      && 0 < B && ready <= |hashes| == |landed| && Off(|hashes|, B) <= buf.Length
      && (!given ==> forall j | 0 <= j < ready :: Placed(j))
      && (error ==> ready < |hashes| && !Whole(ready))
    }

    constructor (hashes: seq<string>, B: nat, reserve: int, landed: seq<Option<seq<Row>>>)
      requires 0 < B && |landed| == |hashes|
      ensures Valid() && this.hashes == hashes && this.B == B && this.landed == landed && ready == 0 && !error && !given
      ensures fresh(buf) && buf.Length == Capacity(|hashes|, B, reserve)
    {
      CapacityIs(|hashes|, B, reserve);
      this.hashes, this.B, this.landed := hashes, B, landed;
      buf := new Row[Capacity(|hashes|, B, reserve)];
      ready, error, given := 0, false, false;
    }

    method Place(j: nat)
      requires Valid() && j < |hashes| && Whole(j)
      modifies buf
      ensures Placed(j)
      ensures forall i | 0 <= i < j && old(Placed(i)) :: Placed(i)
      ensures forall k | 0 <= k < buf.Length && !(Off(j, B) <= k < Off(j, B) + B) :: buf[k] == old(buf[k])
    {
      OffMonotone(j + 1, |hashes|, B);
      OneStep(j, B);
      hide Off;
      CopyIn(buf, Off(j, B), landed[j].value);
      forall i | 0 <= i < j && old(Placed(i))
        ensures Placed(i)
      {
        OffMonotone(i + 1, j, B);
        assert buf[Off(i, B)..Off(i + 1, B)] == old(buf[Off(i, B)..Off(i + 1, B)]);
      }
    }

    /** _run, until `upto` blocks are ready: copies each block file to its place as it lands, and stops for good at
        the first that does not arrive or has the wrong shape. */
    method Run(upto: nat)
      requires Valid() && !given
      modifies `ready, `error, buf
      ensures Valid() && old(ready) <= ready && (error || ready == Max(old(ready), Min(upto, |hashes|)))
    {
      hide Off;
      while ready < |hashes| && ready < upto && !error
        invariant Valid() && old(ready) <= ready && (ready <= upto || ready == old(ready))
        decreases |hashes| - ready, if error then 0 else 1
      {
        if !Whole(ready) {
          error := true;
        } else {
          Place(ready);
          ready := ready + 1;
        }
      }
    }
  }

  // ---- restoring a request

  predicate AllNamed(matched: seq<Option<string>>) {
    forall k | 0 <= k < |matched| :: matched[k].Some?
  }

  function Names(matched: seq<Option<string>>): (names: seq<string>)
    requires AllNamed(matched)
    ensures |names| == |matched|
  {
    seq(|matched|, k requires 0 <= k < |matched| => matched[k].value)
  }

  /** A stage that a request with these matched blocks waits for. */
  predicate Offers<Row(0)>(e: Stage<Row>, names: seq<string>)
    reads e
  {
    !e.error && names != [] && names <= e.hashes
  }

  /** Stages of different requests share nothing. */
  predicate Separate<Row(0)>(stages: seq<Stage<Row>>) {
    forall i, j | 0 <= i < j < |stages| :: stages[i] != stages[j] && stages[i].buf != stages[j].buf
  }

  /** The wait for the last copies, and the hand-over. */
  method TakeFrom<Row(0)>(stages: seq<Stage<Row>>, i: nat, n: nat, more: nat) returns (cache: KVCache?<Row>)
    requires i < |stages| && Separate(stages) && forall k | 0 <= k < |stages| :: stages[k].Valid() && !stages[k].given
    requires !stages[i].error && n <= |stages[i].hashes|
    modifies stages[i], stages[i].buf
    ensures forall k | 0 <= k < |stages| :: stages[k].Valid() && (k != i ==> !stages[k].given)
    ensures cache != null <==> n <= stages[i].ready
    ensures stages[i].error || stages[i].ready == Max(old(stages[i].ready), Min(old(stages[i].ready) + more, n))
    ensures cache != null ==>
              fresh(cache) && cache.Valid() && cache.keys == stages[i].buf && cache.offset == Off(n, stages[i].B)
    ensures cache != null ==> forall j | 0 <= j < n :: stages[i].Placed(j)
  {
    hide Off;
    var e := stages[i];
    e.Run(Min(e.ready + more, n));
    forall k | 0 <= k < |stages| && k != i
      ensures stages[k].Valid() && !stages[k].given
    {
      assert stages[k] != e && stages[k].buf != e.buf;
    }
    if e.ready < n {
      return null;
    }
    OffMonotone(n, |e.hashes|, e.B);
    e.given := true;
    cache := new KVCache(e.buf, Times(n, e.B));
  }

  /** _staged_restore: the first stage in order whose names begin with the request's matched blocks is the one that
      serves; its last copies are waited for (`more` of them land within the deadline), and its buffer is given away.
      A block without a name ends it at once. i is the stage tried, |stages| when there is none. */
  method StagedRestore<Row(0)>(stages: seq<Stage<Row>>, matched: seq<Option<string>>, more: nat)
    returns (cache: KVCache?<Row>, i: nat)
    requires Separate(stages) && forall k | 0 <= k < |stages| :: stages[k].Valid() && !stages[k].given
    modifies stages, set e | e in stages :: e.buf
    ensures i <= |stages| && forall k | 0 <= k < |stages| :: stages[k].Valid()
    ensures forall k | 0 <= k < |stages| && k != i :: !stages[k].given && unchanged(stages[k], stages[k].buf)
    ensures AllNamed(matched) ==>
              && (forall k | 0 <= k < i :: !old(Offers(stages[k], Names(matched))))
              && (i < |stages| ==> old(Offers(stages[i], Names(matched))))
              && (cache != null <==> i < |stages| && |matched| <= stages[i].ready)
    ensures !AllNamed(matched) ==> cache == null && i == |stages|
    ensures i < |stages| ==>
              stages[i].error
                || stages[i].ready == Max(old(stages[i].ready), Min(old(stages[i].ready) + more, |matched|))
    ensures cache != null ==>
              fresh(cache) && cache.Valid() && cache.keys == stages[i].buf
                && cache.offset == Off(|matched|, stages[i].B)
    ensures i < |stages| && cache != null ==> forall j | 0 <= j < |matched| :: stages[i].Placed(j)
  {
    hide Off;
    var hashes: seq<string> := [];
    var n := 0;
    while n < |matched|
      invariant 0 <= n <= |matched| && |hashes| == n && forall k | 0 <= k < n :: matched[k] == Some(hashes[k])
    {
      if matched[n].None? {
        return null, |stages|;
      }
      hashes := hashes + [matched[n].value];
      n := n + 1;
    }
    assert hashes == Names(matched);
    i := 0;
    while i < |stages|
      invariant 0 <= i <= |stages|
      invariant forall k | 0 <= k < i :: !Offers(stages[k], hashes)
    {
      var e := stages[i];
      if e.error || hashes == [] || |hashes| > |e.hashes| || e.hashes[..|hashes|] != hashes {
        i := i + 1;
      } else {
        assert Offers(e, hashes);
        cache := TakeFrom(stages, i, |hashes|, more);
        return;
      }
    }
    return null, i;
  }

  /** _install_tail: the tail rows are appended only when they end exactly one token before the prompt does. */
  method InstallTail<Row(0)>(cache: KVCache<Row>, promptLen: nat, cached: nat, remaining: nat, tail: seq<Row>)
    returns (installed: bool)
    requires cache.Valid()
    modifies cache, cache.keys
    ensures cache.Valid()
    ensures installed <==> cached + |tail| + 1 == promptLen && remaining == |tail| + 1 && old(cache.offset) == cached
    ensures cache.Contents() == old(cache.Contents()) + if installed then tail else []
    ensures !installed || old(cache.offset) + |tail| <= old(cache.keys.Length) <==> cache.keys == old(cache.keys)
  {
    var n := |tail|;
    if cached + n != promptLen - 1 || remaining != n + 1 {
      return false;
    }
    if cache.offset != cached {
      return false;
    }
    cache.UpdateAndFetch(tail);
    return true;
  }

  ghost predicate IsRowsOf<Row>(found: Option<seq<Row>>, rows: seq<Row>, j: nat, B: nat) {
    found.Some? && Off(j, B) <= Off(j + 1, B) <= |rows| && found.value == rows[Off(j, B)..Off(j + 1, B)]
  }

  ghost predicate PrefixPlaced<Row(0)>(e: Stage<Row>, rows: seq<Row>, n: nat)
    reads e.buf
  {
    Off(n, e.B) <= |rows| && Off(n, e.B) <= e.buf.Length && e.buf[..Off(n, e.B)] == rows[..Off(n, e.B)]
  }

  /** Blocks placed one by one make up the prefix. */
  lemma {:induction false} PlacedPrefix<Row(0)>(e: Stage<Row>, rows: seq<Row>, n: nat)
    requires forall j | 0 <= j < n :: e.Placed(j) && IsRowsOf(e.landed[j], rows, j, e.B)
    ensures PrefixPlaced(e, rows, n)
  {
    hide Off;
    OneBlock(e.B);
    if n > 0 {
      PlacedPrefix(e, rows, n - 1);
      assert e.Placed(n - 1) && IsRowsOf(e.landed[n - 1], rows, n - 1, e.B);
      var a, b := Off(n - 1, e.B), Off(n, e.B);
      assert e.buf[..b] == e.buf[..a] + e.buf[a..b];
      assert rows[..b] == rows[..a] + rows[a..b];
    }
  }

  /** What the stage reads for each of a prompt's names. */
  function Reads<Row>(disk: seq<Landed<Row>>, hashes: seq<string>): (r: seq<Option<seq<Row>>>)
    ensures |r| == |hashes| && forall j | 0 <= j < |hashes| :: r[j] == Find(disk, hashes[j])
  {
    seq(|hashes|, j requires 0 <= j < |hashes| => Find(disk, hashes[j]))
  }

  lemma ReadsAreRows<Row(!new)>(c: Codec<Row>, disk: seq<Landed<Row>>, origins: seq<Origin>, ids: seq<nat>,
                                hashes: seq<string>)
    requires c.Ok() && Honest(c, disk, origins) && ClashFree(c, origins, ids)
    requires forall j | 0 <= j < |hashes| :: IsName(c, ids, hashes[j], j)
    ensures forall j | 0 <= j < |hashes| && Reads(disk, hashes)[j].Some? ::
              IsRowsOf(Reads(disk, hashes)[j], Rows(c.kv, ids), j, c.B)
  {
    hide Off, HashAt, Rows, Honest, ClashFree;
    forall j | 0 <= j < |hashes| && Reads(disk, hashes)[j].Some?
      ensures IsRowsOf(Reads(disk, hashes)[j], Rows(c.kv, ids), j, c.B)
    {
      assert IsName(c, ids, hashes[j], j);
      HitIsOurs(c, disk, origins, ids, j);
    }
  }

  lemma NamesOfChain<Row(!new)>(c: Codec<Row>, ids: seq<nat>, hashes: seq<string>)
    requires c.Ok() && Off(|hashes|, c.B) <= |ids| && hashes == Chain(c.sha, c.model, ids, c.B, |hashes|)
    ensures forall j | 0 <= j < |hashes| :: IsName(c, ids, hashes[j], j)
  {
    hide Off, HashAt;
    forall j | 0 <= j < |hashes|
      ensures IsName(c, ids, hashes[j], j)
    {
      ChainAt(c.sha, c.model, ids, c.B, |hashes|, j);
    }
  }

  /** With every file there and every file a block, the stage finds no error. */
  lemma AllWhole<Row(0)>(e: Stage<Row>, rows: seq<Row>)
    requires e.Valid() && forall j | 0 <= j < |e.landed| :: IsRowsOf(e.landed[j], rows, j, e.B)
    ensures !e.error
  {
    OneStep(e.ready, e.B);
    assert e.error ==> IsRowsOf(e.landed[e.ready], rows, e.ready, e.B);
  }

  function Named(hashes: seq<string>): (m: seq<Option<string>>)
    ensures AllNamed(m) && Names(m) == hashes
  {
    var m := seq(|hashes|, k requires 0 <= k < |hashes| => Some(hashes[k]));
    assert AllNamed(m) && Names(m) == hashes;
    m
  }

  /** The staged blocks of a prompt: every name's file was on the disk, `ahead` of them were copied before the request
      came. */
  method RestoreBlocks<Row(!new, 0)>(hashes: seq<string>, landed: seq<Option<seq<Row>>>, B: nat, reserve: int,
                                     ahead: nat, ghost rows: seq<Row>)
    returns (cache: KVCache?<Row>, capacity: nat)
    requires 0 < B && hashes != [] && |landed| == |hashes| && forall j | 0 <= j < |landed| ::
               IsRowsOf(landed[j], rows, j, B)
    ensures cache != null && fresh(cache) && fresh(cache.keys) && cache.Valid()
            && cache.offset == Off(|hashes|, B) <= |rows|
    ensures cache.Contents() == rows[..Off(|hashes|, B)]
            && cache.keys.Length == capacity == Capacity(|hashes|, B, reserve)
  {
    hide Off, Capacity, IsRowsOf;
    var e := new Stage<Row>(hashes, B, reserve, landed);
    e.Run(ahead);
    AllWhole(e, rows);
    var i;
    var stages := [e];
    assert stages[0] == e;
    cache, i := StagedRestore(stages, Named(hashes), |hashes|);
    AllWhole(stages[0], rows);
    PlacedPrefix(e, rows, |hashes|);
    capacity := e.buf.Length;
  }

  /** From the disk to the decoder: with an honest disk that holds all blocks of a prompt and a tail that is a part of
      the rest of it, the restored cache is exactly the prompt's rows [0, T-1), at offset T-1, when the tail is the
      rest but the last row, and the full blocks otherwise. The staged buffer itself is kept exactly when it had
      room. */
  method RestorePrompt<Row(!new, 0)>(c: Codec<Row>, ids: seq<nat>, disk: seq<Landed<Row>>, ghost origins: seq<Origin>,
                                         tail: Option<seq<Row>>, reserve: int, ahead: nat)
    returns (cache: KVCache?<Row>, inPlace: bool)
    requires c.Ok() && Honest(c, disk, origins) && ClashFree(c, origins, ids) && 0 < Count(|ids|, c.B)
    requires Off(Count(|ids|, c.B), c.B) <= |ids|
    requires forall h | h in Chain(c.sha, c.model, ids, c.B, Count(|ids|, c.B)) :: Find(disk, h).Some?
    requires tail.Some? ==> Off(Count(|ids|, c.B), c.B) + 1 < |ids|
                            && tail.value <= Rows(c.kv, ids)[Off(Count(|ids|, c.B), c.B)..|ids| - 1]
    ensures cache != null && fresh(cache) && cache.Valid()
    ensures var installed := tail.Some? && Off(Count(|ids|, c.B), c.B) + |tail.value| + 1 == |ids|;
            && cache.offset == (if installed then |ids| - 1 else Off(Count(|ids|, c.B), c.B)) <= |ids|
            && cache.Contents() == Rows(c.kv, ids)[..cache.offset]
            && (inPlace <==> !installed || 0 < reserve)
  {
    hide Off, Count, Rem, HashAt, Rows, Honest, ClashFree, Capacity;
    var hashes := ChainHashes(c.sha, c.model, ids, c.B);
    NamesOfChain(c, ids, hashes);
    var landed := Reads(disk, hashes);
    forall j | 0 <= j < |hashes|
      ensures landed[j].Some?
    {
      assert hashes[j] in hashes;
    }
    ReadsAreRows(c, disk, origins, ids, hashes);
    var capacity;
    cache, capacity := RestoreBlocks(hashes, landed, c.B, reserve, ahead, Rows(c.kv, ids));
    var cached := cache.offset;
    inPlace := true;
    if tail.Some? {
      ghost var held := cache.Contents();
      var staged := cache.keys;
      TailFitsIff(|ids|, c.B, reserve);
      var installed := InstallTail(cache, |ids|, cached, |ids| - cached, tail.value);
      inPlace := cache.keys == staged;
      assert installed ==> held + tail.value == Rows(c.kv, ids)[..|ids| - 1];
    }
  }

  // ---- from the connector's DONE to the restored cache

  ghost predicate NoBlocks<Row>(files: seq<Landed<Row>>) {
    forall i | 0 <= i < |files| :: !files[i].BlockFile?
  }

  function Fill(n: nat): (o: seq<Origin>)
    ensures |o| == n
  {
    seq(n, _ => Origin([], 0))
  }

  lemma {:induction false} EndFilesAreInert<Row(!new)>(c: Codec<Row>, disk: seq<Landed<Row>>, origins: seq<Origin>,
                                                       end: seq<Landed<Row>>, hash: string)
    requires Honest(c, disk, origins) && NoBlocks(end)
    ensures Honest(c, disk + end, origins + Fill(|end|)) && Find(disk + end, hash) == Find(disk, hash)
  {
    hide StoredFor;
    if end == [] {
      assert disk + end == disk;
    } else {
      var n := |end| - 1;
      EndFilesAreInert(c, disk, origins, end[..n], hash);
      assert disk + end == disk + end[..n] + [end[n]];
      FindAppend(disk + end[..n], end[n], hash);
    }
  }

  /** The disk can serve every name, and only with honest files. */
  ghost predicate Serves<Row(!new)>(c: Codec<Row>, disk: seq<Landed<Row>>, origins: seq<Origin>, hashes: seq<string>) {
    Honest(c, disk, origins) && forall h | h in hashes :: Find(disk, h).Some?
  }

  lemma ShippedServes<Row(!new)>(c: Codec<Row>, disk: seq<Landed<Row>>, origins: seq<Origin>, ids: seq<nat>,
                                 hashes: seq<string>, end: seq<Landed<Row>>)
    requires c.Ok() && Honest(c, disk, origins) && Off(|hashes|, c.B) <= |ids| && NoBlocks(end)
    requires hashes == Chain(c.sha, c.model, ids, c.B, |hashes|)
    ensures Serves(c, disk + (PromptBlocks(Rows(c.kv, ids), hashes, c.B, |hashes|) + end), origins + Own(ids, |hashes|)
            + Fill(|end|), hashes)
  {
    hide Off, HashAt, Rows, Honest, Find, PromptBlocks, Chain, NoBlocks;
    var n := |hashes|;
    NamesOfChain(c, ids, hashes);
    var blocks := PromptBlocks(Rows(c.kv, ids), hashes, c.B, n);
    ShippedIsHonest(c, disk, origins, ids, hashes, n);
    assert disk + (blocks + end) == disk + blocks + end;
    EndFilesAreInert(c, disk + blocks, origins + Own(ids, n), end, "");
    forall h | h in hashes
      ensures Find(disk + blocks + end, h).Some?
    {
      EndFilesAreInert(c, disk + blocks, origins + Own(ids, n), end, h);
    }
  }

  lemma SizesAgree<Row(!new)>(cap: Capture<Row>, n: nat)
    requires cap.Valid() && |cap.hashes| == n
    ensures |cap.prompt| == cap.promptLen && Count(cap.promptLen, cap.B) == n
  {
  }

  /** End to end: when a capture of ids has answered DONE without a gap, the decoder's disk is honest and holds every
      full block of ids under its name. */
  lemma CaptureServes<Row(!new)>(c: Codec<Row>, ids: seq<nat>, cap: Capture<Row>, origins: seq<Origin>)
    requires c.Ok() && cap.Valid() && cap.finished && cap.delivered && cap.B == c.B && cap.gaps == []
             && cap.have == cap.promptLen
    requires cap.prompt == Rows(c.kv, ids) && Off(|cap.hashes|, c.B) <= |ids|
    requires cap.hashes == Chain(c.sha, c.model, ids, c.B, |cap.hashes|)
    requires Honest(c, cap.link.from, origins)
    ensures |cap.hashes| == Count(|ids|, c.B)
    ensures Serves(c, cap.link.rx.disk, origins + Own(ids, |cap.hashes|) + Fill(|cap.EndFiles(cap.tailShipped)|),
            cap.hashes)
  {
    hide Off, Count, Rem, HashAt, Rows, Honest, PromptBlocks, Serves, Chain;
    hide cap.Valid, cap.TailRows;
    DoneMeansLanded(cap);
    SizesAgree(cap, |cap.hashes|);
    ShippedServes(c, cap.link.from, origins, ids, cap.hashes, cap.EndFiles(cap.tailShipped));
  }

  lemma BlocksAre<Row(!new)>(cap: Capture<Row>)
    requires cap.Valid() && cap.gaps == []
    ensures cap.blocks == Count(cap.have, cap.B)
  {
    cap.Counted();
  }

  /** And a tail that holds all its announced rows is what RestorePrompt appends to them. */
  lemma CaptureTail<Row(!new)>(c: Codec<Row>, ids: seq<nat>, cap: Capture<Row>)
    requires c.Ok() && cap.Valid() && cap.B == c.B && cap.gaps == [] && cap.have == cap.promptLen
             && cap.prompt == Rows(c.kv, ids)
    ensures cap.TailRows().Some? && cap.pending != [] && cap.pendingRows - 1 <= |cap.pending[0]| ==>
              Off(cap.blocks, c.B) + 1 < |ids| && cap.blocks == Count(|ids|, c.B)
              && cap.TailRows().value.0 == Rows(c.kv, ids)[Off(cap.blocks, c.B)..|ids| - 1]
  {
    hide Off, Count, Rem, Rows, cap.Valid, cap.TailRows;
    TailIsWholeIff(cap);
    BlocksAre(cap);
  }

  lemma {:induction false} BlocksCount<Row>(prompt: seq<Row>, hashes: seq<string>, B: nat, n: nat)
    requires n <= |hashes| && Off(n, B) <= |prompt|
    ensures |PromptBlocks(prompt, hashes, B, n)| == n
  {
    if n > 0 {
      OffMonotone(n - 1, n, B);
      BlocksCount(prompt, hashes, B, n - 1);
    }
  }

  // ---- a prompt's whole way

  function Total(lens: seq<nat>): nat {
    if lens == [] then 0 else Total(lens[..|lens| - 1]) + lens[|lens| - 1]
  }

  lemma {:induction false} TotalPrefix(lens: seq<nat>, i: nat)
    requires i < |lens| && forall k | 0 <= k < |lens| :: 0 < lens[k]
    ensures Total(lens[..i + 1]) == Total(lens[..i]) + lens[i] <= Total(lens)
    ensures Total(lens[..i + 1]) == Total(lens) <==> i + 1 == |lens|
    decreases |lens|
  {
    var n := |lens| - 1;
    assert lens[..i + 1][..i] == lens[..i];
    assert lens[..|lens|] == lens;
    if i < n {
      TotalPrefix(lens[..n], i);
      assert lens[..n][..i] == lens[..i] && lens[..n][..i + 1] == lens[..i + 1];
    }
  }

  /** Origins of files that are no blocks clash with nothing. */
  lemma FillClashFree<Row(!new)>(c: Codec<Row>, origins: seq<Origin>, ids: seq<nat>, n: nat)
    requires c.Ok() && ClashFree(c, origins, ids)
    ensures ClashFree(c, origins + Fill(n), ids)
  {
    hide HashAt, MessageAt;
    OneBlock(c.B);
    var all := origins + Fill(n);
    forall i, j: nat | 0 <= i < |all|
      ensures !Clash(c.sha, c.model, c.B, ids, j, all[i].ids, all[i].j)
    {
      if i < |origins| {
        assert all[i] == origins[i];
      }
    }
  }

  /** The prefill side: the chunks of the prompt, in order, go through the connector; the sender works the queue off. */
  method Push<Row(!new, 0)>(c: Codec<Row>, ids: seq<nat>, lens: seq<nat>, cap: Capture<Row>)
    requires c.Ok() && cap.Valid() && !cap.closing && cap.gaps == [] && cap.have == 0 && cap.prompt == Rows(c.kv, ids)
             && cap.B == c.B
    requires ids != [] && Total(lens) == |ids| == cap.promptLen && forall k | 0 <= k < |lens| :: 0 < lens[k]
    modifies cap, cap.link
    ensures cap.Valid() && cap.finished && cap.have == cap.promptLen && cap.link.from == old(cap.link.from)
  {
    hide cap.Valid, Rows;
    var rows := Rows(c.kv, ids);
    var i, pos := 0, 0;
    assert lens[..0] == [];
    while i < |lens|
      invariant 0 <= i <= |lens| && pos == Total(lens[..i]) && cap.have == pos && cap.Valid()
      invariant cap.closing <==> i == |lens|
      invariant cap.link.from == old(cap.link.from)
    {
      TotalPrefix(lens, i);
      cap.Ingest(pos, rows[pos..pos + lens[i]], pos + lens[i] == |ids|);
      pos := pos + lens[i];
      i := i + 1;
    }
    assert lens[..|lens|] == lens;
    cap.RunSender();
  }

  lemma ChainLength<Row(!new)>(c: Codec<Row>, ids: seq<nat>)
    requires 0 < c.B && Off(Count(|ids|, c.B), c.B) <= |ids|
    ensures |Chain(c.sha, c.model, ids, c.B, Count(|ids|, c.B))| == Count(|ids|, c.B)
  {
  }

  /** The rest of the prompt the tail file of a complete capture holds. */
  lemma TailIsPart<Row(!new)>(c: Codec<Row>, ids: seq<nat>, cap: Capture<Row>)
    requires c.Ok() && cap.Valid() && cap.B == c.B && cap.gaps == [] && cap.have == cap.promptLen
             && cap.prompt == Rows(c.kv, ids)
    ensures cap.TailRows().Some? ==>
              var blocks := Off(Count(|ids|, c.B), c.B);
              blocks + 1 < |ids| && cap.TailRows().value.0 <= Rows(c.kv, ids)[blocks..|ids| - 1]
  {
    hide Off, Count, Rem, Rows, cap.Valid, cap.TailRows;
    TailIsWholeIff(cap);
    BlocksAre(cap);
  }

  /** The decoder's side of a complete capture. */
  method RestoreCaptured<Row(!new, 0)>(c: Codec<Row>, ids: seq<nat>, cap: Capture<Row>, ghost origins: seq<Origin>,
                                       reserve: int, ahead: nat)
    returns (tail: Option<seq<Row>>, cache: KVCache?<Row>)
    requires c.Ok() && cap.Valid() && cap.finished && cap.delivered && cap.B == c.B && cap.gaps == []
             && cap.have == cap.promptLen
    requires cap.prompt == Rows(c.kv, ids) && Off(|cap.hashes|, c.B) <= |ids| && 0 < |cap.hashes| == Count(|ids|, c.B)
    requires cap.hashes == Chain(c.sha, c.model, ids, c.B, |cap.hashes|)
    requires Honest(c, cap.link.from, origins) && ClashFree(c, origins + Own(ids, |cap.hashes|), ids)
    ensures cache != null && fresh(cache) && cache.Valid()
    ensures var blocks := Off(Count(|ids|, c.B), c.B);
            && blocks <= |ids|
            && cache.offset == (if tail.Some? && blocks + |tail.value| + 1 == |ids| then |ids| - 1 else blocks)
            && cache.Contents() == Rows(c.kv, ids)[..cache.offset]
  {
    hide Off, Count, Rem, HashAt, Rows, Honest, ClashFree, Chain, Find, cap.Valid, cap.TailRows, cap.EndFiles;
    ghost var n := |cap.EndFiles(cap.tailShipped)|;
    ghost var stored := origins + Own(ids, |cap.hashes|) + Fill(n);
    CaptureServes(c, ids, cap, origins);
    FillClashFree(c, origins + Own(ids, |cap.hashes|), ids, n);
    TailIsPart(c, ids, cap);
    tail := None;
    if cap.tailShipped && cap.TailRows().Some? {
      tail := Some(cap.TailRows().value.0);
    }
    var inPlace;
    cache, inPlace := RestorePrompt(c, ids, cap.link.rx.disk, stored, tail, reserve, ahead);
  }

  /** From a prompt to the decoder's cache: whatever the chunks, the network, the threads and the disk before, when
      the connector reports a complete capture the decoder restores exactly the prompt's rows: all but the last when
      the tail file holds the rest of them, the full blocks otherwise. */
  method PushAndRestore<Row(!new, 0)>(c: Codec<Row>, ids: seq<nat>, lens: seq<nat>, async: bool, link: Tx<Landed<Row>>,
                                      weather: Weather<Row>, pace: nat -> nat, size: Landed<Row> -> nat,
                                      ghost origins: seq<Origin>, reserve: int, ahead: nat)
    returns (complete: bool, tail: Option<seq<Row>>, cache: KVCache?<Row>)
    requires c.Ok() && 0 < Count(|ids|, c.B) && Total(lens) == |ids| && forall k | 0 <= k < |lens| :: 0 < lens[k]
    requires link.Valid() && !link.dead && Possible(weather, link.background)
    requires Honest(c, link.rx.disk + link.rx.inflight, origins)
             && ClashFree(c, origins + Own(ids, Count(|ids|, c.B)), ids)
    modifies link
    ensures cache != null <==> complete
    ensures complete ==>
              var blocks := Off(Count(|ids|, c.B), c.B);
              && cache.Valid() && blocks <= |ids|
              && cache.offset == (if tail.Some? && blocks + |tail.value| + 1 == |ids| then |ids| - 1 else blocks)
              && cache.Contents() == Rows(c.kv, ids)[..cache.offset]
  {
    hide Off, Count, Rem, HashAt, Rows, Honest, ClashFree, Chain, Possible, Find, link.Valid;
    OneBlock(c.B);
    var hashes := ChainHashes(c.sha, c.model, ids, c.B);
    ChainLength(c, ids);
    var cap := new Capture<Row>(c.B, Rows(c.kv, ids), |ids|, hashes, async, link, weather, pace, size);
    hide cap.Valid;
    Push(c, ids, lens, cap);
    complete := cap.delivered && cap.gaps == [];
    tail, cache := None, null;
    if complete {
      tail, cache := RestoreCaptured(c, ids, cap, origins, reserve, ahead);
    }
  }
}
