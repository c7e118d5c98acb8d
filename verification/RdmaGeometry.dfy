/** fabric/rdma_file.c: how a file is cut into windows, slots, memory regions and RDMA WRITEs. */
module RdmaGeometry {
  import opened Seqs

  const CHUNK: nat := 0x10_0000
  const REGION: nat := 0x40_0000
  const WINDOW: nat := 0x380_0000
  const SLOTS: nat := 2
  const DEPTH: nat := 14
  const FLAG: nat := 64

  /** slot_bytes, computed by both sides from the file size. */
  function SlotBytes(nbytes: nat): nat {
    (Min(nbytes + FLAG, WINDOW) + REGION - 1) / REGION * REGION
  }

  /** Payload bytes of a slot; the flag word follows them. */
  function Cap(nbytes: nat): (cap: nat)
    ensures 0 < cap && (nbytes <= cap || cap == WINDOW - FLAG)
  {
    SlotBytes(nbytes) - FLAG
  }

  function MrPerSlot(nbytes: nat): nat {
    SlotBytes(nbytes) / REGION
  }

  /** A slot is a whole number of regions. */
  lemma SlotIsRegions(nbytes: nat)
    ensures MrPerSlot(nbytes) * REGION == SlotBytes(nbytes) && 1 <= MrPerSlot(nbytes) <= 14
  {
  }

  /** lim: the payload rounded up to whole chunks, but never into the flag word. */
  function Lim(wl: nat, cap: nat): nat {
    Min((wl + CHUNK - 1) / CHUNK * CHUNK, cap)
  }

  /** Length of the WRITE posted at off. */
  function NextLen(off: nat, lim: nat): (len: nat)
    requires off < lim
    ensures 0 < len <= lim - off && off % REGION + len <= REGION
  {
    Min(Min(CHUNK, REGION - off % REGION), lim - off)
  }

  /** One posted WRITE: from the sender's slot at off, to region mr at inreg. */
  datatype Post = Post(off: nat, len: nat, mr: nat, inreg: nat)

  /** Byte address of an offset in a region, counted from the receiver's buffer. */
  function Address(mr: nat, inreg: nat): nat {
    mr * REGION + inreg
  }

  /** The receiver's flags[k], counted the same way. */
  function FlagAt(nbytes: nat, k: nat): int {
    (k + 1) * SlotBytes(nbytes) - FLAG
  }

  /** What every WRITE of a window keeps to: one region of the window's own slot, at the place the receiver reads that
      offset from, and below the flag word. */
  ghost predicate InPlace(nbytes: nat, k: nat, p: Post) {
    && k * MrPerSlot(nbytes) <= p.mr < (k + 1) * MrPerSlot(nbytes)
    && p.inreg + p.len <= REGION
    && Address(p.mr, p.inreg) == k * SlotBytes(nbytes) + p.off
    && Address(p.mr, p.inreg) + p.len <= FlagAt(nbytes, k)
  }

  /** The WRITEs follow each other without gap or overlap. */
  ghost predicate Tiles(posts: seq<Post>, lim: nat) {
    if posts == [] then lim == 0
    else
      var last := posts[|posts| - 1];
      0 < last.len <= lim && last.off == lim - last.len && Tiles(posts[..|posts| - 1], last.off)
  }

  lemma PostInPlace(nbytes: nat, k: nat, off: nat, lim: nat)
    requires k < SLOTS && off < lim <= Cap(nbytes)
    ensures InPlace(nbytes, k, Post(off, NextLen(off, lim), k * MrPerSlot(nbytes) + off / REGION, off % REGION))
  {
    SlotIsRegions(nbytes);
    assert off / REGION * REGION + off % REGION == off;
    if k == 0 {
    } else {
      assert k == 1;
    }
  }

  lemma LimCovers(wl: nat, cap: nat)
    requires wl <= cap
    ensures wl <= Lim(wl, cap) <= cap
  {
  }

  /** The posting loop of one window, without its wait for completions. */
  method PostWindow(nbytes: nat, wl: nat, k: nat) returns (posts: seq<Post>)
    requires k < SLOTS && 0 < wl <= Cap(nbytes)
    ensures forall i | 0 <= i < |posts| :: InPlace(nbytes, k, posts[i])
    ensures wl <= Lim(wl, Cap(nbytes)) && Tiles(posts, Lim(wl, Cap(nbytes)))
  {
    hide InPlace, Lim, SlotBytes, MrPerSlot;
    LimCovers(wl, Cap(nbytes));
    posts := [];
    var off := 0;
    var lim := Lim(wl, Cap(nbytes));
    var baseMr := k * MrPerSlot(nbytes);
    while off < lim
      invariant 0 <= off <= lim && Tiles(posts, off)
      invariant forall i | 0 <= i < |posts| :: InPlace(nbytes, k, posts[i])
    {
      PostInPlace(nbytes, k, off, lim);
      var p := Post(off, NextLen(off, lim), baseMr + off / REGION, off % REGION);
      assert (posts + [p])[..|posts|] == posts;
      posts := posts + [p];
      off := off + p.len;
    }
  }

  /** Every payload byte is covered by one WRITE. */
  lemma {:induction false} Covered(posts: seq<Post>, lim: nat, x: nat)
    requires Tiles(posts, lim) && x < lim
    ensures exists i :: 0 <= i < |posts| && posts[i].off <= x < posts[i].off + posts[i].len
  {
    var n := |posts| - 1;
    if posts[n].off > x {
      Covered(posts[..n], posts[n].off, x);
      var i :| 0 <= i < n && posts[..n][i].off <= x < posts[..n][i].off + posts[..n][i].len;
      assert posts[i] == posts[..n][i];
    }
  }

  /** And by only one. */
  lemma {:induction false} CoveredOnce(posts: seq<Post>, lim: nat, i: nat, j: nat)
    requires Tiles(posts, lim) && i < j < |posts|
    ensures posts[i].off + posts[i].len <= posts[j].off && posts[j].off + posts[j].len <= lim
  {
    var n := |posts| - 1;
    if j < n {
      CoveredOnce(posts[..n], posts[n].off, i, j);
    } else if i < n - 1 {
      CoveredOnce(posts[..n], posts[n].off, i, n - 1);
    }
  }

  /** The sender's flag address, REGION - 64 into the slot's last region, is the word the receiver polls. */
  lemma SameFlag(nbytes: nat, k: nat)
    requires k < SLOTS
    ensures Address(k * MrPerSlot(nbytes) + MrPerSlot(nbytes) - 1, REGION - FLAG) == FlagAt(nbytes, k)
  {
    SlotIsRegions(nbytes);
    if k == 0 {
    } else {
      assert k == 1;
    }
  }
}
