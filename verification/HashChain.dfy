/** spark/pd_omlx_block.py, chain_hashes: the name of a block commits to every token id up to its end. Names are
    digests here; the code writes them in hex. */
module HashChain {
  import opened Blocks
  import opened Seqs

  // ---- str(tuple(ids))

  function Digit(d: nat): char
    requires d < 10
  {
    ['0', '1', '2', '3', '4', '5', '6', '7', '8', '9'][d]
  }

  predicate AllDigits(s: string) {
    forall i | 0 <= i < |s| :: '0' <= s[i] <= '9'
  }

  function Decimal(n: nat): (s: string)
    ensures s != [] && AllDigits(s)
  {
    if n < 10 then [Digit(n)] else Decimal(n / 10) + [Digit(n % 10)]
  }

  /** The items after the first, and the closing bracket. */
  function Rest(ids: seq<nat>): string {
    if ids == [] then ")" else ", " + (Decimal(ids[0]) + Rest(ids[1..]))
  }

  function AfterFirst(ids: seq<nat>): string
    requires ids != []
  {
    if |ids| == 1 then ",)" else Rest(ids[1..])
  }

  /** Python's str() of a tuple of ints: () , (5,) , (5, 6). */
  function TupleStr(ids: seq<nat>): string {
    if ids == [] then "()" else "(" + (Decimal(ids[0]) + AfterFirst(ids))
  }

  lemma DecimalLength(n: nat)
    ensures |Decimal(n)| == 1 <==> n < 10
  {
  }

  lemma {:induction false} DecimalInjective(a: nat, b: nat)
    requires Decimal(a) == Decimal(b)
    ensures a == b
  {
    var s := Decimal(a);
    DecimalLength(a);
    DecimalLength(b);
    if a >= 10 {
      assert s[..|s| - 1] == Decimal(a / 10) == Decimal(b / 10);
      assert s[|s| - 1] == Digit(a % 10) == Digit(b % 10);
      DecimalInjective(a / 10, b / 10);
    }
  }

  /** A run of digits ends where the digits end. */
  lemma DigitsEnd(a: string, x: string, b: string, y: string)
    requires a + x == b + y && AllDigits(a) && AllDigits(b)
    requires x != [] && y != [] && !('0' <= x[0] <= '9') && !('0' <= y[0] <= '9')
    ensures a == b && x == y
  {
    var c, d := a + x, b + y;
    assert |a| <= |b| ==> c[|a|] == x[0];
    assert |b| <= |a| ==> d[|b|] == y[0];
    assert c[..|a|] == a && d[..|b|] == b && c[|a|..] == x && d[|b|..] == y;
  }

  lemma AfterComma(s: string)
    ensures (", " + s)[2..] == s && (", " + s)[0] == ','
  {
  }

  lemma RestShape(ids: seq<nat>)
    ensures |Rest(ids)| > 0 && Rest(ids)[0] == if ids == [] then ')' else ','
    ensures ids != [] ==> |Rest(ids)| > 2 && Rest(ids)[2..] == Decimal(ids[0]) + Rest(ids[1..])
  {
    hide Decimal, AllDigits;
    if ids != [] {
      AfterComma(Decimal(ids[0]) + Rest(ids[1..]));
    }
  }

  lemma {:induction false} RestInjective(a: seq<nat>, b: seq<nat>)
    requires Rest(a) == Rest(b)
    ensures a == b
  {
    hide Rest, Decimal;
    RestShape(a);
    RestShape(b);
    if a != [] {
      RestShape(a[1..]);
      RestShape(b[1..]);
      DigitsEnd(Decimal(a[0]), Rest(a[1..]), Decimal(b[0]), Rest(b[1..]));
      DecimalInjective(a[0], b[0]);
      RestInjective(a[1..], b[1..]);
      assert a == [a[0]] + a[1..] && b == [b[0]] + b[1..];
    }
  }

  lemma AfterBracket(s: string, t: string)
    requires s != []
    ensures ("(" + (s + t))[1..] == s + t && ("(" + (s + t))[1] == s[0]
  {
  }

  lemma FirstDigit(n: nat)
    ensures '0' <= Decimal(n)[0] <= '9'
  {
  }

  lemma AfterFirstShape(ids: seq<nat>)
    requires ids != []
    ensures |AfterFirst(ids)| > 1 && AfterFirst(ids)[0] == ',' && (AfterFirst(ids)[1] == ')' <==> |ids| == 1)
  {
    hide Decimal, AllDigits;
    if |ids| > 1 {
      var t := Decimal(ids[1]) + Rest(ids[2..]);
      assert ids[1..][1..] == ids[2..];
      AfterComma(t);
      assert (", " + t)[1] == ' ';
    }
  }

  /** The second character tells the empty tuple, the second after the first item the one-element tuple. */
  lemma TupleShape(ids: seq<nat>)
    ensures |TupleStr(ids)| > 1 && (TupleStr(ids)[1] == ')' <==> ids == [])
    ensures ids != [] ==> TupleStr(ids)[1..] == Decimal(ids[0]) + AfterFirst(ids)
    ensures ids != [] ==> |AfterFirst(ids)| > 1 && AfterFirst(ids)[0] == ','
    ensures ids != [] ==> (AfterFirst(ids)[1] == ')' <==> |ids| == 1)
  {
    hide Decimal, Rest, AllDigits;
    if ids != [] {
      AfterBracket(Decimal(ids[0]), AfterFirst(ids));
      AfterFirstShape(ids);
      FirstDigit(ids[0]);
    }
  }

  lemma AfterFirstInjective(a: seq<nat>, b: seq<nat>)
    requires a != [] && b != [] && a[0] == b[0] && AfterFirst(a) == AfterFirst(b) && (|a| == 1 <==> |b| == 1)
    ensures a == b
  {
    if |a| > 1 {
      RestInjective(a[1..], b[1..]);
      assert a == [a[0]] + a[1..] && b == [b[0]] + b[1..];
    }
  }

  lemma TupleStrInjective(a: seq<nat>, b: seq<nat>)
    requires TupleStr(a) == TupleStr(b)
    ensures a == b
  {
    hide TupleStr, Decimal, AfterFirst, Rest;
    TupleShape(a);
    TupleShape(b);
    if a != [] {
      DigitsEnd(Decimal(a[0]), AfterFirst(a), Decimal(b[0]), AfterFirst(b));
      DecimalInjective(a[0], b[0]);
      AfterFirstInjective(a, b);
    }
  }

  predicate NoBracket(s: string) {
    forall i | 0 <= i < |s| :: s[i] != '('
  }

  lemma {:induction false} RestNoBracket(ids: seq<nat>)
    ensures NoBracket(Rest(ids))
  {
    if ids != [] {
      RestNoBracket(ids[1..]);
    }
  }

  /** The only opening bracket is the first character. */
  predicate OpensOnce(s: string) {
    s != [] && s[0] == '(' && forall i | 1 <= i < |s| :: s[i] != '('
  }

  lemma TupleOpensOnce(ids: seq<nat>)
    ensures OpensOnce(TupleStr(ids))
  {
    if |ids| > 1 {
      RestNoBracket(ids[1..]);
    }
  }

  // ---- the chain

  /** b"omlx-root" */
  const ROOT: string := "omlx-root"

  /** What is hashed for a block: model name, parent digest or the root mark, the block's ids. */
  function Message(model: string, parent: string, ids: seq<nat>): string {
    model + (if parent == [] then ROOT else parent) + TupleStr(ids)
  }

  function BlockIds(ids: seq<nat>, block: nat, j: nat): seq<nat>
    requires Off(j + 1, block) <= |ids|
  {
    ids[Off(j, block)..Off(j + 1, block)]
  }

  /** The digest before block j's; block 0 has none. */
  function ParentAt(sha: string -> string, model: string, ids: seq<nat>, block: nat, j: nat): string
    requires Off(j + 1, block) <= |ids|
    decreases j, 0
  {
    if j == 0 then [] else sha(MessageAt(sha, model, ids, block, j - 1))
  }

  function MessageAt(sha: string -> string, model: string, ids: seq<nat>, block: nat, j: nat): string
    requires Off(j + 1, block) <= |ids|
    decreases j, 1
  {
    Message(model, ParentAt(sha, model, ids, block, j), BlockIds(ids, block, j))
  }

  /** The digest of block j; block 0 has no parent. */
  function HashAt(sha: string -> string, model: string, ids: seq<nat>, block: nat, j: nat): string
    requires Off(j + 1, block) <= |ids|
  {
    sha(MessageAt(sha, model, ids, block, j))
  }

  function Chain(sha: string -> string, model: string, ids: seq<nat>, block: nat, n: nat): (hs: seq<string>)
    requires Off(n, block) <= |ids|
    ensures |hs| == n
  {
    if n == 0 then [] else Chain(sha, model, ids, block, n - 1) + [HashAt(sha, model, ids, block, n - 1)]
  }

  lemma {:induction false} ChainAt(sha: string -> string, model: string, ids: seq<nat>, block: nat, n: nat, j: nat)
    requires Off(n, block) <= |ids| && j < n
    ensures Off(j + 1, block) <= |ids| && Chain(sha, model, ids, block, n)[j] == HashAt(sha, model, ids, block, j)
  {
    if j < n - 1 {
      ChainAt(sha, model, ids, block, n - 1, j);
    }
  }

  /** chain_hashes */
  method ChainHashes(sha: string -> string, model: string, ids: seq<nat>, block: nat) returns (out: seq<string>)
    requires 0 < block && forall m :: |sha(m)| == 32
    ensures Off(Count(|ids|, block), block) <= |ids|
    ensures out == Chain(sha, model, ids, block, Count(|ids|, block))
  {
    hide Off, Count, TupleStr, Message;
    out := [];
    var parent := "";
    var n := Count(|ids|, block);
    Fits(n, |ids|, block);
    OneBlock(block);
    for i := 0 to n
      invariant Off(i, block) <= |ids| && out == Chain(sha, model, ids, block, i)
      invariant if i == 0 then parent == "" else parent == HashAt(sha, model, ids, block, i - 1)
    {
      Fits(i + 1, |ids|, block);
      OffMonotone(i, i + 1, block);
      assert parent == ParentAt(sha, model, ids, block, i);
      parent := sha(Message(model, parent, ids[Off(i, block)..Off(i + 1, block)]));
      out := out + [parent];
    }
  }

  lemma LastBracket(x: string, s: string, y: string, t: string)
    requires x + s == y + t && OpensOnce(s) && OpensOnce(t)
    ensures x == y && s == t
  {
    var c, d := x + s, y + t;
    assert c[|x|] == '(' && d[|y|] == '(';
    assert c[..|x|] == x && d[..|y|] == y && c[|x|..] == s && d[|y|..] == t;
  }

  /** The bracket splits a message: same message, same parent and same ids. */
  lemma MessageInjective(model: string, p: string, a: seq<nat>, q: string, b: seq<nat>)
    requires Message(model, p, a) == Message(model, q, b)
    ensures (if p == [] then ROOT else p) == (if q == [] then ROOT else q) && a == b
  {
    hide TupleStr, OpensOnce;
    var x, y := model + (if p == [] then ROOT else p), model + (if q == [] then ROOT else q);
    TupleOpensOnce(a);
    TupleOpensOnce(b);
    LastBracket(x, TupleStr(a), y, TupleStr(b));
    TupleStrInjective(a, b);
    assert x[|model|..] == y[|model|..];
  }

  /** Walking two chains back from blocks i and j, some step hashes two different messages to one digest. */
  ghost predicate Clash(sha: string -> string, model: string, block: nat, a: seq<nat>, i: nat, b: seq<nat>, j: nat) {
    && Off(i + 1, block) <= |a| && Off(j + 1, block) <= |b|
    && (|| (MessageAt(sha, model, a, block, i) != MessageAt(sha, model, b, block, j)
            && HashAt(sha, model, a, block, i) == HashAt(sha, model, b, block, j))
        || (0 < i && 0 < j && Clash(sha, model, block, a, i - 1, b, j - 1)))
  }

  lemma MessageParts(sha: string -> string, model: string, ids: seq<nat>, block: nat, j: nat)
    requires Off(j + 1, block) <= |ids| && forall m :: |sha(m)| == 32
    ensures MessageAt(sha, model, ids, block, j)
            == Message(model, ParentAt(sha, model, ids, block, j), BlockIds(ids, block, j))
    ensures |ParentAt(sha, model, ids, block, j)| == if j == 0 then 0 else 32
    ensures j > 0 ==>
              Off(j, block) <= |ids| && ParentAt(sha, model, ids, block, j) == HashAt(sha, model, ids, block, j - 1)
  {
    hide Message, BlockIds;
    OffMonotone(j, j + 1, block);
  }

  lemma ParentsAgree(sha: string -> string, model: string, block: nat, a: seq<nat>, i: nat, b: seq<nat>, j: nat)
    requires 0 < block && forall m :: |sha(m)| == 32
    requires Off(i + 1, block) <= |a| && Off(j + 1, block) <= |b|
    requires MessageAt(sha, model, a, block, i) == MessageAt(sha, model, b, block, j)
    ensures BlockIds(a, block, i) == BlockIds(b, block, j) && (i == 0 <==> j == 0)
    ensures i > 0 ==>
              Off(i, block) <= |a| && Off(j, block) <= |b|
                && HashAt(sha, model, a, block, i - 1) == HashAt(sha, model, b, block, j - 1)
  {
    hide Off, Message, BlockIds, MessageAt, ParentAt, HashAt;
    var p, q := ParentAt(sha, model, a, block, i), ParentAt(sha, model, b, block, j);
    MessageParts(sha, model, a, block, i);
    MessageParts(sha, model, b, block, j);
    MessageInjective(model, p, BlockIds(a, block, i), q, BlockIds(b, block, j));
    assert |ROOT| == 9;
  }

  /** A name stands for one prefix: two blocks with the same name, of any two prompts at any two indices, are the same
      block index of prompts that agree on every id up to its end, unless the digests of these very chains clash. */
  lemma {:induction false} SameNameSamePrefix(sha: string -> string, model: string, block: nat, a: seq<nat>, i: nat,
                                              b: seq<nat>, j: nat)
    requires 0 < block && forall m :: |sha(m)| == 32
    requires Off(i + 1, block) <= |a| && Off(j + 1, block) <= |b|
    requires HashAt(sha, model, a, block, i) == HashAt(sha, model, b, block, j)
    ensures Clash(sha, model, block, a, i, b, j) || (i == j && a[..Off(i + 1, block)] == b[..Off(j + 1, block)])
    decreases i
  {
    hide Off, Message;
    OneBlock(block);
    if MessageAt(sha, model, a, block, i) == MessageAt(sha, model, b, block, j) {
      ParentsAgree(sha, model, block, a, i, b, j);
      if i > 0 {
        OffMonotone(i, i + 1, block);
        OffMonotone(j, j + 1, block);
        SameNameSamePrefix(sha, model, block, a, i - 1, b, j - 1);
        assert a[..Off(i + 1, block)] == a[..Off(i, block)] + BlockIds(a, block, i);
        assert b[..Off(j + 1, block)] == b[..Off(j, block)] + BlockIds(b, block, j);
      }
    }
  }

  /** n * block */
  function Times(n: nat, block: nat): (r: nat)
    ensures r == Off(n, block)
  {
    OffIsMul(n, block);
    n * block
  }

  /** cached_prefix_tokens: how many leading tokens are on disk as blocks, given which names exist there. */
  method CachedPrefixTokens(hashes: seq<string>, block: nat, onDisk: string -> bool) returns (tokens: nat)
    ensures exists n: nat :: n <= |hashes| && tokens == Off(n, block) && (forall j | 0 <= j < n :: onDisk(hashes[j]))
                             && (n < |hashes| ==> !onDisk(hashes[n]))
  {
    hide Off;
    var n := 0;
    for i := 0 to |hashes|
      invariant n == i && forall j | 0 <= j < n :: onDisk(hashes[j])
    {
      if onDisk(hashes[i]) {
        n := n + 1;
      } else {
        break;
      }
    }
    return Times(n, block);
  }
}
