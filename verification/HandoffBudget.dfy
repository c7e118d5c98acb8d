/** glm53-flash-split/tf_split.py: which part of a prompt is handed off (plan), and the budget that keeps the handoffs
    in flight within the pair's capacity (_budget_take, _budget_give, the budget paths of network_phase). */
module HandoffBudget {
  import opened Seqs

  // ---- plan

  /** The part of the configuration plan reads; cap 0 means none. */
  datatype Limits = Limits(minDelta: int, minTokens: int, cap: int)

  /** plan, for a job that may be split: n prompt ids, history length, start of the last message (0: unknown), tokens
      the store already has (asked twice). 0 is no split. */
  function Plan(n: nat, history: int, lastMessage: int, have: int, haveLater: int, cfg: Limits): int {
    var stable := Min(if history > 0 then history else n - 1, n - 1);
    var stable' := if lastMessage != 0 && lastMessage - lastMessage % 4 - have >= cfg.minDelta then lastMessage
      else stable;
    var boundary := stable' - stable' % 4;
    if boundary < cfg.minTokens then 0
    else
      var capped := if cfg.cap != 0 && boundary > cfg.cap then cfg.cap - cfg.cap % 4 else boundary;
      if capped - haveLater < cfg.minDelta then 0 else capped
  }

  /** What is handed off: whole groups of four, within the cap, worth the trip, and never the whole prompt (the last
      message starts strictly inside the history). */
  lemma PlanIsSound(n: nat, history: int, lastMessage: int, have: int, haveLater: int, cfg: Limits)
    requires lastMessage <= Min(if history > 0 then history else n - 1, n - 1)
    ensures var b := Plan(n, history, lastMessage, have, haveLater, cfg);
            b != 0 ==> b % 4 == 0 && (cfg.cap != 0 ==> b <= cfg.cap) && b - haveLater >= cfg.minDelta && b < n
    ensures var b := Plan(n, history, lastMessage, have, haveLater, cfg);
            b != 0 && 0 < cfg.minDelta && 0 <= haveLater ==> 0 < b
  {
  }

  // ---- the budget

  datatype Handoff = Handoff(id: nat, tokens: nat)

  function Sum(hs: seq<Handoff>): nat {
    if hs == [] then 0 else hs[0].tokens + Sum(hs[1..])
  }

  function Without(hs: seq<Handoff>, id: nat): seq<Handoff> {
    if hs == [] then [] else (if hs[0].id == id then [] else [hs[0]]) + Without(hs[1..], id)
  }

  predicate Holds(hs: seq<Handoff>, id: nat) {
    exists i :: 0 <= i < |hs| && hs[i].id == id
  }

  predicate Distinct(hs: seq<Handoff>) {
    forall i, j | 0 <= i < j < |hs| :: hs[i].id != hs[j].id
  }

  lemma {:induction false} SumAppend(hs: seq<Handoff>, h: Handoff)
    ensures Sum(hs + [h]) == Sum(hs) + h.tokens
  {
    if hs != [] {
      SumAppend(hs[1..], h);
      assert (hs + [h])[1..] == hs[1..] + [h];
    }
  }

  lemma {:induction false} WithoutNone(hs: seq<Handoff>, id: nat)
    requires !Holds(hs, id)
    ensures Without(hs, id) == hs
  {
    if hs != [] {
      assert forall i | 0 <= i < |hs[1..]| :: hs[1..][i] == hs[i + 1];
      WithoutNone(hs[1..], id);
      assert hs == [hs[0]] + hs[1..];
    }
  }

  lemma {:induction false} WithoutMembers(hs: seq<Handoff>, id: nat)
    ensures forall h :: h in Without(hs, id) <==> h in hs && h.id != id
  {
    if hs != [] {
      WithoutMembers(hs[1..], id);
      assert hs == [hs[0]] + hs[1..];
    }
  }

  lemma {:induction false} WithoutDistinct(hs: seq<Handoff>, id: nat)
    requires Distinct(hs)
    ensures Distinct(Without(hs, id))
  {
    if hs != [] {
      WithoutDistinct(hs[1..], id);
      var rest := Without(hs[1..], id);
      WithoutMembers(hs[1..], id);
      forall j | 0 <= j < |rest|
        ensures rest[j].id != hs[0].id
      {
        assert rest[j] in hs[1..];
      }
    }
  }

  /** One of the parts, and only one, goes. */
  lemma {:induction false} WithoutOne(hs: seq<Handoff>, h: Handoff)
    requires Distinct(hs) && h in hs
    ensures Sum(hs) == Sum(Without(hs, h.id)) + h.tokens && |Without(hs, h.id)| == |hs| - 1
  {
    var i :| 0 <= i < |hs| && hs[i] == h;
    if hs[0].id == h.id {
      assert hs[0] == h;
      assert !Holds(hs[1..], h.id);
      WithoutNone(hs[1..], h.id);
      assert Without(hs, h.id) == hs[1..];
    } else {
      WithoutOne(hs[1..], h);
      assert Without(hs, h.id)[1..] == Without(hs[1..], h.id);
    }
  }

  lemma WithoutIs(hs: seq<Handoff>, h: Handoff)
    requires Distinct(hs) && h in hs
    ensures Distinct(Without(hs, h.id)) && |Without(hs, h.id)| == |hs| - 1
            && Sum(hs) == Sum(Without(hs, h.id)) + h.tokens
    ensures forall x :: x in Without(hs, h.id) <==> x in hs && x.id != h.id
  {
    WithoutOne(hs, h);
    WithoutDistinct(hs, h.id);
    WithoutMembers(hs, h.id);
  }

  lemma {:induction false} WithoutAppend(hs: seq<Handoff>, h: Handoff)
    ensures Without(hs + [h], h.id) == Without(hs, h.id)
  {
    if hs != [] {
      WithoutAppend(hs[1..], h);
      assert (hs + [h])[1..] == hs[1..] + [h];
    }
  }

  lemma GivenBack(hs: seq<Handoff>, h: Handoff)
    requires Distinct(hs + [h]) && !Holds(hs, h.id)
    ensures h in hs + [h] && Without(hs + [h], h.id) == hs
  {
    WithoutNone(hs, h.id);
    WithoutAppend(hs, h);
  }

  /** Another thread took a part or gave its part back. */
  datatype Event = Take(id: nat, tokens: nat) | GiveBack(id: nat, tokens: nat)

  /** The condition _budget_take waits for. */
  predicate Fits(cap: int, hs: seq<Handoff>, tokens: nat) {
    Sum(hs) + tokens <= cap || hs == []
  }

  /** A take waits for its condition; only a thread that holds a part gives one back. */
  predicate Possible(cap: int, hs: seq<Handoff>, e: Event) {
    match e
    case Take(id, tokens) => 0 < tokens && !Holds(hs, id) && Fits(cap, hs, tokens)
    case GiveBack(id, tokens) => Handoff(id, tokens) in hs
  }

  function Next(hs: seq<Handoff>, e: Event): seq<Handoff> {
    match e
    case Take(id, tokens) => hs + [Handoff(id, tokens)]
    case GiveBack(id, _) => Without(hs, id)
  }

  /** The parts in flight after the events, or None when one of them could not have happened. */
  function After(cap: int, hs: seq<Handoff>, events: seq<Event>): Option<seq<Handoff>> {
    if events == [] then Some(hs)
    else
      var before := After(cap, hs, events[..|events| - 1]);
      var e := events[|events| - 1];
      if before.Some? && Possible(cap, before.value, e) then Some(Next(before.value, e)) else None
  }

  lemma {:induction false} Positive(hs: seq<Handoff>)
    requires forall h | h in hs :: 0 < h.tokens
    ensures hs != [] ==> 0 < Sum(hs)
  {
    if hs != [] {
      assert hs[0] in hs;
    }
  }

  /** BUDGET, with the handoffs in flight as ghost state. cap is the same for all. */
  class Budget {
    const cap: int
    var used: int
    ghost var held: seq<Handoff>

    /** The counter is the sum in flight, and that sum is within the cap unless a single handoff is larger than it. */
    ghost predicate Valid()
      reads this
    {
      && used == Sum(held) && Distinct(held) && (forall h | h in held :: 0 < h.tokens)
      && (used <= cap || |held| == 1 || held == [])
    }

    constructor (cap: int)
      ensures Valid() && this.cap == cap && held == []
    {
      this.cap, used, held := cap, 0, [];
    }

    /** One round of _budget_take under the condition's lock: false is another wait, which happens only while someone
        else holds a part. */
    method TryTake(id: nat, tokens: nat) returns (taken: bool)
      requires Valid() && 0 < tokens && !Holds(held, id)
      modifies this
      ensures Valid()
      ensures taken <==> Fits(cap, old(held), tokens)
      ensures held == if taken then old(held) + [Handoff(id, tokens)] else old(held)
    {
      Positive(held);
      if used + tokens > cap && used > 0 {
        return false;
      }
      SumAppend(held, Handoff(id, tokens));
      used := used + tokens;
      held := held + [Handoff(id, tokens)];
      return true;
    }

    /** _budget_give; its clamp at 0 never bites. */
    method Give(id: nat, tokens: nat)
      requires Valid() && Handoff(id, tokens) in held
      modifies this
      ensures Valid() && held == Without(old(held), id) && used == old(used) - tokens
    {
      WithoutIs(held, Handoff(id, tokens));
      used := Max(0, used - tokens);
      held := Without(held, id);
    }

    /** What another thread does to the budget. */
    method Other(e: Event)
      requires Valid() && Possible(cap, held, e)
      modifies this
      ensures Valid() && held == Next(old(held), e)
    {
      match e
      case Take(id, tokens) =>
        var taken := TryTake(id, tokens);
      case GiveBack(id, tokens) =>
        Give(id, tokens);
    }

    /** The first n events can happen from hs, and none of them is about id. */
    ghost predicate Waited(hs: seq<Handoff>, others: seq<Event>, n: nat, id: nat)
      requires n <= |others|
    {
      After(cap, hs, others[..n]).Some? && !Holds(After(cap, hs, others[..n]).value, id)
    }

    /** _budget_take: rounds until the part fits, or until the time is up, which is when `others` has run out. What
        the other threads do between two rounds is one event of `others`. */
    method BudgetTake(id: nat, tokens: nat, others: seq<Event>) returns (taken: bool, waits: nat)
      requires Valid() && 0 < tokens && !Holds(held, id)
      requires forall n | 0 <= n <= |others| :: Waited(held, others, n, id)
      modifies this
      ensures Valid() && waits <= |others| && After(cap, old(held), others[..waits]).Some?
      ensures var hs := After(cap, old(held), others[..waits]).value;
              && !Holds(hs, id)
              && (taken <==> Fits(cap, hs, tokens))
              && held == hs + if taken then [Handoff(id, tokens)] else []
      ensures !taken ==> waits == |others|
    {
      waits := 0;
      while true
        invariant Valid() && waits <= |others| && After(cap, old(held), others[..waits]) == Some(held)
        decreases |others| - waits
      {
        assert Waited(old(held), others, waits, id);
        taken := TryTake(id, tokens);
        if taken || waits == |others| {
          return;
        }
        assert Waited(old(held), others, waits + 1, id);
        assert others[..waits + 1][..waits] == others[..waits];
        Other(others[waits]);
        waits := waits + 1;
      }
    }
  }

  // ---- network_phase

  /** A value of the configuration file. Other stands for a list or an object, NonFinite for NaN and the infinities. */
  datatype Json = Null | Bool(b: bool) | Number(n: int) | Decimal(r: real) | NonFinite | Text(s: string) | Other

  predicate Space(c: char) {
    c in " \t\n\r"
  }

  function Strip(s: string): string {
    if s != [] && Space(s[0]) then Strip(s[1..])
    else if s != [] && Space(s[|s| - 1]) then Strip(s[..|s| - 1])
    else s
  }

  /** Decimal digits, with single underscores between them. */
  function Digits(s: string): Option<nat> {
    if s == [] || !('0' <= s[|s| - 1] <= '9') then None
    else
      var d := (s[|s| - 1] - '0') as nat;
      if |s| == 1 then Some(d)
      else
        var before := Digits(if s[|s| - 2] == '_' then s[..|s| - 2] else s[..|s| - 1]);
        if before.None? then None else Some(10 * before.value + d)
  }

  /** Python's int(), None when it raises. */
  function PyInt(v: Json): Option<int> {
    match v
    case Bool(b) => Some(if b then 1 else 0)
    case Number(n) => Some(n)
    case Decimal(r) => Some(if r < 0.0 then -((-r).Floor) else r.Floor)
    case Text(t) =>
      var s := Strip(t);
      var sign := if s != [] && s[0] in "+-" then 1 else 0;
      var n: Option<int> := Digits(s[sign..]);
      if n.None? then None else Some(if sign == 1 && s[0] == '-' then -n.value else n.value)
    case _ => None
  }

  /** big_handoff_tokens and peer_capture_marker; None: not in the configuration. */
  datatype Settings = Settings(threshold: Option<Json>, marker: Option<Json>)

  /** os.stat refuses a path with a NUL by an error that is not an OSError. */
  predicate Usable(marker: Option<Json>) {
    marker.Some? && marker.value.Text? ==> '\0' !in marker.value.s
  }

  /** The guard a caller could check before the call: the threshold is a number, and a part that counts as big finds a
      usable marker path. */
  predicate SettingsOk(c: Settings, tokens: nat) {
    var threshold := PyInt(c.threshold.GetOr(Number(40000)));
    threshold.Some? && (threshold.value <= tokens ==> Usable(c.marker))
  }

  /** How the guarded part ends: an Exception (with the door locked by then, or not), or something that is not one. */
  datatype Body = Fine | Raises(locked: bool) | Killed

  /** What comes from outside: whether the thread gets from the take to the `try` without an asynchronous exception or
      a closed stderr, how the guarded part ends, and whether the handler's unlock gets through. */
  datatype Course = Course(quiet: bool, body: Body, unlock: bool)

  predicate Undisturbed(c: Course) {
    c.quiet && !c.body.Killed? && (c.body.Raises? && c.body.locked ==> c.unlock)
  }

  /** network_phase for a boundary of `tokens`. While nothing from outside disturbs it, what was taken is given back
      once exactly when the guard holds; otherwise the part is kept for good. */
  method NetworkPhase(budget: Budget, cfg: Settings, id: nat, tokens: nat, others: seq<Event>, c: Course)
    returns (pending: bool, waits: nat)
    requires budget.Valid() && 0 < tokens && !Holds(budget.held, id)
    requires forall n | 0 <= n <= |others| :: budget.Waited(budget.held, others, n, id)
    modifies budget
    ensures budget.Valid() && waits <= |others| && After(budget.cap, old(budget.held), others[..waits]).Some?
    ensures var hs := After(budget.cap, old(budget.held), others[..waits]).value;
            var took := Fits(budget.cap, hs, tokens);
            var kept := took && !(SettingsOk(cfg, tokens) && Undisturbed(c));
            && (!took ==> waits == |others|)
            && budget.held == hs + (if kept then [Handoff(id, tokens)] else [])
            && (pending <==> took && !kept && c.body.Fine?)
  {
    var taken;
    taken, waits := budget.BudgetTake(id, tokens, others);
    if !taken {
      return false, waits;
    }
    GivenBack(After(budget.cap, old(budget.held), others[..waits]).value, Handoff(id, tokens));
    var threshold := PyInt(cfg.threshold.GetOr(Number(40000)));
    if threshold.None? {
      return false, waits;
    }
    var big := tokens >= threshold.value;
    if big && !Usable(cfg.marker) {
      return false, waits;
    }
    if !c.quiet || c.body.Killed? {
      return false, waits;
    }
    if c.body.Raises? {
      if c.body.locked && !c.unlock {
        return false, waits;
      }
      budget.Give(id, tokens);
      return false, waits;
    }
    budget.Give(id, tokens);
    return true, waits;
  }

  /** "big_handoff_tokens": null or "40k", for example: every part that is taken is kept. */
  lemma BadThreshold(marker: Option<Json>, tokens: nat)
    ensures !SettingsOk(Settings(Some(Null), marker), tokens)
            && !SettingsOk(Settings(Some(Text("40k")), marker), tokens)
    ensures SettingsOk(Settings(None, None), tokens)
  {
    assert Digits("40k") == None;
    assert "40k"[0..] == "40k";
  }

  predicate GivesBack(events: seq<Event>, id: nat) {
    exists i :: 0 <= i < |events| && events[i].GiveBack? && events[i].id == id
  }

  lemma {:induction false} SumHas(hs: seq<Handoff>, h: Handoff)
    requires h in hs
    ensures h.tokens <= Sum(hs)
  {
    if hs[0] != h {
      SumHas(hs[1..], h);
    }
  }

  /** A part nobody gives back stays, whatever the other threads do, and a part larger than the cap without it never
      fits. */
  lemma {:induction false} KeptForGood(cap: int, hs: seq<Handoff>, events: seq<Event>, h: Handoff)
    requires h in hs && After(cap, hs, events).Some? && !GivesBack(events, h.id)
    ensures h in After(cap, hs, events).value
    ensures forall tokens: nat | cap - h.tokens < tokens :: !Fits(cap, After(cap, hs, events).value, tokens)
    decreases |events|
  {
    if events != [] {
      var n := |events| - 1;
      var e := events[n];
      assert forall i | 0 <= i < n :: events[..n][i] == events[i];
      KeptForGood(cap, hs, events[..n], h);
      if e.GiveBack? {
        WithoutMembers(After(cap, hs, events[..n]).value, e.id);
      }
    }
    SumHas(After(cap, hs, events).value, h);
  }

  /** After a part has been kept, every later part that the cap without it cannot hold waits its whole time and is
      skipped. */
  method StarvedTake(budget: Budget, kept: Handoff, id: nat, tokens: nat, others: seq<Event>)
    returns (taken: bool, waits: nat)
    requires budget.Valid() && kept in budget.held && budget.cap - kept.tokens < tokens && 0 < tokens
             && !Holds(budget.held, id)
    requires !GivesBack(others, kept.id)
    requires forall n | 0 <= n <= |others| :: budget.Waited(budget.held, others, n, id)
    modifies budget
    ensures budget.Valid() && !taken && waits == |others| && kept in budget.held
  {
    taken, waits := budget.BudgetTake(id, tokens, others);
    assert !GivesBack(others[..waits], kept.id) by {
      assert forall i | 0 <= i < waits :: others[..waits][i] == others[i];
    }
    KeptForGood(budget.cap, old(budget.held), others[..waits], kept);
  }

  /** One hand-off under a null threshold, whatever else happens to it, starves every later one that is larger than
      the rest of the cap, whatever the other threads do in the meantime. */
  method NullThresholdStarves(cap: int, first: nat, second: nat, later: seq<Event>, c: Course)
    returns (pending: bool, taken: bool)
    requires 0 < first && 0 < second && cap - first < second && !GivesBack(later, 0)
    requires forall n | 0 <= n <= |later| ::
               var hs := After(cap, [Handoff(0, first)], later[..n]); hs.Some? && !Holds(hs.value, 1)
    ensures !pending && !taken
  {
    var budget := new Budget(cap);
    BadThreshold(None, first);
    assert budget.Waited([], [], 0, 0);
    var waits;
    pending, waits := NetworkPhase(budget, Settings(Some(Null), None), 0, first, [], c);
    assert budget.held == [Handoff(0, first)];
    forall n | 0 <= n <= |later|
      ensures budget.Waited(budget.held, later, n, 1)
    {
      var hs := After(cap, [Handoff(0, first)], later[..n]);
    }
    assert later[..0] == [];
    taken, waits := StarvedTake(budget, Handoff(0, first), 1, second, later);
  }

  // ---- any number of threads

  /** The counter as the code updates it: added on a take, subtracted and clamped at 0 on a give. */
  function Counter(events: seq<Event>): int {
    if events == [] then 0
    else
      var before := Counter(events[..|events| - 1]);
      match events[|events| - 1]
      case Take(_, tokens) => before + tokens
      case GiveBack(_, tokens) => Max(0, before - tokens)
  }

  /** In every interleaving the counter is the sum in flight, and the sum is within the cap unless exactly one handoff
      is in flight. */
  lemma {:induction false} CounterIsSum(cap: int, events: seq<Event>)
    requires After(cap, [], events).Some?
    ensures var hs := After(cap, [], events).value;
            && Counter(events) == Sum(hs) && Distinct(hs) && (forall h | h in hs :: 0 < h.tokens)
            && (hs != [] ==> Sum(hs) <= cap || |hs| == 1)
    decreases |events|
  {
    if events != [] {
      var n := |events| - 1;
      var before := After(cap, [], events[..n]).value;
      CounterIsSum(cap, events[..n]);
      match events[n]
      case Take(id, tokens) => SumAppend(before, Handoff(id, tokens));
      case GiveBack(id, tokens) => WithoutIs(before, Handoff(id, tokens));
    }
  }
}
