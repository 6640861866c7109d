/**
 Consecutive losses on each side of each symbol, with a time stamp for the last one. The clock is a parameter.
 */
module LossTracker {
  import opened Trading

  /** The two counters of a symbol. */
  datatype Bucket = Bucket(calls: nat, puts: nat) {
    function Of(d: Direction): nat {
      if d.CALL? then calls else puts
    }

    function Set(d: Direction, n: nat): Bucket {
      if d.CALL? then Bucket(n, puts) else Bucket(calls, n)
    }
  }

  type Key = (Symbol, Direction)

  datatype Memory = Memory(losses: map<Symbol, Bucket>, stamps: map<Key, real>) {
    function Losses(x: Symbol, d: Direction): nat {
      if x in losses then losses[x].Of(d) else 0
    }

    /** At most one side of a symbol is losing, and a counter is positive exactly when it has a time stamp. */
    ghost predicate Valid() {
      && (forall x :: Losses(x, CALL) == 0 || Losses(x, PUT) == 0)
      && (forall x, d :: Losses(x, d) > 0 <==> (x, d) in stamps)
    }
  }

  // ---------- Steps ----------

  /** A side of None stands for a direction that is neither CALL nor PUT. */
  datatype Event = Outcome(symbol: Symbol, side: Option<Direction>, won: bool, at: real) | Prune(maxAge: real, at: real) | Reset

  function Record(m: Memory, x: Symbol, d: Direction, won: bool, now: real): Memory {
    var bucket := if x in m.losses then m.losses[x] else Bucket(0, 0);
    var rest := m.stamps - {(x, Opposite(d))};
    if won then Memory(m.losses[x := Bucket(0, 0)], rest - {(x, d)})
    else Memory(m.losses[x := bucket.Set(Opposite(d), 0).Set(d, bucket.Of(d) + 1)], rest[(x, d) := now])
  }

  predicate Expired(m: Memory, k: Key, maxAge: real, now: real) {
    k in m.stamps && m.Losses(k.0, k.1) > 0 && now - m.stamps[k] > maxAge
  }

  function Forget(m: Memory, maxAge: real, now: real): Memory {
    Memory(
      map x | x in m.losses :: Bucket(
        if Expired(m, (x, CALL), maxAge, now) then 0 else m.losses[x].calls,
        if Expired(m, (x, PUT), maxAge, now) then 0 else m.losses[x].puts),
      map k | k in m.stamps && !Expired(m, k, maxAge, now) :: m.stamps[k])
  }

  function Step(m: Memory, e: Event): Memory {
    match e
    case Outcome(x, side, won, at) => if side.None? then m else Record(m, x, side.value, won, at)
    case Prune(maxAge, at) => Forget(m, maxAge, at)
    case Reset => Memory(map[], map[])
  }

  function Run(events: seq<Event>): Memory {
    if events == [] then Memory(map[], map[]) else Step(Run(events[..|events| - 1]), events[|events| - 1])
  }

  lemma RecordEffect(m: Memory, x: Symbol, d: Direction, won: bool, now: real, y: Symbol, s: Direction)
    ensures var after := Record(m, x, d, won, now);
            && after.Losses(y, s) == (if y != x then m.Losses(y, s) else if s == d && !won then m.Losses(x, d) + 1 else 0)
            && ((y, s) in after.stamps <==> if y != x then (y, s) in m.stamps else s == d && !won)
            && ((y, s) in after.stamps ==> after.stamps[(y, s)] == if y != x then m.stamps[(y, s)] else now)
  {
  }

  lemma ForgetEffect(m: Memory, maxAge: real, now: real, y: Symbol, s: Direction)
    ensures var after := Forget(m, maxAge, now);
            && after.Losses(y, s) == (if Expired(m, (y, s), maxAge, now) then 0 else m.Losses(y, s))
            && ((y, s) in after.stamps <==> (y, s) in m.stamps && !Expired(m, (y, s), maxAge, now))
            && ((y, s) in after.stamps ==> after.stamps[(y, s)] == m.stamps[(y, s)])
  {
  }

  lemma StepKeepsValid(m: Memory, e: Event)
    requires m.Valid()
    ensures Step(m, e).Valid()
  {
    var after := Step(m, e);
    forall y, s
      ensures after.Losses(y, s) > 0 <==> (y, s) in after.stamps
      ensures after.Losses(y, s) > 0 ==> after.Losses(y, Opposite(s)) == 0
    {
      assert m.Losses(y, CALL) == 0 || m.Losses(y, PUT) == 0;
      EffectOnSide(m, e, y, s);
      EffectOnSide(m, e, y, Opposite(s));
    }
    forall x ensures after.Losses(x, CALL) == 0 || after.Losses(x, PUT) == 0 {
      assert after.Losses(x, CALL) > 0 ==> after.Losses(x, Opposite(CALL)) == 0;
    }
  }

  lemma EffectOnSide(m: Memory, e: Event, y: Symbol, s: Direction)
    ensures var after := Step(m, e);
            match e
            case Outcome(x, side, won, at) =>
              if side.None? || x != y then after.Losses(y, s) == m.Losses(y, s) && ((y, s) in after.stamps <==> (y, s) in m.stamps)
              else after.Losses(y, s) == (if s == side.value && !won then m.Losses(y, s) + 1 else 0)
                   && ((y, s) in after.stamps <==> s == side.value && !won)
            case Prune(maxAge, at) =>
              && after.Losses(y, s) == (if Expired(m, (y, s), maxAge, at) then 0 else m.Losses(y, s))
              && ((y, s) in after.stamps <==> (y, s) in m.stamps && !Expired(m, (y, s), maxAge, at))
            case Reset => after.Losses(y, s) == 0 && (y, s) !in after.stamps
  {
    match e
    case Outcome(x, side, won, at) => if side.Some? { RecordEffect(m, x, side.value, won, at, y, s); }
    case Prune(maxAge, at) => ForgetEffect(m, maxAge, at, y, s);
    case Reset =>
  }

  /** Whatever the run, at most one side is losing and counters and time stamps agree. */
  lemma {:induction false} RunIsValid(events: seq<Event>)
    ensures Run(events).Valid()
  {
    if events != [] {
      RunIsValid(events[..|events| - 1]);
      StepKeepsValid(Run(events[..|events| - 1]), events[|events| - 1]);
    }
  }

  /** After a prune exactly the stamps within the age limit are left, with their counters. */
  lemma PruneKeepsRecent(events: seq<Event>, maxAge: real, now: real, x: Symbol, d: Direction)
    ensures var before, after := Run(events), Run(events + [Prune(maxAge, now)]);
            && ((x, d) in after.stamps <==> (x, d) in before.stamps && now - before.stamps[(x, d)] <= maxAge)
            && ((x, d) in after.stamps ==> after.stamps[(x, d)] == before.stamps[(x, d)])
            && after.Losses(x, d) == if (x, d) in after.stamps then before.Losses(x, d) else 0
  {
    var e := Prune(maxAge, now);
    assert (events + [e])[..|events|] == events;
    RunIsValid(events);
    ForgetEffect(Run(events), maxAge, now, x, d);
  }

  // ---------- The history ----------

  /** What the outcomes of one symbol say about one side. */
  predicate Concerns(e: Event, x: Symbol) {
    e.Outcome? && e.symbol == x && e.side.Some?
  }

  predicate LossOn(e: Event, x: Symbol, d: Direction) {
    Concerns(e, x) && e.side.value == d && !e.won
  }

  /** When the side last lost, reading the events backwards. */
  function LastLoss(events: seq<Event>, x: Symbol, d: Direction): Option<real> {
    if events == [] then None
    else
      var e := events[|events| - 1];
      if LossOn(e, x, d) then Some(e.at) else LastLoss(events[..|events| - 1], x, d)
  }

  /** The prune wipes the run of losses that ends before it. */
  predicate Wipes(e: Event, before: seq<Event>, x: Symbol, d: Direction) {
    e.Prune? && LastLoss(before, x, d).Some? && e.at - LastLoss(before, x, d).value > e.maxAge
  }

  /** The length of the trailing run of losses, reading backwards to the first outcome, reset or wipe that ends it. */
  function TrailingRun(events: seq<Event>, x: Symbol, d: Direction): nat {
    if events == [] then 0
    else
      var before, e := events[..|events| - 1], events[|events| - 1];
      if LossOn(e, x, d) then TrailingRun(before, x, d) + 1
      else if Concerns(e, x) || e.Reset? || Wipes(e, before, x, d) then 0
      else TrailingRun(before, x, d)
  }

  /** With prunes and resets in any order, the counter is the trailing run of the history. */
  lemma {:induction false} CounterIsTrailingRun(events: seq<Event>, x: Symbol, d: Direction)
    ensures Run(events).Losses(x, d) == TrailingRun(events, x, d)
    ensures (x, d) in Run(events).stamps ==> LastLoss(events, x, d) == Some(Run(events).stamps[(x, d)])
  {
    if events != [] {
      var before, e := events[..|events| - 1], events[|events| - 1];
      CounterIsTrailingRun(before, x, d);
      RunIsValid(before);
      match e
      case Outcome(y, side, won, at) => if side.Some? { RecordEffect(Run(before), y, side.value, won, at, x, d); }
      case Prune(maxAge, at) => ForgetEffect(Run(before), maxAge, at, x, d);
      case Reset =>
    }
  }

  /** The outcomes of a symbol alone. */
  function Outcomes(events: seq<Event>, x: Symbol): seq<Event> {
    if events == [] then []
    else Outcomes(events[..|events| - 1], x) + if Concerns(events[|events| - 1], x) then [events[|events| - 1]] else []
  }

  predicate Plain(events: seq<Event>) {
    forall i :: 0 <= i < |events| ==> events[i].Outcome?
  }

  /** The last k entries are losses on the side, and no longer suffix is. */
  ghost predicate EndsWithRun(outcomes: seq<Event>, x: Symbol, d: Direction, k: nat) {
    && k <= |outcomes|
    && (forall i :: |outcomes| - k <= i < |outcomes| ==> LossOn(outcomes[i], x, d))
    && (k < |outcomes| ==> !LossOn(outcomes[|outcomes| - k - 1], x, d))
  }

  /** Without pruning, the counter is the length of the longest suffix of losses among the symbol's outcomes. */
  lemma {:induction false} CounterIsLongestSuffix(events: seq<Event>, x: Symbol, d: Direction)
    requires Plain(events)
    ensures EndsWithRun(Outcomes(events, x), x, d, Run(events).Losses(x, d))
  {
    CounterIsTrailingRun(events, x, d);
    if events != [] {
      var before, e := events[..|events| - 1], events[|events| - 1];
      CounterIsTrailingRun(before, x, d);
      CounterIsLongestSuffix(before, x, d);
      if Concerns(e, x) {
        assert Outcomes(events, x) == Outcomes(before, x) + [e];
      } else {
        assert Outcomes(events, x) == Outcomes(before, x);
      }
    }
  }

  const LOCK_AT: nat := 2

  predicate Locked(m: Memory, x: Symbol, d: Direction) {
    m.Losses(x, d) >= LOCK_AT
  }

  /** Without pruning, a side is locked exactly when the symbol's last two outcomes are losses on it. */
  lemma LockedAfterTwoLosses(events: seq<Event>, x: Symbol, d: Direction)
    requires Plain(events)
    ensures var o := Outcomes(events, x);
            Locked(Run(events), x, d) <==> |o| >= 2 && LossOn(o[|o| - 1], x, d) && LossOn(o[|o| - 2], x, d)
  {
    CounterIsLongestSuffix(events, x, d);
  }

  // ---------- The tracker ----------

  class DirectionLossTracker {
    var losses: map<Symbol, Bucket>
    var stamps: map<Key, real>
    ghost var events: seq<Event>

    function Contents(): Memory
      reads this
    {
      Memory(losses, stamps)
    }

    ghost predicate Valid()
      reads this
    {
      Contents() == Run(events)
    }

    constructor ()
      ensures Valid() && events == []
    {
      losses, stamps, events := map[], map[], [];
    }

    method Clear()
      modifies this
      ensures Valid() && events == old(events) + [Reset]
    {
      Extend(events, Reset);
      hide Run, Record, Forget;
      losses, stamps, events := map[], map[], events + [Reset];
    }

    /** The length of the run of losses that the history ends with on a side. */
    function ConsecutiveLosses(x: Symbol, side: Option<Direction>): (n: nat)
      requires Valid()
      reads this
      ensures side.Some? ==> n == TrailingRun(events, x, side.value)
    {
      if side.None? then 0
      else
        CounterIsTrailingRun(events, x, side.value);
        Contents().Losses(x, side.value)
    }

    predicate AntiTrendLockActive(x: Symbol, d: Direction): (locked: bool)
      requires Valid()
      reads this
      ensures locked <==> TrailingRun(events, x, d) >= 2
    {
      ConsecutiveLosses(x, Some(d)) >= LOCK_AT
    }

    method RecordOutcome(x: Symbol, side: Option<Direction>, won: bool, now: real)
      requires Valid()
      modifies this
      ensures Valid() && events == old(events) + [Outcome(x, side, won, now)]
    {
      Extend(events, Outcome(x, side, won, now));
      events := events + [Outcome(x, side, won, now)];
      if side.Some? {
        Update(x, side.value, won, now);
      }
    }

    method Update(x: Symbol, d: Direction, won: bool, now: real)
      modifies this`losses, this`stamps
      ensures Contents() == Record(old(Contents()), x, d, won, now)
    {
      hide Run;
      if x !in losses {
        losses := losses[x := Bucket(0, 0)];
      }
      losses := losses[x := losses[x].Set(Opposite(d), 0)];
      stamps := stamps - {(x, Opposite(d))};
      if won {
        losses := losses[x := losses[x].Set(d, 0)];
        stamps := stamps - {(x, d)};
        assert losses == Record(old(Contents()), x, d, won, now).losses;
        return;
      }
      losses := losses[x := losses[x].Set(d, losses[x].Of(d) + 1)];
      stamps := stamps[(x, d) := now];
      assert losses == Record(old(Contents()), x, d, won, now).losses;
    }

    method PruneObsolete(maxAge: real, now: real)
      requires Valid()
      modifies this
      ensures Valid() && events == old(events) + [Prune(maxAge, now)]
    {
      ghost var was := Contents();
      var todo := losses.Keys;
      while todo != {}
        invariant PrunedExcept(was, Contents(), todo, maxAge, now) && events == old(events)
        decreases |todo|
      {
        hide *;
        var x :| x in todo;
        PrunedStep(was, Contents(), todo, x, maxAge, now);
        todo := todo - {x};
        PruneSide(x, CALL, maxAge, now);
        PruneSide(x, PUT, maxAge, now);
      }
      PrunedAll(was, Contents(), maxAge, now);
      Extend(events, Prune(maxAge, now));
      events := events + [Prune(maxAge, now)];
    }

    method PruneSide(x: Symbol, d: Direction, maxAge: real, now: real)
      requires x in losses
      modifies this`losses, this`stamps
      ensures Contents() == ForgetSide(old(Contents()), x, d, maxAge, now)
    {
      if losses[x].Of(d) <= 0 || (x, d) !in stamps {
        return;
      }
      if now - stamps[(x, d)] > maxAge {
        losses := losses[x := losses[x].Set(d, 0)];
        stamps := stamps - {(x, d)};
      }
    }
  }

  function ForgetSide(m: Memory, x: Symbol, d: Direction, maxAge: real, now: real): (r: Memory)
    requires x in m.losses
    ensures x in r.losses
  {
    if Expired(m, (x, d), maxAge, now) then Memory(m.losses[x := m.losses[x].Set(d, 0)], m.stamps - {(x, d)}) else m
  }

  /** The symbols that are still to be visited are untouched, all others are pruned. */
  ghost predicate PrunedExcept(was: Memory, m: Memory, todo: set<Symbol>, maxAge: real, now: real) {
    && todo <= m.losses.Keys == was.losses.Keys
    && (forall x :: x in m.losses ==> m.losses[x] == if x in todo then was.losses[x] else Forget(was, maxAge, now).losses[x])
    && (forall k: Key :: k in m.stamps <==> k in was.stamps && (k.0 in todo || !Expired(was, k, maxAge, now)))
    && (forall k: Key :: k in m.stamps ==> m.stamps[k] == was.stamps[k])
  }

  lemma PrunedStep(was: Memory, m: Memory, todo: set<Symbol>, x: Symbol, maxAge: real, now: real)
    requires PrunedExcept(was, m, todo, maxAge, now) && x in todo
    ensures x in m.losses
    ensures var after := ForgetSide(ForgetSide(m, x, CALL, maxAge, now), x, PUT, maxAge, now);
            PrunedExcept(was, after, todo - {x}, maxAge, now)
  {
    var half := ForgetSide(m, x, CALL, maxAge, now);
    var after := ForgetSide(half, x, PUT, maxAge, now);
    assert Expired(m, (x, CALL), maxAge, now) <==> Expired(was, (x, CALL), maxAge, now);
    assert Expired(half, (x, PUT), maxAge, now) <==> Expired(was, (x, PUT), maxAge, now);
    forall k: Key
      ensures k in after.stamps <==> k in was.stamps && (k.0 in todo - {x} || !Expired(was, k, maxAge, now))
    {
      var s := k.1;
      assert k == (k.0, s) && (s == CALL || s == PUT);
    }
  }

  lemma PrunedAll(was: Memory, m: Memory, maxAge: real, now: real)
    requires PrunedExcept(was, m, {}, maxAge, now)
    ensures m == Forget(was, maxAge, now)
  {
    assert m.losses == Forget(was, maxAge, now).losses;
    assert m.stamps == Forget(was, maxAge, now).stamps;
  }

  lemma Extend(events: seq<Event>, e: Event)
    ensures Run(events + [e]) == Step(Run(events), e)
  {
    assert (events + [e])[..|events|] == events;
  }
}
