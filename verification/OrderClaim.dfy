/**
 The reservation of one purchase per symbol, period and candle: a set of claimed keys in every
 process, and one key per candle in the shared store. Attempts of all processes interleave freely.
 */
module OrderClaim {
  import opened LeaseStore

  datatype OrderKey = OrderKey(symbol: string, period: int, epoch: int)

  datatype Phase = Asking | Holding | Releasing | Discarding | Over

  /** One purchase attempt; the token that names it in the store is its key in the system. */
  datatype Attempt = Attempt(p: nat, key: OrderKey, phase: Phase)

  datatype System = System(store: Store<OrderKey>, local: seq<set<OrderKey>>, attempts: map<nat, Attempt>)

  datatype Step =
    | Begin(p: nat, key: OrderKey, token: nat)
    | ServerSet(token: nat)
    | SetFailed(token: nat, executed: bool)
    | ReleaseBegin(token: nat)
    | ServerDelete(token: nat)
    | DeleteFailed(token: nat)
    | Discard(token: nat)
    | Crash(p: nat)
    | Tick(seconds: real)

  /** Keys of older candles are forgotten when a newer candle is claimed. */
  function NotOlder(claims: set<OrderKey>, epoch: int): set<OrderKey> {
    set k | k in claims && k.epoch >= epoch
  }

  predicate InPhase(w: System, token: nat, phase: Phase) {
    token in w.attempts && w.attempts[token].phase == phase
  }

  function SetPhase(w: System, token: nat, phase: Phase): System
    requires token in w.attempts
  {
    w.(attempts := w.attempts[token := w.attempts[token].(phase := phase)])
  }

  function Next(w: System, step: Step): System {
    match step
    case Begin(p, key, token) =>
      if p >= |w.local| || key.epoch <= 0 || token in w.attempts then w
      else
        var claims := NotOlder(w.local[p], key.epoch);
        if key in claims then w.(local := w.local[p := claims])
        else w.(local := w.local[p := claims + {key}], attempts := w.attempts[token := Attempt(p, key, Asking)])
    case ServerSet(token) =>
      if !InPhase(w, token, Asking) then w
      else
        var key := w.attempts[token].key;
        SetPhase(w, token, if IsSet(w.store, key) then Over else Holding).(store := SetIfAbsent(w.store, key, token))
    case SetFailed(token, executed) =>
      if !InPhase(w, token, Asking) then w
      else SetPhase(w, token, Over).(store := if executed then SetIfAbsent(w.store, w.attempts[token].key, token) else w.store)
    case ReleaseBegin(token) =>
      if !InPhase(w, token, Holding) then w else SetPhase(w, token, Releasing)
    case ServerDelete(token) =>
      if !InPhase(w, token, Releasing) then w
      else SetPhase(w, token, Discarding).(store := DeleteIfOwn(w.store, w.attempts[token].key, token))
    case DeleteFailed(token) =>
      if !InPhase(w, token, Releasing) then w else SetPhase(w, token, Over)
    case Discard(token) =>
      if !InPhase(w, token, Discarding) || w.attempts[token].p >= |w.local| then w
      else
        var a := w.attempts[token];
        SetPhase(w, token, Over).(local := w.local[a.p := w.local[a.p] - {a.key}])
    case Crash(p) =>
      if p >= |w.local| then w
      else
        w.(local := w.local[p := {}],
        attempts := map t | t in w.attempts :: if w.attempts[t].p == p then w.attempts[t].(phase := Over) else w.attempts[t])
    case Tick(seconds) => w.(store := Advance(w.store, seconds))
  }

  function Run(w: System, steps: seq<Step>): System
    decreases |steps|
  {
    if steps == [] then w else Run(Next(w, steps[0]), steps[1..])
  }

  function Start(n: nat): System {
    System(Store(map[], 0.0, map[]), seq(n, _ => {}), map[])
  }

  /** The attempts that were granted their key and have not begun to release it. */
  function Held(w: System): set<nat> {
    set t | t in w.attempts && w.attempts[t].phase == Holding
  }

  ghost predicate Inv(w: System) {
    LeaseStore.Inv(w.store, Held(w)) && GrantsInv(w)
  }

  /** Granted tokens belong to attempts on the same key, and an attempt that is still asking has no grant. */
  ghost predicate GrantsInv(w: System) {
    && (forall t :: t in w.store.grants ==> t in w.attempts && w.attempts[t].key == w.store.grants[t].key)
    && (forall t :: InPhase(w, t, Asking) ==> t !in w.store.grants)
  }

  lemma HeldAfter(w: System, token: nat, phase: Phase)
    requires token in w.attempts
    ensures Held(SetPhase(w, token, phase)) == if phase == Holding then Held(w) + {token} else Held(w) - {token}
  {
  }

  lemma ServerSetKeeps(w: System, token: nat, phase: Phase)
    requires Inv(w) && InPhase(w, token, Asking)
    requires phase == Over || (phase == Holding && !IsSet(w.store, w.attempts[token].key))
    ensures Inv(SetPhase(w, token, phase).(store := SetIfAbsent(w.store, w.attempts[token].key, token)))
  {
    var key := w.attempts[token].key;
    var store := SetIfAbsent(w.store, key, token);
    var w' := SetPhase(w, token, phase).(store := store);
    assert GrantsInv(w') by {
      hide LeaseStore.Inv, Held;
    }
    assert token !in w.store.grants;
    hide GrantsInv;
    SetKeeps(w.store, Held(w), key, token);
    HeldAfter(w, token, phase);
    assert Held(w') == Held(SetPhase(w, token, phase));
    hide SetIfAbsent, LeaseStore.Inv;
    FewerHeld(store, if phase == Holding then Held(w) + {token} else Held(w), Held(w'));
  }

  lemma ServerDeleteKeeps(w: System, token: nat)
    requires Inv(w) && InPhase(w, token, Releasing)
    ensures Inv(SetPhase(w, token, Discarding).(store := DeleteIfOwn(w.store, w.attempts[token].key, token)))
  {
    var key := w.attempts[token].key;
    assert token !in Held(w);
    DeleteKeeps(w.store, Held(w), key, token);
    HeldAfter(w, token, Discarding);
    var w' := SetPhase(w, token, Discarding).(store := DeleteIfOwn(w.store, key, token));
    assert Held(w') == Held(SetPhase(w, token, Discarding));
    FewerHeld(w'.store, Held(w), Held(w'));
    hide LeaseStore.Inv, Held;
  }

  /** A step that leaves the store alone and lets no attempt start holding or asking again. */
  lemma QuietKeeps(w: System, w': System)
    requires Inv(w) && w'.store == w.store
    requires forall t :: t in w.attempts ==> t in w'.attempts && w'.attempts[t].key == w.attempts[t].key
    requires forall t :: t in w'.attempts && w'.attempts[t].phase == Holding ==> InPhase(w, t, Holding)
    requires forall t :: t in w'.attempts && w'.attempts[t].phase == Asking ==> InPhase(w, t, Asking) || t !in w.attempts
    ensures Inv(w')
  {
    assert Held(w') <= Held(w);
    FewerHeld(w.store, Held(w), Held(w'));
  }

  lemma TickKeeps(w: System, seconds: real)
    requires Inv(w)
    ensures Inv(w.(store := Advance(w.store, seconds)))
  {
    AdvanceKeeps(w.store, Held(w), seconds);
    assert Held(w.(store := Advance(w.store, seconds))) == Held(w);
    hide LeaseStore.Inv, Held;
  }

  lemma NextKeeps(w: System, step: Step)
    requires Inv(w)
    ensures Inv(Next(w, step))
  {
    match step
    case ServerSet(token) =>
      if InPhase(w, token, Asking) {
        ServerSetKeeps(w, token, if IsSet(w.store, w.attempts[token].key) then Over else Holding);
      }
    case SetFailed(token, executed) =>
      if InPhase(w, token, Asking) {
        if executed {
          ServerSetKeeps(w, token, Over);
        } else {
          GivenUpKeeps(w, token);
        }
      }
    case ServerDelete(token) =>
      if InPhase(w, token, Releasing) {
        ServerDeleteKeeps(w, token);
      }
    case Tick(seconds) =>
      TickKeeps(w, seconds);
    case Begin(_, _, _) => LocalStepKeeps(w, step);
    case Crash(_) => LocalStepKeeps(w, step);
    case _ => PhaseStepKeeps(w, step);
  }

  lemma GivenUpKeeps(w: System, token: nat)
    requires Inv(w) && InPhase(w, token, Asking)
    ensures Inv(SetPhase(w, token, Over))
  {
    hide Inv, Held;
    QuietKeeps(w, SetPhase(w, token, Over));
  }

  lemma LocalStepKeeps(w: System, step: Step)
    requires Inv(w) && (step.Begin? || step.Crash?)
    ensures Inv(Next(w, step))
  {
    hide Inv, Held;
    QuietKeeps(w, Next(w, step));
  }

  lemma PhaseStepKeeps(w: System, step: Step)
    requires Inv(w) && (step.ReleaseBegin? || step.DeleteFailed? || step.Discard?)
    ensures Inv(Next(w, step))
  {
    hide Inv, Held;
    QuietKeeps(w, Next(w, step));
  }

  lemma StartInv(n: nat)
    ensures Inv(Start(n))
  {
  }

  lemma {:induction false} RunKeeps(w: System, steps: seq<Step>)
    requires Inv(w)
    ensures Inv(Run(w, steps))
    decreases |steps|
  {
    hide Inv, Next;
    if steps != [] {
      NextKeeps(w, steps[0]);
      RunKeeps(Next(w, steps[0]), steps[1..]);
    }
  }

  /** The attempt holds its key and its lease has not run out. */
  predicate HoldsLive(w: System, token: nat) {
    InPhase(w, token, Holding) && LeaseLive(w.store, token)
  }

  /**
   In every interleaving, among all processes and all attempts, at most one attempt holds a given
   order key inside its lease.
   */
  lemma AtMostOneHolder(n: nat, steps: seq<Step>, t: nat, u: nat)
    ensures var w := Run(Start(n), steps);
            HoldsLive(w, t) && HoldsLive(w, u) && w.attempts[t].key == w.attempts[u].key ==> t == u
  {
    StartInv(n);
    RunKeeps(Start(n), steps);
    OneHolder(Run(Start(n), steps), t, u);
    hide Run;
  }

  lemma OneHolder(w: System, t: nat, u: nat)
    requires Inv(w)
    ensures HoldsLive(w, t) && HoldsLive(w, u) && w.attempts[t].key == w.attempts[u].key ==> t == u
  {
    if HoldsLive(w, t) && HoldsLive(w, u) && w.attempts[t].key == w.attempts[u].key {
      assert t in Held(w) && u in Held(w);
      Exclusive(w.store, Held(w), t, u);
    }
  }

  /** A key that is set is removed or replaced only by the release of the attempt that set it. */
  lemma OnlyOwnerRemoves(w: System, step: Step, key: OrderKey)
    requires Inv(w) && IsSet(w.store, key)
    ensures var w' := Next(w, step);
            || (key in w'.store.slots && w'.store.slots[key] == w.store.slots[key])
            || (step == ServerDelete(w.store.slots[key].token) && InPhase(w, step.token, Releasing) && w.attempts[step.token].key == key)
  {
    hide LeaseStore.Inv, Held, NotOlder;
  }

  /** An attempt is granted its key exactly when no unexpired slot stands in its way. */
  lemma GrantedWhenFree(w: System, token: nat)
    requires Inv(w) && InPhase(w, token, Asking)
    ensures InPhase(Next(w, ServerSet(token)), token, Holding) <==> !IsSet(w.store, w.attempts[token].key)
    ensures InPhase(Next(w, ServerSet(token)), token, Holding) ==>
              forall t :: InPhase(w, t, Holding) && w.attempts[t].key == w.attempts[token].key ==> !LeaseLive(w.store, t)
  {
    SetKeeps(w.store, Held(w), w.attempts[token].key, token);
    hide LeaseStore.Inv;
    forall t | InPhase(w, t, Holding) && LeaseLive(w.store, t) ensures t in Held(w) && t in w.store.grants {
    }
  }

  // ---------- The local tables ----------

  /** A request opens an attempt exactly when its key is new to the process's table and names a candle. */
  lemma BeginsWhenUnclaimed(w: System, p: nat, key: OrderKey, token: nat)
    requires token !in w.attempts
    ensures token in Next(w, Begin(p, key, token)).attempts <==> p < |w.local| && key.epoch > 0 && key !in w.local[p]
  {
  }

  /** The attempt has neither failed, been refused nor been given up. */
  predicate Live(w: System, token: nat, p: nat) {
    token in w.attempts && w.attempts[token].p == p && w.attempts[token].phase != Over
  }

  function Bumped(newest: int, step: Step, p: nat): int {
    if step.Begin? && step.p == p && step.key.epoch > newest then step.key.epoch else newest
  }

  /** The newest candle that a process has asked for. */
  function NewestAsked(steps: seq<Step>, p: nat, newest: int): int
    decreases |steps|
  {
    if steps == [] then newest else NewestAsked(steps[1..], p, Bumped(newest, steps[0], p))
  }

  /** Live attempts on the newest candle, or a newer one, are in the table, and no two share a key. */
  ghost predicate TableInv(w: System, p: nat, newest: int) {
    && (forall t :: Live(w, t, p) && w.attempts[t].key.epoch >= newest ==> p < |w.local| && w.attempts[t].key in w.local[p])
    && (forall t, u :: Live(w, t, p) && Live(w, u, p) && w.attempts[t].key.epoch >= newest && w.attempts[t].key == w.attempts[u].key ==> t == u)
  }

  lemma BeginKeepsTable(w: System, p: nat, newest: int, step: Step)
    requires TableInv(w, p, newest) && step.Begin?
    ensures TableInv(Next(w, step), p, Bumped(newest, step, p))
  {
    var w' := Next(w, step);
    forall t | t in w.attempts
      ensures Live(w', t, p) <==> Live(w, t, p)
      ensures w'.attempts[t] == w.attempts[t]
    {
    }
  }

  lemma OtherStepKeepsTable(w: System, p: nat, newest: int, step: Step)
    requires TableInv(w, p, newest) && !step.Begin?
    ensures TableInv(Next(w, step), p, newest)
  {
    var w' := Next(w, step);
    forall t | Live(w', t, p) ensures Live(w, t, p) && w'.attempts[t].key == w.attempts[t].key {
    }
    if step.Discard? && InPhase(w, step.token, Discarding) {
      forall t | Live(w', t, p) && w'.attempts[t].key.epoch >= newest
        ensures p < |w'.local| && w'.attempts[t].key in w'.local[p]
      {
        assert w.attempts[step.token].p == p ==> Live(w, step.token, p);
      }
    }
    hide IsSet, SetIfAbsent, DeleteIfOwn, Advance;
  }

  lemma {:induction false} RunKeepsTable(w: System, p: nat, newest: int, steps: seq<Step>)
    requires TableInv(w, p, newest)
    ensures TableInv(Run(w, steps), p, NewestAsked(steps, p, newest))
    decreases |steps|
  {
    if steps != [] {
      if steps[0].Begin? {
        BeginKeepsTable(w, p, newest, steps[0]);
      } else {
        OtherStepKeepsTable(w, p, newest, steps[0]);
      }
      hide TableInv, Next;
      RunKeepsTable(Next(w, steps[0]), p, Bumped(newest, steps[0], p), steps[1..]);
    }
  }

  /**
   In every interleaving a process has at most one live attempt on a key of the newest candle it has asked for, and that
   key is in its table, so it asks the store for it at most once until the attempt is given up.
   */
  lemma OneAttemptOnNewestCandle(n: nat, steps: seq<Step>, p: nat, t: nat, u: nat)
    ensures var w := Run(Start(n), steps);
            Live(w, t, p) && w.attempts[t].key.epoch >= NewestAsked(steps, p, 0) ==>
              && p < |w.local| && w.attempts[t].key in w.local[p]
              && (Live(w, u, p) && w.attempts[u].key == w.attempts[t].key ==> t == u)
  {
    RunKeepsTable(Start(n), p, 0, steps);
    hide Run, NewestAsked, Start;
  }

  /** A new request of the process for a candle that is newer than the given one. */
  predicate AsksNewer(w: System, step: Step, p: nat, epoch: int) {
    step.Begin? && step.p == p && step.token !in w.attempts && step.key.epoch > 0 && step.key.epoch > epoch
  }

  /** While its only attempt lives, a key leaves the table exactly when a newer candle, of any symbol and period, is asked for. */
  lemma ForgottenByNewer(w: System, p: nat, t: nat, step: Step)
    requires Live(w, t, p) && p < |w.local| && w.attempts[t].key in w.local[p]
    requires forall u :: Live(w, u, p) && w.attempts[u].key == w.attempts[t].key ==> u == t
    requires Live(Next(w, step), t, p)
    ensures p < |Next(w, step).local|
    ensures w.attempts[t].key !in Next(w, step).local[p] <==> AsksNewer(w, step, p, w.attempts[t].key.epoch)
  {
    if step.Discard? && InPhase(w, step.token, Discarding) {
      assert w.attempts[step.token].p == p ==> Live(w, step.token, p);
    }
    hide IsSet, SetIfAbsent, DeleteIfOwn, Advance;
  }

  /** A five-minute candle of one symbol is asked for twice: a newer one-minute candle of another made the table forget it. */
  function ReturningRun(): seq<Step> {
    [Begin(0, OrderKey("A", 300, 600), 1), Begin(0, OrderKey("B", 60, 780), 2), Begin(0, OrderKey("A", 300, 600), 3)]
  }

  lemma OlderCandleAskedTwice()
    ensures var w := Run(Start(1), ReturningRun());
            Live(w, 1, 0) && Live(w, 3, 0) && w.attempts[1].key == w.attempts[3].key == OrderKey("A", 300, 600)
  {
    var steps := ReturningRun();
    var older, newer := OrderKey("A", 300, 600), OrderKey("B", 60, 780);
    var w1 := Next(Start(1), steps[0]);
    assert |w1.local| == 1 && w1.local[0] == {older} && w1.attempts == map[1 := Attempt(0, older, Asking)];
    var w2 := Next(w1, steps[1]);
    assert NotOlder({older}, 780) == {};
    assert |w2.local| == 1 && w2.local[0] == {newer} && w2.attempts == map[1 := Attempt(0, older, Asking), 2 := Attempt(0, newer, Asking)];
    var w3 := Next(w2, steps[2]);
    assert NotOlder({newer}, 600) == {newer};
    assert older !in w2.local[0] && w3.attempts == w2.attempts[3 := Attempt(0, older, Asking)];
    hide Next;
    RunOfThree(Start(1), steps);
  }

  lemma RunOfThree(w: System, steps: seq<Step>)
    requires |steps| == 3
    ensures Run(w, steps) == Next(Next(Next(w, steps[0]), steps[1]), steps[2])
  {
    hide Next;
    var w2 := Next(Next(w, steps[0]), steps[1]);
    assert Run(w, steps) == Run(Next(w, steps[0]), steps[1..]);
    assert Run(Next(w, steps[0]), steps[1..]) == Run(w2, steps[1..][1..]);
    assert steps[1..][1..] == steps[2..] && steps[2..][1..] == [];
    assert Run(w2, steps[2..]) == Run(Next(w2, steps[2]), []);
  }
}
