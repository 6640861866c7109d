/**
 The reservation of a pending loss: one key per account in the shared store, next to a table of
 claims in every process. Processes interleave freely, calls may fail after they took effect, and
 processes may crash.
 */
module RecoveryClaim {
  import opened Numeric
  import opened LeaseStore

  datatype Identity = ByToken(token: nat) | ByContract(cid: int)

  datatype Claim = Claim(token: nat, amount: real, expiresAt: real)

  /** What a process is doing while it holds its own lock. */
  datatype Task =
    | Free
    | Asking(token: nat, amount: real)
    | Granted(token: nat, amount: real)
    | Deleting(token: nat)

  datatype Process = Process(table: map<Identity, Claim>, task: Task)

  /** The account key is unique, so the store is keyed by the unit value. */
  datatype System = System(store: Store<()>, procs: seq<Process>, owner: map<nat, nat>)

  datatype Step =
    | ClaimBegin(p: nat, amount: real, token: nat)
    | ServerSet(p: nat)
    | SetFailed(p: nat, executed: bool)
    | ClaimRecord(p: nat)
    | Bind(p: nat, token: nat, cid: int)
    | ReleaseBegin(p: nat, identity: Identity)
    | ServerDelete(p: nat)
    | DeleteFailed(p: nat)
    | Crash(p: nat)
    | Tick(seconds: real)

  /** Entries whose local deadline has passed are dropped whenever the table is consulted. */
  function Prune(table: map<Identity, Claim>, now: real): map<Identity, Claim> {
    map id | id in table && now < table[id].expiresAt :: table[id]
  }

  function Put(w: System, p: nat, proc: Process): System
    requires p < |w.procs|
  {
    w.(procs := w.procs[p := proc])
  }

  function StepProcess(w: System, step: Step, p: nat): System
    requires p < |w.procs|
  {
    var proc, now := w.procs[p], w.store.now;
    match step
    case ClaimBegin(_, amount, token) =>
      var table := Prune(proc.table, now);
      if amount <= 0.0 || proc.task != Free || token in w.owner then w
      else if table != map[] then Put(w, p, Process(table, Free))
      else Put(w, p, Process(table, Asking(token, amount))).(owner := w.owner[token := p])
    case ServerSet(_) =>
      if !proc.task.Asking? then w
      else
        var granted := !IsSet(w.store, ());
        Put(w, p, proc.(task := if granted then Granted(proc.task.token, proc.task.amount) else Free))
        .(store := SetIfAbsent(w.store, (), proc.task.token))
    case SetFailed(_, executed) =>
      if !proc.task.Asking? then w
      else Put(w, p, proc.(task := Free)).(store := if executed then SetIfAbsent(w.store, (), proc.task.token) else w.store)
    case ClaimRecord(_) =>
      if !proc.task.Granted? then w
      else
        var claim := Claim(proc.task.token, proc.task.amount, now + LEASE);
        Put(w, p, Process(Prune(proc.table, now)[ByToken(proc.task.token) := claim], Free))
    case Bind(_, token, cid) =>
      var table := Prune(proc.table, now);
      if ByToken(token) !in table then Put(w, p, proc.(table := table))
      else
        var claim := table[ByToken(token)];
        Put(w, p, proc.(table := (table - {ByToken(token)})[ByContract(cid) := claim.(expiresAt := claim.expiresAt + LEASE)]))
    case ReleaseBegin(_, identity) =>
      var table := Prune(proc.table, now);
      if proc.task != Free then w
      else if identity !in table then Put(w, p, Process(table, Free))
      else Put(w, p, Process(table - {identity}, Deleting(table[identity].token)))
    case ServerDelete(_) =>
      if !proc.task.Deleting? then w
      else Put(w, p, proc.(task := Free)).(store := DeleteIfOwn(w.store, (), proc.task.token))
    case DeleteFailed(_) =>
      if !proc.task.Deleting? then w else Put(w, p, proc.(task := Free))
    case Crash(_) => Put(w, p, Process(map[], Free))
    case Tick(_) => w
  }

  function Next(w: System, step: Step): System {
    if step.Tick? then w.(store := Advance(w.store, step.seconds))
    else if step.p < |w.procs| then StepProcess(w, step, step.p)
    else w
  }

  function Run(w: System, steps: seq<Step>): System
    decreases |steps|
  {
    if steps == [] then w else Run(Next(w, steps[0]), steps[1..])
  }

  function Start(n: nat): System {
    System(Store(map[], 0.0, map[]), seq(n, _ => Process(map[], Free)), map[])
  }

  // ---------- Invariant ----------

  /** The tokens of claims that a process has been granted and has not given up. */
  function HeldBy(proc: Process): set<nat> {
    (set id | id in proc.table :: proc.table[id].token) + if proc.task.Granted? then {proc.task.token} else {}
  }

  function AllHeld(w: System): set<nat> {
    set p, t | 0 <= p < |w.procs| && t in HeldBy(w.procs[p]) :: t
  }

  /** Every token a process mentions is its own, its table is a singleton at most, and empty while it is busy. */
  ghost predicate ProcessInv(w: System, p: nat)
    requires p < |w.procs|
  {
    var proc := w.procs[p];
    && (forall t :: t in HeldBy(proc) ==> t in w.owner && w.owner[t] == p)
    && (forall a, b :: a in proc.table && b in proc.table ==> a == b)
    && (proc.task != Free ==> proc.table == map[])
    && (proc.task.Asking? ==>
          proc.task.token in w.owner && w.owner[proc.task.token] == p && proc.task.token !in w.store.grants)
    && (proc.task.Deleting? ==> proc.task.token in w.owner && w.owner[proc.task.token] == p)
  }

  ghost predicate Inv(w: System) {
    && LeaseStore.Inv(w.store, AllHeld(w))
    && (forall t :: t in w.store.grants ==> t in w.owner)
    && (forall p: nat :: p < |w.procs| ==> ProcessInv(w, p))
  }

  // ---------- Every step keeps the invariant ----------

  lemma HeldAfter(w: System, p: nat, proc: Process)
    requires p < |w.procs|
    ensures AllHeld(Put(w, p, proc)) <= AllHeld(w) + HeldBy(proc)
    ensures HeldBy(proc) <= HeldBy(w.procs[p]) ==> AllHeld(Put(w, p, proc)) <= AllHeld(w)
  {
    hide HeldBy;
  }

  lemma HeldInAll(w: System, p: nat, t: nat)
    requires p < |w.procs| && t in HeldBy(w.procs[p])
    ensures t in AllHeld(w)
  {
  }

  /** A step that only gives up claims, drops entries or turns to something else. */
  lemma QuietKeeps(w: System, p: nat, proc: Process)
    requires p < |w.procs| && Inv(w)
    requires HeldBy(proc) <= HeldBy(w.procs[p])
    requires forall a, b :: a in proc.table && b in proc.table ==> a == b
    requires proc.task != Free ==> proc.table == map[]
    requires !proc.task.Asking?
    requires proc.task.Deleting? ==> proc.task.token in w.owner && w.owner[proc.task.token] == p
    ensures Inv(Put(w, p, proc))
  {
    HeldAfter(w, p, proc);
    FewerHeld(w.store, AllHeld(w), AllHeld(Put(w, p, proc)));
    hide HeldBy, LeaseStore.Inv, AllHeld;
    OthersKeep(w, Put(w, p, proc), p);
    assert ProcessInv(w, p);
    assert ProcessInv(Put(w, p, proc), p);
  }

  /** What the other processes need from a step of process p. */
  lemma OthersKeep(w: System, w': System, p: nat)
    requires p < |w.procs| == |w'.procs| && forall q: nat :: q < |w.procs| ==> ProcessInv(w, q)
    requires forall q: nat :: q < |w.procs| && q != p ==> w'.procs[q] == w.procs[q]
    requires forall t :: t in w.owner ==> t in w'.owner && w'.owner[t] == w.owner[t]
    requires forall t :: t in w'.store.grants && t !in w.store.grants ==> t in w.owner && w.owner[t] == p
    ensures forall q: nat :: q < |w'.procs| && q != p ==> ProcessInv(w', q)
  {
    hide HeldBy;
    forall q: nat | q < |w'.procs| && q != p ensures ProcessInv(w', q) {
      assert ProcessInv(w, q);
    }
  }

  lemma ClaimBeginKeeps(w: System, step: Step)
    requires Inv(w) && step.ClaimBegin? && step.p < |w.procs|
    ensures Inv(StepProcess(w, step, step.p))
  {
    var p := step.p;
    var proc := w.procs[p];
    var table := Prune(proc.table, w.store.now);
    assert ProcessInv(w, p);
    if step.amount > 0.0 && proc.task == Free && step.token !in w.owner {
      if table != map[] {
        QuietKeeps(w, p, Process(table, Free));
      } else {
        var proc' := Process(table, Asking(step.token, step.amount));
        var w' := Put(w, p, proc').(owner := w.owner[step.token := p]);
        assert HeldBy(proc') == {};
        HeldAfter(w, p, proc');
        FewerHeld(w.store, AllHeld(w), AllHeld(Put(w, p, proc')));
        assert AllHeld(w') == AllHeld(Put(w, p, proc'));
        OthersKeep(w, w', p);
      }
    }
  }

  lemma ServerSetKeeps(w: System, p: nat, proc: Process)
    requires p < |w.procs| && Inv(w) && w.procs[p].task.Asking?
    requires var token := w.procs[p].task.token;
             || proc == w.procs[p].(task := Free)
             || (!IsSet(w.store, ()) && proc == w.procs[p].(task := Granted(token, w.procs[p].task.amount)))
    ensures Inv(Put(w, p, proc).(store := SetIfAbsent(w.store, (), w.procs[p].task.token)))
  {
    var token := w.procs[p].task.token;
    assert ProcessInv(w, p);
    var w' := Put(w, p, proc).(store := SetIfAbsent(w.store, (), token));
    SetKeeps(w.store, AllHeld(w), (), token);
    HeldAfter(w, p, proc);
    assert AllHeld(w') == AllHeld(Put(w, p, proc));
    assert HeldBy(w.procs[p]) == {};
    assert HeldBy(proc) == if proc.task.Granted? then {token} else {};
    if IsSet(w.store, ()) {
      FewerHeld(w'.store, AllHeld(w), AllHeld(w'));
    } else {
      FewerHeld(w'.store, AllHeld(w) + {token}, AllHeld(w'));
    }
    hide LeaseStore.Inv, AllHeld, HeldBy;
    OthersKeep(w, w', p);
    assert ProcessInv(w', p);
  }

  lemma ClaimRecordKeeps(w: System, step: Step)
    requires Inv(w) && step.ClaimRecord? && step.p < |w.procs|
    ensures Inv(StepProcess(w, step, step.p))
  {
    var p := step.p;
    var proc := w.procs[p];
    assert ProcessInv(w, p);
    if proc.task.Granted? {
      var claim := Claim(proc.task.token, proc.task.amount, w.store.now + LEASE);
      var table := Prune(proc.table, w.store.now)[ByToken(proc.task.token) := claim];
      assert Prune(proc.table, w.store.now) == map[];
      assert table == map[ByToken(proc.task.token) := claim];
      assert HeldBy(Process(table, Free)) <= HeldBy(proc);
      QuietKeeps(w, p, Process(table, Free));
    }
  }

  lemma OnlyEntry(table: map<Identity, Claim>, id: Identity, other: Identity, claim: Claim)
    requires id in table && forall a, b :: a in table && b in table ==> a == b
    ensures (table - {id})[other := claim] == map[other := claim]
  {
    assert table - {id} == map[];
  }

  lemma BindKeeps(w: System, step: Step)
    requires Inv(w) && step.Bind? && step.p < |w.procs|
    ensures Inv(StepProcess(w, step, step.p))
  {
    var p := step.p;
    var proc := w.procs[p];
    assert ProcessInv(w, p);
    var table := Prune(proc.table, w.store.now);
    var pending := ByToken(step.token);
    if proc.task == Free {
      if pending in table {
        var claim := table[pending];
        var table' := (table - {pending})[ByContract(step.cid) := claim.(expiresAt := claim.expiresAt + LEASE)];
        OnlyEntry(table, pending, ByContract(step.cid), claim.(expiresAt := claim.expiresAt + LEASE));
        assert pending in proc.table && proc.table[pending] == claim;
        QuietKeeps(w, p, proc.(table := table'));
      } else {
        QuietKeeps(w, p, proc.(table := table));
      }
    } else {
      assert table == map[];
      assert Put(w, p, proc.(table := table)) == w;
    }
  }

  lemma ReleaseBeginKeeps(w: System, step: Step)
    requires Inv(w) && step.ReleaseBegin? && step.p < |w.procs|
    ensures Inv(StepProcess(w, step, step.p))
  {
    var p := step.p;
    var proc := w.procs[p];
    assert ProcessInv(w, p);
    var table := Prune(proc.table, w.store.now);
    if proc.task == Free {
      if step.identity !in table {
        QuietKeeps(w, p, Process(table, Free));
      } else {
        var token := table[step.identity].token;
        assert token in HeldBy(proc);
        assert table - {step.identity} == map[];
        QuietKeeps(w, p, Process(table - {step.identity}, Deleting(token)));
      }
    }
  }

  lemma ServerDeleteKeeps(w: System, p: nat)
    requires p < |w.procs| && Inv(w) && w.procs[p].task.Deleting?
    ensures Inv(Put(w, p, w.procs[p].(task := Free)).(store := DeleteIfOwn(w.store, (), w.procs[p].task.token)))
  {
    var proc := w.procs[p];
    var token, proc' := proc.task.token, proc.(task := Free);
    assert ProcessInv(w, p);
    assert HeldBy(proc) == {} == HeldBy(proc');
    forall t | t in AllHeld(w) ensures t != token {
      var q: nat :| q < |w.procs| && t in HeldBy(w.procs[q]);
      assert ProcessInv(w, q);
    }
    DeleteKeeps(w.store, AllHeld(w), (), token);
    HeldAfter(w, p, proc');
    var w' := Put(w, p, proc').(store := DeleteIfOwn(w.store, (), token));
    assert AllHeld(w') == AllHeld(Put(w, p, proc'));
    FewerHeld(w'.store, AllHeld(w), AllHeld(w'));
    hide LeaseStore.Inv, AllHeld, HeldBy;
    OthersKeep(w, w', p);
    assert ProcessInv(w', p);
  }

  lemma NextKeeps(w: System, step: Step)
    requires Inv(w)
    ensures Inv(Next(w, step)) && |Next(w, step).procs| == |w.procs|
  {
    if step.Tick? {
      var w' := Next(w, step);
      AdvanceKeeps(w.store, AllHeld(w), step.seconds);
      assert AllHeld(w') == AllHeld(w);
      hide LeaseStore.Inv, AllHeld, HeldBy;
      forall p: nat | p < |w'.procs| ensures ProcessInv(w', p) {
        assert ProcessInv(w, p);
      }
    } else if step.p < |w.procs| {
      var proc := w.procs[step.p];
      assert ProcessInv(w, step.p);
      hide Inv, AllHeld, ProcessInv;
      match step
      case ClaimBegin(_, _, _) => ClaimBeginKeeps(w, step);
      case ServerSet(p) =>
        if proc.task.Asking? {
          ServerSetKeeps(w, p, proc.(task := if !IsSet(w.store, ()) then Granted(proc.task.token, proc.task.amount) else Free));
        }
      case SetFailed(p, executed) =>
        if proc.task.Asking? {
          if executed {
            ServerSetKeeps(w, p, proc.(task := Free));
          } else {
            QuietKeeps(w, p, proc.(task := Free));
          }
        }
      case ClaimRecord(_) => ClaimRecordKeeps(w, step);
      case Bind(_, _, _) => BindKeeps(w, step);
      case ReleaseBegin(_, _) => ReleaseBeginKeeps(w, step);
      case ServerDelete(p) =>
        if proc.task.Deleting? {
          ServerDeleteKeeps(w, p);
        }
      case DeleteFailed(p) =>
        if proc.task.Deleting? {
          QuietKeeps(w, p, proc.(task := Free));
        }
      case Crash(p) => QuietKeeps(w, p, Process(map[], Free));
    }
  }

  lemma StartInv(n: nat)
    ensures Inv(Start(n))
  {
    var w := Start(n);
    forall p: nat | p < n ensures HeldBy(w.procs[p]) == {} {
    }
    assert AllHeld(w) == {};
  }

  lemma {:induction false} RunKeeps(w: System, steps: seq<Step>)
    requires Inv(w)
    ensures Inv(Run(w, steps)) && |Run(w, steps).procs| == |w.procs|
    decreases |steps|
  {
    hide Inv, Next;
    if steps != [] {
      NextKeeps(w, steps[0]);
      RunKeeps(Next(w, steps[0]), steps[1..]);
    }
  }

  // ---------- What holds in every interleaving ----------

  /**
   In every interleaving of any number of processes at most one unreleased claim is inside its lease,
   and no process ever has more than one claim in its table.
   */
  lemma AtMostOneLiveClaim(n: nat, steps: seq<Step>, p: nat, t: nat, q: nat, u: nat)
    requires p < n && q < n
    ensures var w := Run(Start(n), steps);
            && |w.procs| == n
            && (t in HeldBy(w.procs[p]) && u in HeldBy(w.procs[q]) && LeaseLive(w.store, t) && LeaseLive(w.store, u) ==>
                  p == q && t == u)
            && |w.procs[p].table| <= 1
  {
    StartInv(n);
    RunKeeps(Start(n), steps);
    var w := Run(Start(n), steps);
    OneLive(w, p, t, q, u);
    SmallTable(w.procs[p].table);
    hide Run;
  }

  lemma OneLive(w: System, p: nat, t: nat, q: nat, u: nat)
    requires Inv(w) && p < |w.procs| && q < |w.procs|
    ensures t in HeldBy(w.procs[p]) && u in HeldBy(w.procs[q]) && LeaseLive(w.store, t) && LeaseLive(w.store, u) ==>
              p == q && t == u
    ensures forall a, b :: a in w.procs[p].table && b in w.procs[p].table ==> a == b
  {
    assert ProcessInv(w, p) && ProcessInv(w, q);
    if t in HeldBy(w.procs[p]) && u in HeldBy(w.procs[q]) && LeaseLive(w.store, t) && LeaseLive(w.store, u) {
      HeldInAll(w, p, t);
      HeldInAll(w, q, u);
      hide HeldBy, AllHeld;
      assert w.store.grants[t].key == () == w.store.grants[u].key;
      Exclusive(w.store, AllHeld(w), t, u);
    }
  }

  ghost predicate Single(table: map<Identity, Claim>) {
    forall a, b :: a in table && b in table ==> a == b
  }

  /** The amount set aside by a table of at most one claim. */
  ghost function Reserved(table: map<Identity, Claim>): real
    requires Single(table)
  {
    if exists id :: id in table then
      var id :| id in table;
      table[id].amount
    else 0.0
  }

  /** What is left of the loss to size a new order on; with contracts open and nothing reserved it is nothing. */
  ghost function UnreservedLoss(table: map<Identity, Claim>, pending: real, contractsOpen: bool, now: real): real
    requires Single(table)
  {
    var claims, owed := Prune(table, now), Max(0.0, pending);
    if owed > 0.0 && contractsOpen && claims == map[] then 0.0 else Max(0.0, owed - Reserved(claims))
  }

  /**
   In every reachable state a loss is never reserved twice by one process: while a claim lives its amount is taken off
   the loss and no second claim is asked for, and without one the whole loss is on offer only when no contract is open.
   */
  lemma LossReservedOnce(n: nat, steps: seq<Step>, p: nat, pending: real, contractsOpen: bool, amount: real, token: nat)
    requires p < n
    ensures var w := Run(Start(n), steps);
            |w.procs| == n &&
            var table, now := w.procs[p].table, w.store.now;
            && Single(table)
            && (forall id :: id in table && now < table[id].expiresAt ==>
                  && UnreservedLoss(table, pending, contractsOpen, now) == Max(0.0, Max(0.0, pending) - table[id].amount)
                  && !(Next(w, ClaimBegin(p, amount, token)).procs[p].task.Asking? && w.procs[p].task == Free))
            && ((forall id :: id in table ==> table[id].expiresAt <= now) ==>
                  UnreservedLoss(table, pending, contractsOpen, now) == if contractsOpen then 0.0 else Max(0.0, pending))
  {
    StartInv(n);
    RunKeeps(Start(n), steps);
    var w := Run(Start(n), steps);
    OneLive(w, p, 0, p, 0);
    OfferedLoss(w.procs[p].table, pending, contractsOpen, w.store.now);
    if w.procs[p].task == Free && exists id :: id in w.procs[p].table && w.store.now < w.procs[p].table[id].expiresAt {
      ClaimWaits(w, p, amount, token);
    }
    hide Run, Next, Inv, UnreservedLoss;
  }

  lemma OfferedLoss(table: map<Identity, Claim>, pending: real, contractsOpen: bool, now: real)
    requires Single(table)
    ensures forall id :: id in table && now < table[id].expiresAt ==>
              UnreservedLoss(table, pending, contractsOpen, now) == Max(0.0, Max(0.0, pending) - table[id].amount)
    ensures (forall id :: id in table ==> table[id].expiresAt <= now) ==>
              UnreservedLoss(table, pending, contractsOpen, now) == if contractsOpen then 0.0 else Max(0.0, pending)
  {
    var claims := Prune(table, now);
    forall id | id in table && now < table[id].expiresAt
      ensures UnreservedLoss(table, pending, contractsOpen, now) == Max(0.0, Max(0.0, pending) - table[id].amount)
    {
      assert id in claims && claims != map[];
      assert Reserved(claims) == table[id].amount;
    }
    if forall id :: id in table ==> table[id].expiresAt <= now {
      assert forall id :: id !in claims;
      assert claims == map[];
    }
  }

  lemma ClaimWaits(w: System, p: nat, amount: real, token: nat)
    requires p < |w.procs| && w.procs[p].task == Free
    requires exists id :: id in w.procs[p].table && w.store.now < w.procs[p].table[id].expiresAt
    ensures !Next(w, ClaimBegin(p, amount, token)).procs[p].task.Asking?
  {
    var id :| id in w.procs[p].table && w.store.now < w.procs[p].table[id].expiresAt;
    assert id in Prune(w.procs[p].table, w.store.now);
  }

  lemma SmallTable(table: map<Identity, Claim>)
    requires forall a, b :: a in table && b in table ==> a == b
    ensures |table| <= 1
  {
    if table != map[] {
      var a :| a in table;
      assert table.Keys == {a};
    }
  }

  /** Whatever step removes or replaces a live key, the token's own process is deleting it. */
  lemma OnlyOwnerRemoves(w: System, step: Step)
    requires Inv(w) && IsSet(w.store, ())
    ensures var w' := Next(w, step);
            || (() in w'.store.slots && w'.store.slots[()] == w.store.slots[()])
            || (step.ServerDelete? && step.p < |w.procs| && w.procs[step.p].task == Deleting(w.store.slots[()].token)
                && w.store.slots[()].token in w.owner && w.owner[w.store.slots[()].token] == step.p)
  {
    if !step.Tick? && step.p < |w.procs| {
      assert ProcessInv(w, step.p);
      hide HeldBy, LeaseStore.Inv, AllHeld, Prune;
    }
  }

  // ---------- Where the reservation ends ----------

  /** No other token was granted the key after this one. */
  ghost predicate LatestGrant(w: System, t: nat) {
    t in w.store.grants && forall u :: u in w.store.grants ==> w.store.grants[u].at <= w.store.grants[t].at
  }

  /**
   A second process gets the key while the newest claim is still held exactly when that claim has
   outlived its 900 seconds. Binding a bought contract extends the local claim only.
   */
  lemma ReservationEndsWithLease(w: System, p: nat, t: nat, q: nat)
    requires Inv(w) && p < |w.procs| && q < |w.procs| && t in HeldBy(w.procs[p]) && LatestGrant(w, t)
    requires w.procs[q].task.Asking?
    ensures Next(w, ServerSet(q)).procs[q].task.Granted? <==> !LeaseLive(w.store, t)
  {
    HeldInAll(w, p, t);
    hide HeldBy, AllHeld;
    assert w.store.grants[t].key == ();
  }

  /** Two processes at once hold a claim that neither table has dropped. */
  function OverlapRun(): seq<Step> {
    [ClaimBegin(0, 5.0, 100), ServerSet(0), ClaimRecord(0), Bind(0, 100, 7), Tick(900.0),
     ClaimBegin(1, 5.0, 200), ServerSet(1), ClaimRecord(1)]
  }

  lemma BoundClaimsCanOverlap()
    ensures var w := Run(Start(2), OverlapRun());
            && w.procs == [Process(map[ByContract(7) := Claim(100, 5.0, 1800.0)], Free),
                           Process(map[ByToken(200) := Claim(200, 5.0, 1800.0)], Free)]
            && w.store.now == 900.0
  {
    OverlapEnds();
    SecondClaimFollows();
    hide *;
  }

  lemma OverlapEnds()
    ensures Run(Start(2), OverlapRun())
         == Next(Next(Next(Next(AfterBind(), Tick(900.0)), ClaimBegin(1, 5.0, 200)), ServerSet(1)), ClaimRecord(1))
  {
    hide *;
    FirstClaimIsBound();
    OverlapParts();
    RunConcat(Start(2), [ClaimBegin(0, 5.0, 100), ServerSet(0), ClaimRecord(0), Bind(0, 100, 7)],
              [Tick(900.0), ClaimBegin(1, 5.0, 200), ServerSet(1), ClaimRecord(1)]);
    RunFour(Start(2), ClaimBegin(0, 5.0, 100), ServerSet(0), ClaimRecord(0), Bind(0, 100, 7));
    RunFour(AfterBind(), Tick(900.0), ClaimBegin(1, 5.0, 200), ServerSet(1), ClaimRecord(1));
  }

  lemma OverlapParts()
    ensures OverlapRun() == [ClaimBegin(0, 5.0, 100), ServerSet(0), ClaimRecord(0), Bind(0, 100, 7)]
                            + [Tick(900.0), ClaimBegin(1, 5.0, 200), ServerSet(1), ClaimRecord(1)]
  {
  }

  function AfterBind(): System {
    System(Store(map[() := Slot(100, 900.0)], 0.0, map[100 := Grant((), 0.0)]),
           [Process(map[ByContract(7) := Claim(100, 5.0, 1800.0)], Free), Process(map[], Free)],
           map[100 := 0])
  }

  lemma FirstClaimIsBound()
    ensures Next(Next(Next(Next(Start(2), ClaimBegin(0, 5.0, 100)), ServerSet(0)), ClaimRecord(0)), Bind(0, 100, 7)) == AfterBind()
  {
    var idle := Process(map[], Free);
    var w1 := Next(Start(2), ClaimBegin(0, 5.0, 100));
    assert w1 == System(Store(map[], 0.0, map[]), [Process(map[], Asking(100, 5.0)), idle], map[100 := 0]);
    var store := Store(map[() := Slot(100, 900.0)], 0.0, map[100 := Grant((), 0.0)]);
    var w2 := Next(w1, ServerSet(0));
    assert w2 == System(store, [Process(map[], Granted(100, 5.0)), idle], map[100 := 0]);
    var w3 := Next(w2, ClaimRecord(0));
    var claimed := map[ByToken(100) := Claim(100, 5.0, 900.0)];
    assert w3 == System(store, [Process(claimed, Free), idle], map[100 := 0]);
    assert Prune(claimed, 0.0) == claimed;
    assert claimed - {ByToken(100)} == map[];
  }

  lemma SecondClaimFollows()
    ensures var w := Next(Next(Next(Next(AfterBind(), Tick(900.0)), ClaimBegin(1, 5.0, 200)), ServerSet(1)), ClaimRecord(1));
            && w.procs == [Process(map[ByContract(7) := Claim(100, 5.0, 1800.0)], Free),
                           Process(map[ByToken(200) := Claim(200, 5.0, 1800.0)], Free)]
            && w.store.now == 900.0
  {
    var bound := AfterBind().procs[0];
    var w5 := Next(AfterBind(), Tick(900.0));
    assert w5.store.now == 900.0 && w5.procs == AfterBind().procs;
    var w6 := Next(w5, ClaimBegin(1, 5.0, 200));
    assert w6.procs == [bound, Process(map[], Asking(200, 5.0))] && w6.store == w5.store;
    var w7 := Next(w6, ServerSet(1));
    assert w7.procs == [bound, Process(map[], Granted(200, 5.0))] && w7.store.now == 900.0;
  }

  lemma {:induction false} RunConcat(w: System, a: seq<Step>, b: seq<Step>)
    ensures Run(w, a + b) == Run(Run(w, a), b)
    decreases |a|
  {
    hide Next;
    if a == [] {
      assert a + b == b;
    } else {
      RunConcat(Next(w, a[0]), a[1..], b);
      assert (a + b)[1..] == a[1..] + b;
    }
  }

  lemma RunFour(w: System, a: Step, b: Step, c: Step, d: Step)
    ensures Run(w, [a, b, c, d]) == Next(Next(Next(Next(w, a), b), c), d)
  {
    hide Next;
    assert [a, b, c, d][1..] == [b, c, d] && [b, c, d][1..] == [c, d] && [c, d][1..] == [d] && [d][1..] == [];
    assert Run(w, [a, b, c, d]) == Run(Next(w, a), [b, c, d]);
    assert Run(Next(w, a), [b, c, d]) == Run(Next(Next(w, a), b), [c, d]);
    assert Run(Next(Next(w, a), b), [c, d]) == Run(Next(Next(Next(w, a), b), c), [d]);
  }
}
