/**
 The shared key-value store as the claims use it: set-if-absent with a 900 second expiry and
 compare-and-delete. What it guarantees is stated once here, for any set of tokens still held.
 */
module LeaseStore {
  import opened Numeric

  const LEASE := 900.0

  datatype Slot = Slot(token: nat, expiry: real)

  datatype Grant<K> = Grant(key: K, at: real)

  /** The keys, the clock, and the history of which token was granted which key and when. */
  datatype Store<K(==)> = Store(slots: map<K, Slot>, now: real, grants: map<nat, Grant<K>>)

  predicate IsSet<K(==)>(s: Store<K>, key: K) {
    key in s.slots && s.now < s.slots[key].expiry
  }

  function SetIfAbsent<K(==)>(s: Store<K>, key: K, token: nat): Store<K> {
    if IsSet(s, key) then s
    else s.(slots := s.slots[key := Slot(token, s.now + LEASE)], grants := s.grants[token := Grant(key, s.now)])
  }

  function DeleteIfOwn<K(==)>(s: Store<K>, key: K, token: nat): Store<K> {
    if IsSet(s, key) && s.slots[key].token == token then s.(slots := s.slots - {key}) else s
  }

  /** The clock never runs backwards. */
  function Advance<K(==)>(s: Store<K>, seconds: real): Store<K> {
    s.(now := s.now + Max(0.0, seconds))
  }

  /** The token's lease of 900 seconds has not run out. */
  predicate LeaseLive<K(==)>(s: Store<K>, token: nat) {
    token in s.grants && s.now < s.grants[token].at + LEASE
  }

  ghost predicate Inv<K>(s: Store<K>, held: set<nat>) {
    && (forall t :: t in held ==> t in s.grants)
    && (forall t :: t in held && LeaseLive(s, t) ==>
          s.grants[t].key in s.slots && s.slots[s.grants[t].key] == Slot(t, s.grants[t].at + LEASE))
    && (forall k :: k in s.slots ==>
          s.slots[k].token in s.grants && s.grants[s.slots[k].token] == Grant(k, s.slots[k].expiry - LEASE))
    && (forall t :: t in s.grants ==> s.grants[t].at <= s.now)
  }

  /** Two held tokens of the same key cannot both be inside their lease. */
  lemma Exclusive<K>(s: Store<K>, held: set<nat>, t: nat, u: nat)
    requires Inv(s, held) && t in held && u in held
    requires LeaseLive(s, t) && LeaseLive(s, u) && s.grants[t].key == s.grants[u].key
    ensures t == u
  {
    assert s.slots[s.grants[t].key] == s.slots[s.grants[u].key];
  }

  /** A grant succeeds only when no held token of that key is inside its lease. */
  lemma SetKeeps<K>(s: Store<K>, held: set<nat>, key: K, token: nat)
    requires Inv(s, held) && token !in s.grants
    ensures var s' := SetIfAbsent(s, key, token);
            && Inv(s', held) && (!IsSet(s, key) ==> Inv(s', held + {token}))
            && (!IsSet(s, key) ==> forall t :: t in held && LeaseLive(s, t) ==> s.grants[t].key != key)
            && (IsSet(s, key) ==> s' == s && token !in s'.grants)
  {
    if !IsSet(s, key) {
      forall t | t in held && LeaseLive(s, t) ensures s.grants[t].key != key {
        assert s.slots[s.grants[t].key].expiry == s.grants[t].at + LEASE;
      }
    }
  }

  lemma DeleteKeeps<K>(s: Store<K>, held: set<nat>, key: K, token: nat)
    requires Inv(s, held) && token !in held
    ensures Inv(DeleteIfOwn(s, key, token), held)
    ensures DeleteIfOwn(s, key, token).grants == s.grants
  {
  }

  lemma AdvanceKeeps<K>(s: Store<K>, held: set<nat>, seconds: real)
    requires Inv(s, held)
    ensures Inv(Advance(s, seconds), held)
  {
    forall t | t in held && LeaseLive(Advance(s, seconds), t) ensures LeaseLive(s, t) {
    }
  }

  lemma FewerHeld<K>(s: Store<K>, held: set<nat>, fewer: set<nat>)
    requires Inv(s, held) && fewer <= held
    ensures Inv(s, fewer)
  {
  }

  /** A delete never touches a key that another token wrote. */
  lemma DeleteOnlyOwn<K>(s: Store<K>, key: K, token: nat, other: K)
    requires other in s.slots && (other != key || s.slots[other].token != token)
    ensures other in DeleteIfOwn(s, key, token).slots && DeleteIfOwn(s, key, token).slots[other] == s.slots[other]
  {
  }
}
