/**
 The vocabulary shared by every module: vault and subscription states, letter release
 modes, and the edges of the vault state machine (crates/beacon-core/src/lib.rs).
 Instants are whole seconds on one monotone clock; row identifiers are positions in a table.
 */
module Domain {
  datatype Option<+T> = None | Some(value: T)

  datatype VaultState = Active | Suspicious | Alert | CoolingOff | Releasing | Released | Archived

  predicate CanTransition(from: VaultState, to: VaultState) {
    match (from, to)
    case (Active, Suspicious) => true
    case (Active, CoolingOff) => true
    case (Suspicious, Active) => true
    case (Suspicious, Alert) => true
    case (Alert, Suspicious) => true
    case (Alert, CoolingOff) => true
    case (CoolingOff, Active) => true
    case (CoolingOff, Releasing) => true
    case (Releasing, Released) => true
    case (Released, Archived) => true
    case _ => false
  }

  /** The states the aggregator lists and the duress webhook acts on. */
  predicate Watchable(s: VaultState) {
    s == Active || s == Suspicious || s == Alert
  }

  datatype SubscriptionState = Trialing | Subscribed | PastDue | Canceled | Expired | Deleted

  predicate AllowsAuthoring(s: SubscriptionState) {
    s == Trialing || s == Subscribed || s == PastDue
  }

  datatype ReleaseMode = SignalOrScheduled | ScheduledOnly | SignalOnly | EventOnDemand

  predicate FiresOnSignal(m: ReleaseMode) {
    m == SignalOrScheduled || m == SignalOnly
  }

  function Max(a: int, b: int): int {
    if a < b then b else a
  }

  lemma SubsetSize<T>(a: set<T>, b: set<T>)
    requires a <= b
    ensures |a| <= |b|
  {
    assert b == a + (b - a);
  }
}
