/**
 Whole-run behaviour of the aggregator on one vault, amid every other actor of the release
 protocol.
 */
module Escalation {
  import opened Domain
  import opened Scoring
  import opened ReleaseModel
  import opened ReleaseSafety

  /** The step is the aggregator's turn on `v`. */
  predicate Ticks(s: Step, v: nat) {
    s.Aggregate? && s.v == v
  }

  predicate ShouldAlert(x: Evidence) {
    Crossed(x.score, x.threshold, x.minClasses)
  }

  predicate SoftlyAbove(x: Evidence) {
    Soft(x.score, x.threshold)
  }

  predicate Frozen(w: World, v: nat) {
    v < |w.vaults| && InDuress(w, w.vaults[v].principal)
  }

  /** An aggregator turn whose vault, and its principal's duress, are as it read them. */
  predicate FreshTurn(w: World, s: Step) {
    s.Aggregate? && InState(w, s.v, s.observed) && (s.frozen <==> Frozen(w, s.v))
  }

  ghost predicate FreshRun(w: World, run: seq<Step>) {
    forall j :: 0 <= j < |run| && run[j].Aggregate? ==> FreshTurn(At(w, run, j), run[j])
  }

  /** Only an aggregator turn whose evidence crosses the threshold writes ALERT; this holds of
      stale turns too. */
  lemma AlertHasEvidence(w: World, s: Step, v: nat)
    ensures !InState(w, v, Alert) && InState(Apply(w, s), v, Alert) ==>
      Ticks(s, v) && ShouldAlert(s.evidence) && (s.observed == Active || s.observed == Suspicious)
  {
    WhoWrites(w, s, v, Alert);
    hide Apply, Verdict;
    if s.Aggregate? && Watchable(s.observed) {
      EvaluateAlert(s.observed, s.evidence);
    }
  }

  lemma EvaluateAlert(observed: VaultState, x: Evidence)
    requires Watchable(observed)
    ensures Verdict(observed, x) == Alert ==> observed == Alert || ShouldAlert(x)
    ensures Verdict(observed, x) == Alert ==> observed == Active || observed == Suspicious || observed == Alert
  {}

  /** A turn that leaves a vault in ALERT saw a soft score, and was stopped by the duress it read alone. */
  lemma AlertHeldByDuress(w: World, s: Step, v: nat)
    requires Ticks(s, v) && InState(w, v, s.observed)
    requires InState(w, v, Alert) && InState(Apply(w, s), v, Alert)
    ensures SoftlyAbove(s.evidence) && s.frozen
  {}

  /** The aggregator opens a cooling-off only from ALERT, on a soft score, having read no duress. */
  lemma EntryNeedsAlert(w: World, s: Step, v: nat)
    requires Ticks(s, v) && Enters(w, s, v)
    ensures InState(w, v, Alert) && SoftlyAbove(s.evidence) && !s.frozen
  {}

  /** Turn `k` raised the alert, the vault has stayed in ALERT since, and every later turn before `n`
      that had read it so was held back by the duress it read alone. */
  ghost predicate RaisedAt(w: World, run: seq<Step>, k: nat, n: nat, v: nat)
    requires n <= |run|
  {
    && k < n && Ticks(run[k], v) && ShouldAlert(run[k].evidence)
    && !InState(At(w, run, k), v, Alert) && InState(At(w, run, k + 1), v, Alert)
    && forall j :: k < j < n ==>
         InState(At(w, run, j), v, Alert)
         && (Ticks(run[j], v) && InState(At(w, run, j), v, run[j].observed) ==>
               SoftlyAbove(run[j].evidence) && run[j].frozen)
  }

  lemma {:induction false} AlertOrigin(w: World, run: seq<Step>, n: nat, v: nat) returns (k: nat)
    requires n <= |run|
    requires !InState(w, v, Alert) && InState(At(w, run, n), v, Alert)
    ensures RaisedAt(w, run, k, n, v)
  {
    hide Apply;
    hide InState;
    var u := At(w, run, n - 1);
    if InState(u, v, Alert) {
      k := AlertOrigin(w, run, n - 1, v);
      if Ticks(run[n - 1], v) && InState(u, v, run[n - 1].observed) {
        AlertHeldByDuress(u, run[n - 1], v);
      }
    } else {
      k := n - 1;
      AlertHasEvidence(u, run[n - 1], v);
    }
  }

  /** Whatever else runs, stale turns included: when the aggregator opens a cooling-off at step `n`,
      an earlier turn of its crossed the full threshold; since then the vault stayed in ALERT, every
      turn that had read it in ALERT saw at least the soft threshold, and every such turn but the last
      had read that its principal is in duress. */
  lemma EscalationHistory(w: World, run: seq<Step>, n: nat, v: nat)
    requires n < |run| && !InState(w, v, Alert)
    requires Ticks(run[n], v) && Enters(At(w, run, n), run[n], v)
    ensures SoftlyAbove(run[n].evidence) && !run[n].frozen
    ensures exists k :: RaisedAt(w, run, k, n, v)
  {
    EntryNeedsAlert(At(w, run, n), run[n], v);
    var k := AlertOrigin(w, run, n, v);
  }

  // ---- Duress between the check and the claim ----

  /** The webhook fires on an armed signal. */
  predicate Triggers(w: World, s: Step, principal: nat) {
    s == Trigger(principal) && principal in w.duress
  }

  predicate Clears(s: Step, principal: nat) {
    s == Disarm(principal) || (s.Arm? && s.principal == principal)
  }

  /** Vaults stay with their principals, and nobody is put into duress or out of it. */
  predicate KeepsOwners(w: World, w': World) {
    && w'.duress == w.duress && |w'.vaults| == |w.vaults|
    && forall v :: 0 <= v < |w.vaults| ==> w'.vaults[v].principal == w.vaults[v].principal
  }

  lemma SetStateKeepsOwners(w: World, v: nat, s: VaultState, releasedAt: Option<int>)
    ensures KeepsOwners(w, SetState(w, v, s, releasedAt))
  {}

  lemma CloseKeepsOwners(w: World, t: Ticket, stop: Stop)
    ensures KeepsOwners(w, CloseStep(w, t, stop))
  {
    hide SetState, MarkReleased;
    var w1 := SetState(w, t.vault, Released, Some(w.clock));
    var w2 := MarkReleased(w1, t.event);
    SetStateKeepsOwners(w, t.vault, Released, Some(w.clock));
    MarkReleasedTouches(w1, t.event);
    SetStateKeepsOwners(w2, t.vault, Active, None);
  }

  lemma PerformKeepsOwners(w: World, t: Ticket, stop: Stop)
    ensures KeepsOwners(w, PerformStep(w, t, stop))
  {
    hide CloseStep, Delivery, Prefix;
    CloseKeepsOwners(w.(performing := w.performing - multiset{t},
                        claims := w.claims + Delivery(w, t.event, t.vault, |w.letters|)), t, stop);
  }

  lemma CancelKeepsOwners(w: World, v: nat, observed: VaultState, closes: bool)
    ensures KeepsOwners(w, CancelStep(w, v, observed, closes))
  {
    hide NewestOpen;
  }

  lemma AggregateKeepsOwners(w: World, v: nat, observed: VaultState, frozen: bool, x: Evidence, completes: bool)
    ensures KeepsOwners(w, AggregateStep(w, v, observed, frozen, x, completes))
  {
    hide Verdict;
  }

  lemma ClaimKeepsOwners(w: World, t: Ticket)
    ensures KeepsOwners(w, ClaimStep(w, t))
  {}

  lemma PartKeepsOwners(w: World, t: Ticket, part: Part)
    ensures KeepsOwners(w, PerformWriteStep(w, t, part))
  {}

  lemma EventLetterKeepsOwners(w: World, l: nat, upTo: EventStop)
    ensures KeepsOwners(w, ReleaseEventLetterStep(w, l, upTo))
  {
    if EventLetterReady(w, l) {
      EventLetterTouches(w, l, upTo);
      hide ReleaseEventLetterStep, EventLetterReady;
    }
  }

  lemma EntryKeepsOwners(w: World, s: Step)
    requires s.Begin? || s.DuressEnter? || s.InsertEvent?
    ensures KeepsOwners(w, Apply(w, s))
  {}

  lemma StepKeepsOwners(w: World, s: Step)
    ensures s.Arm? || s.Trigger? || s.Disarm? || KeepsOwners(w, Apply(w, s))
    ensures Apply(w, s).vaults == w.vaults || KeepsOwners(w, Apply(w, s))
  {
    hide CancelStep, AggregateStep, ClaimStep, PerformStep, PerformWriteStep, ReleaseEventLetterStep, DueTickets;
    match s
    case Begin(_, _, _, _) => EntryKeepsOwners(w, s);
    case DuressEnter(_, _, _) => EntryKeepsOwners(w, s);
    case InsertEvent(_, _, _, _) => EntryKeepsOwners(w, s);
    case Cancel(v, observed, closes) => CancelKeepsOwners(w, v, observed, closes);
    case Aggregate(v, observed, frozen, x, completes) => AggregateKeepsOwners(w, v, observed, frozen, x, completes);
    case Claim(t) => ClaimKeepsOwners(w, t);
    case Perform(t, stop) => PerformKeepsOwners(w, t, stop);
    case PerformWrite(t, part) => PartKeepsOwners(w, t, part);
    case ReleaseEventLetter(l, upTo) => EventLetterKeepsOwners(w, l, upTo);
    case _ =>
  }

  /** Duress begins with a trigger, and ends with a disarm or an arm anew; nothing else touches it. */
  lemma DuressStep(w: World, s: Step, principal: nat)
    ensures InDuress(Apply(w, s), principal)
            <==> Triggers(w, s, principal) || (InDuress(w, principal) && !Clears(s, principal))
  {
    if !s.Arm? && !s.Trigger? && !s.Disarm? {
      StepKeepsOwners(w, s);
      hide Apply;
    }
  }

  /** What the principal chose when arming is what a trigger finds, however often it is triggered. */
  lemma DuressRowStep(w: World, s: Step, principal: nat)
    ensures var d := Apply(w, s).duress;
      && (principal in d
          <==> (s.Arm? && s.principal == principal) || (principal in w.duress && s != Disarm(principal)))
      && (principal in d ==>
            d[principal] == if s.Arm? && s.principal == principal then DuressRow(s.releases, false)
                            else w.duress[principal].(
                                   triggered := w.duress[principal].triggered || s == Trigger(principal)))
  {
    if !s.Arm? && !s.Trigger? && !s.Disarm? {
      StepKeepsOwners(w, s);
      hide Apply;
    }
  }

  /** Triggered at `j`, and not disarmed or armed anew before `n`. */
  ghost predicate DuressSince(w: World, run: seq<Step>, j: nat, n: nat, principal: nat)
    requires n <= |run|
  {
    && j < n && Triggers(At(w, run, j), run[j], principal)
    && forall m :: j < m < n ==> !Clears(run[m], principal)
  }

  lemma {:induction false} DuressBegins(w: World, run: seq<Step>, r: nat, n: nat, principal: nat)
    requires r <= n <= |run| && !InDuress(At(w, run, r), principal)
    ensures InDuress(At(w, run, n), principal) <==> exists j :: r <= j && DuressSince(w, run, j, n, principal)
  {
    hide Apply, InDuress, Triggers, Clears;
    if r < n {
      DuressBegins(w, run, r, n - 1, principal);
      DuressStep(At(w, run, n - 1), run[n - 1], principal);
      if Triggers(At(w, run, n - 1), run[n - 1], principal) {
        assert DuressSince(w, run, n - 1, n, principal);
      } else if j :| r <= j && DuressSince(w, run, j, n, principal) {
        assert DuressSince(w, run, j, n - 1, principal);
      }
      if InDuress(At(w, run, n - 1), principal) && !Clears(run[n - 1], principal) {
        var j :| r <= j && DuressSince(w, run, j, n - 1, principal);
        assert DuressSince(w, run, j, n, principal);
      }
    }
  }

  lemma {:induction false} PrincipalStays(w: World, run: seq<Step>, j: nat, v: nat)
    requires j <= |run| && v < |w.vaults|
    ensures v < |At(w, run, j).vaults| && At(w, run, j).vaults[v].principal == w.vaults[v].principal
  {
    hide Apply;
    if j > 0 {
      PrincipalStays(w, run, j - 1, v);
      StepKeepsOwners(At(w, run, j - 1), run[j - 1]);
    }
  }

  /** Exactly when the aggregator opens a cooling-off while its principal is in duress. The turn checked
      for duress after `r` steps and claims with step `n`: duress was triggered in between, and not
      cleared again. */
  lemma EntryUnderDuressIff(w: World, run: seq<Step>, r: nat, n: nat, v: nat)
    requires r <= n < |run| && v < |w.vaults|
    requires Ticks(run[n], v) && Enters(At(w, run, n), run[n], v) && run[n].frozen == Frozen(At(w, run, r), v)
    ensures Frozen(At(w, run, n), v)
            <==> exists j :: r <= j && DuressSince(w, run, j, n, w.vaults[v].principal)
  {
    EntryNeedsAlert(At(w, run, n), run[n], v);
    PrincipalStays(w, run, r, v);
    PrincipalStays(w, run, n, v);
    hide Apply, At, Enters, InDuress;
    DuressBegins(w, run, r, n, w.vaults[v].principal);
  }

  // ---- Default weights ----

  /** Evidence gathered with default weights under a policy they cannot satisfy; threshold 0.7
      is one. */
  ghost predicate OutOfReach(x: Evidence) {
    && (exists r: Reading :: r.maxGap > 0 && DefaultWeights(r.subscriptions) && x.score == ScoreOf(r))
    && !(AtLeast(DEFAULT_CEILING, x.threshold) && x.minClasses <= 3)
  }

  lemma ShippedPolicyOutOfReach(r: Reading, minClasses: nat)
    requires r.maxGap > 0 && DefaultWeights(r.subscriptions)
    ensures OutOfReach(Evidence(ScoreOf(r), 0.7, minClasses))
  {
    assert 0.7 * 0.7 == 0.49;
  }

  /** With default weights and the shipped threshold the aggregator never raises an alert and
      never opens a cooling-off, in any run, orderly or not. */
  lemma {:induction false} DefaultsNeverAlert(w: World, run: seq<Step>, j: nat, v: nat)
    requires j <= |run| && !InState(w, v, Alert)
    requires forall i :: 0 <= i < |run| && run[i].Aggregate? ==> OutOfReach(run[i].evidence)
    ensures !InState(At(w, run, j), v, Alert)
    ensures j < |run| && Ticks(run[j], v) ==> !Enters(At(w, run, j), run[j], v)
  {
    hide Apply;
    hide InState;
    if j > 0 {
      DefaultsNeverAlert(w, run, j - 1, v);
      var u := At(w, run, j - 1);
      if InState(At(w, run, j), v, Alert) {
        AlertHasEvidence(u, run[j - 1], v);
        var x := run[j - 1].evidence;
        DefaultAlertPossible(x.threshold, x.minClasses);
        assert false;
      }
    }
    if j < |run| && Ticks(run[j], v) && Enters(At(w, run, j), run[j], v) {
      EntryNeedsAlert(At(w, run, j), run[j], v);
    }
  }

  // ---- Where a turn leaves its vault ----

  /** The score is at least the threshold, over enough classes. (The score is the root of `sumSq`, clamped
      to 1; see ScoreThreshold.) */
  predicate FullEvidence(x: Evidence) {
    && (x.threshold <= 0.0 || (x.threshold <= 1.0 && x.score.sumSq >= x.threshold * x.threshold))
    && x.score.classes >= x.minClasses
  }

  /** The score is at least half the threshold, over one class. */
  predicate HalfEvidence(x: Evidence) {
    && (x.threshold <= 0.0 || (x.threshold <= 2.0 && 4.0 * x.score.sumSq >= x.threshold * x.threshold))
    && x.score.classes >= 1
  }

  /** The score is below a tenth. */
  predicate FaintEvidence(x: Evidence) {
    x.score.sumSq < 0.01
  }

  /** State by state, where a turn that read `s` wants its vault, `frozen` if it read duress. */
  predicate Lands(s: VaultState, frozen: bool, x: Evidence, s': VaultState) {
    && (s' == Active <==> (s == Active && !FullEvidence(x) && !HalfEvidence(x))
                          || (s == Suspicious && !FullEvidence(x) && FaintEvidence(x)))
    && (s' == Suspicious <==> (s == Active && !FullEvidence(x) && HalfEvidence(x))
                              || (s == Suspicious && !FullEvidence(x) && !FaintEvidence(x))
                              || (s == Alert && !HalfEvidence(x)))
    && (s' == Alert <==> ((s == Active || s == Suspicious) && FullEvidence(x))
                         || (s == Alert && HalfEvidence(x) && frozen))
    && (s' == CoolingOff <==> s == Alert && HalfEvidence(x) && !frozen)
  }

  lemma FullIsCrossed(x: Evidence)
    ensures FullEvidence(x) <==> ShouldAlert(x)
    ensures HalfEvidence(x) <==> SoftlyAbove(x)
    ensures FaintEvidence(x) <==> !AtLeast(x.score.sumSq, 0.1)
    ensures FullEvidence(x) && x.score.classes >= 1 ==> HalfEvidence(x)
  {
    var t := x.threshold;
    assert (t * 0.5) * (t * 0.5) * 4.0 == t * t;
    if 0.0 < t {
      PositiveProduct(t, t);
    }
  }

  lemma VerdictLands(observed: VaultState, frozen: bool, x: Evidence)
    requires observed in {Active, Suspicious, Alert}
    ensures Lands(observed, frozen, x,
                  if Verdict(observed, x) == CoolingOff && frozen then observed else Verdict(observed, x))
  {
    FullIsCrossed(x);
    hide FullEvidence, HalfEvidence, FaintEvidence, AtLeast;
  }

  /** The row of a vault that moves, and of one that begins to cool off now. */
  function Moved(row: VaultRow, s: VaultState, clock: int): VaultRow {
    if s == row.state then row
    else if s == CoolingOff then row.(state := CoolingOff, coolingOffStartedAt := Some(clock))
    else row.(state := s)
  }

  function Deadline(v: nat, row: VaultRow, clock: int): EventRow {
    EventRow(v, false, Some(clock + row.coolingOffSeconds), clock, None, None)
  }

  /** What any turn does, however long ago it read: it writes where it wants its vault without looking,
      unless that is COOLING_OFF; there it goes only from the state it read, with a deadline recorded if
      it completes. Nothing else changes. */
  lemma TurnEffect(w: World, v: nat, observed: VaultState, frozen: bool, x: Evidence, completes: bool)
    returns (next: VaultState)
    requires v < |w.vaults| && observed in {Active, Suspicious, Alert}
    ensures Lands(observed, frozen, x, next)
    ensures var w', row := Apply(w, Aggregate(v, observed, frozen, x, completes)), w.vaults[v];
      w' == if next == observed || (next == CoolingOff && row.state != observed) then w
            else if next != CoolingOff then w.(vaults := w.vaults[v := row.(state := next)])
            else w.(vaults := w.vaults[v := Moved(row, CoolingOff, w.clock)],
                    events := if completes then w.events + [Deadline(v, row, w.clock)] else w.events)
  {
    next := if Verdict(observed, x) == CoolingOff && frozen then observed else Verdict(observed, x);
    VerdictLands(observed, frozen, x);
    hide Verdict, Lands;
  }

  /** A turn that acts on what is. */
  lemma FreshTurnEffect(w: World, v: nat, x: Evidence, completes: bool)
    requires v < |w.vaults| && w.vaults[v].state in {Active, Suspicious, Alert}
    ensures var w', row := Apply(w, Aggregate(v, w.vaults[v].state, Frozen(w, v), x, completes)), w.vaults[v];
      && |w'.vaults| == |w.vaults| && Lands(row.state, Frozen(w, v), x, w'.vaults[v].state)
      && w' == w.(vaults := w.vaults[v := Moved(row, w'.vaults[v].state, w.clock)],
                  events := if w'.vaults[v].state == CoolingOff && completes then w.events + [Deadline(v, row, w.clock)]
                            else w.events)
  {
    var next := TurnEffect(w, v, w.vaults[v].state, Frozen(w, v), x, completes);
    hide Apply, Lands, Frozen;
  }

  // ---- From crossing evidence to COOLING_OFF ----

  /** A completed turn on fresh, crossing evidence, out of duress. */
  predicate LoudTurn(w: World, s: Step, v: nat) {
    && Ticks(s, v) && FreshTurn(w, s) && s.observed in {Active, Suspicious, Alert} && !s.frozen && s.completes
    && FullEvidence(s.evidence) && s.evidence.score.classes >= 1
  }

  /** Each step is a loud turn on `v` or leaves its state alone. */
  ghost predicate OnlyLoud(w: World, run: seq<Step>, v: nat) {
    forall j :: 0 <= j < |run| ==>
      LoudTurn(At(w, run, j), run[j], v) || SameState(At(w, run, j), At(w, run, j + 1), v)
  }

  ghost function LoudTurns(w: World, run: seq<Step>, j: nat, v: nat): nat
    requires j <= |run|
  {
    if j == 0 then 0
    else LoudTurns(w, run, j - 1, v) + if LoudTurn(At(w, run, j - 1), run[j - 1], v) then 1 else 0
  }

  function Heat(s: VaultState): nat {
    match s
    case Alert => 1
    case CoolingOff => 2
    case _ => 0
  }

  lemma LoudTurnRaises(w: World, s: Step, v: nat)
    requires LoudTurn(w, s, v)
    ensures v < |w.vaults| == |Apply(w, s).vaults|
    ensures var s', row := Apply(w, s).vaults[v].state, w.vaults[v];
      s' in {Active, Suspicious, Alert, CoolingOff} && Heat(s') == Heat(row.state) + 1
  {
    FreshTurnEffect(w, v, s.evidence, s.completes);
    FullIsCrossed(s.evidence);
    hide Apply, FullEvidence, HalfEvidence, FaintEvidence;
  }

  lemma LoudOrSame(w: World, run: seq<Step>, j: nat, v: nat)
    requires OnlyLoud(w, run, v) && j < |run|
    ensures LoudTurn(At(w, run, j), run[j], v) || SameState(At(w, run, j), At(w, run, j + 1), v)
  {}

  /** With no other actor on the vault, one completed turn on crossing evidence out of duress raises the
      alert, whether the vault was ACTIVE or SUSPICIOUS, and the next opens the cooling-off; there it
      stays. */
  lemma {:induction false} CrossingReleases(w: World, run: seq<Step>, j: nat, v: nat)
    requires v < |w.vaults| && w.vaults[v].state in {Active, Suspicious, Alert} && OnlyLoud(w, run, v) && j <= |run|
    ensures v < |At(w, run, j).vaults|
    ensures var s := At(w, run, j).vaults[v].state;
      && s in {Active, Suspicious, Alert, CoolingOff}
      && Heat(s) == Heat(w.vaults[v].state) + LoudTurns(w, run, j, v)
    ensures LoudTurns(w, run, j, v) >= 1 ==> At(w, run, j).vaults[v].state in {Alert, CoolingOff}
    ensures LoudTurns(w, run, j, v) >= 2 ==> At(w, run, j).vaults[v].state == CoolingOff
  {
    hide Apply, LoudTurn, OnlyLoud;
    if j > 0 {
      CrossingReleases(w, run, j - 1, v);
      var u := At(w, run, j - 1);
      LoudOrSame(w, run, j - 1, v);
      if LoudTurn(u, run[j - 1], v) {
        LoudTurnRaises(u, run[j - 1], v);
      }
    }
  }

  // ---- Recovery ----

  function Alarm(s: VaultState): nat {
    match s
    case Suspicious => 1
    case Alert => 2
    case _ => 0
  }

  predicate CalmTurn(w: World, s: Step, v: nat) {
    Ticks(s, v) && InState(w, v, s.observed) && Calm(s.evidence.score, s.evidence.threshold)
  }

  /** Each step is a calm turn on `v` or leaves its state alone. */
  ghost predicate OnlyCalm(w: World, run: seq<Step>, v: nat) {
    forall j :: 0 <= j < |run| ==>
      CalmTurn(At(w, run, j), run[j], v) || SameState(At(w, run, j), At(w, run, j + 1), v)
  }

  predicate SameState(a: World, b: World, v: nat) {
    v < |a.vaults| && v < |b.vaults| && a.vaults[v].state == b.vaults[v].state
  }

  ghost function CalmTurns(w: World, run: seq<Step>, j: nat, v: nat): nat
    requires j <= |run|
  {
    if j == 0 then 0
    else CalmTurns(w, run, j - 1, v) + if CalmTurn(At(w, run, j - 1), run[j - 1], v) then 1 else 0
  }

  /** A calm turn lowers the alarm by one level, down to ACTIVE. */
  lemma CalmTurnLowers(w: World, s: Step, v: nat)
    requires CalmTurn(w, s, v) && Watchable(w.vaults[v].state)
    ensures v < |Apply(w, s).vaults| && Watchable(Apply(w, s).vaults[v].state)
    ensures Alarm(Apply(w, s).vaults[v].state) == Max(Alarm(w.vaults[v].state) - 1, 0)
  {
    CalmNeverCrosses(s.evidence.score, s.evidence.threshold, s.evidence.minClasses);
  }

  lemma CalmOrSame(w: World, run: seq<Step>, j: nat, v: nat)
    requires OnlyCalm(w, run, v) && j < |run|
    ensures CalmTurn(At(w, run, j), run[j], v) || SameState(At(w, run, j), At(w, run, j + 1), v)
  {}

  /** With no other actor on the vault, calm turns bring it from any watchable state to ACTIVE
      within two turns, and keep it there. */
  lemma {:induction false} CalmRecovers(w: World, run: seq<Step>, j: nat, v: nat)
    requires v < |w.vaults| && Watchable(w.vaults[v].state) && OnlyCalm(w, run, v) && j <= |run|
    ensures v < |At(w, run, j).vaults| && Watchable(At(w, run, j).vaults[v].state)
    ensures Alarm(At(w, run, j).vaults[v].state)
            == Max(Alarm(w.vaults[v].state) - CalmTurns(w, run, j, v), 0)
    ensures CalmTurns(w, run, j, v) >= 2 ==> InState(At(w, run, j), v, Active)
  {
    hide Apply;
    hide CalmTurn;
    hide OnlyCalm;
    if j > 0 {
      CalmRecovers(w, run, j - 1, v);
      var u := At(w, run, j - 1);
      CalmOrSame(w, run, j - 1, v);
      if CalmTurn(u, run[j - 1], v) {
        CalmTurnLowers(u, run[j - 1], v);
      }
    }
  }
}
