/**
 What the protocol makes of `can_transition` (crates/beacon-core/src/lib.rs:748-763). Of all writes only
 the force-release asks it; here is which of its edges are taken, and what is taken besides.
 */
module ReleaseEdges {
  import opened Domain
  import opened Scoring
  import opened ReleaseModel
  import opened ReleaseInvariant
  import opened ReleaseSafety

  /** An orderly step takes vault `v` from one state to another. */
  ghost predicate Takes(w: World, s: Step, v: nat, from: VaultState, to: VaultState) {
    Inv(w) && OrderlyStep(w, s) && InState(w, v, from) && InState(Apply(w, s), v, to)
  }

  predicate Shortcut(from: VaultState, to: VaultState) {
    (from, to) in {(Active, Alert), (Suspicious, CoolingOff), (Releasing, Active)}
  }

  /** Orderly steps take every edge but the one to ARCHIVED, which nothing writes, and three shortcuts: an
      alert from ACTIVE, a duress release from SUSPICIOUS, and a drill that ends where it began. */
  lemma EdgesTakenIff(from: VaultState, to: VaultState)
    requires from != to
    ensures (exists w, s, v :: Takes(w, s, v, from, to))
            <==> (CanTransition(from, to) && to != Archived) || Shortcut(from, to)
    ensures CanTransition(from, Archived) <==> from == Released
  {
    if w, s, v :| Takes(w, s, v, from, to) {
      OnlyEdges(w, s, v, from, to);
    }
    if (CanTransition(from, to) && to != Archived) || Shortcut(from, to) {
      hide Takes;
      match from
      case Releasing => ReleaseTakes(to);
      case CoolingOff => if to == Active { CancelTakes(); } else { ClaimTakes(); }
      case _ => if to == CoolingOff { EntryTakes(from); } else { WatchTakes(from, to); }
    }
  }

  lemma OnlyEdges(w: World, s: Step, v: nat, from: VaultState, to: VaultState)
    requires from != to && Takes(w, s, v, from, to)
    ensures to != Archived
    ensures CanTransition(from, to) || (from == Active && to == Alert && s.Aggregate?)
            || (from == Suspicious && to == CoolingOff && s.DuressEnter?)
            || (from == Releasing && to == Active && s.Perform? && s.t.drill)
  {
    WhoWrites(w, s, v, to);
    hide Apply, EventsInv, TicketsInv, ClaimsInv, Enters;
    if s.Aggregate? {
      EvaluateFollowsEdges(s.observed, s.evidence.score, s.evidence.threshold, s.evidence.minClasses);
      hide Evaluate;
    }
  }

  // ---- A world for each ----

  function OneVault(state: VaultState, events: seq<EventRow>, tickets: multiset<Ticket>,
                    performing: multiset<Ticket>): World
  {
    World(0, [VaultRow(0, state, 0, None, None)], events, [], [], [], map[], tickets, performing)
  }

  function Due(drill: bool): EventRow {
    EventRow(0, drill, Some(0), 0, None, None)
  }

  lemma RestingInv(state: VaultState)
    ensures Inv(OneVault(state, [], multiset{}, multiset{}))
  {}

  lemma WatchTakes(from: VaultState, to: VaultState)
    requires Watchable(from) && Watchable(to) && from != to && !(from == Alert && to == Active)
    ensures exists w, s, v :: Takes(w, s, v, from, to)
  {
    var w := OneVault(from, [], multiset{}, multiset{});
    RestingInv(from);
    var score := if to == Alert then TriggerScore(1.0, 1) else if from == Active then TriggerScore(0.1, 1)
                 else TriggerScore(0.0, 0);
    assert Takes(w, Aggregate(0, from, false, Evidence(score, 0.5, 1), true), 0, from, to);
  }

  lemma EntryTakes(from: VaultState)
    requires Watchable(from)
    ensures exists w, s, v :: Takes(w, s, v, from, CoolingOff)
  {
    var w := OneVault(from, [], multiset{}, multiset{});
    RestingInv(from);
    var s := if from == Active then Begin(0, false, 0, false) else DuressEnter(0, from, false);
    assert Takes(w, s, 0, from, CoolingOff);
  }

  lemma CancelTakes()
    ensures exists w, s, v :: Takes(w, s, v, CoolingOff, Active)
  {
    RestingInv(CoolingOff);
    assert Takes(OneVault(CoolingOff, [], multiset{}, multiset{}), Cancel(0, CoolingOff, true), 0, CoolingOff, Active);
  }

  lemma ClaimTakes()
    ensures exists w, s, v :: Takes(w, s, v, CoolingOff, Releasing)
  {
    var t := Ticket(0, 0, false, 0);
    assert Takes(OneVault(CoolingOff, [Due(false)], multiset{t}, multiset{}), Claim(t), 0, CoolingOff, Releasing);
  }

  lemma ReleasingInv(drill: bool)
    ensures Inv(OneVault(Releasing, [Due(drill)], multiset{}, multiset{Ticket(0, 0, drill, 0)}))
  {}

  lemma ReleaseTakes(to: VaultState)
    requires to == Active || to == Released
    ensures exists w, s, v :: Takes(w, s, v, Releasing, to)
  {
    var drill := to == Active;
    var t := Ticket(0, 0, drill, 0);
    var w := OneVault(Releasing, [Due(drill)], multiset{}, multiset{t});
    ReleasingInv(drill);
    PerformTouches(w, t, Done);
    hide Inv, PerformStep, MarkReleased, Issued;
    assert Takes(w, Perform(t, Done), 0, Releasing, to);
  }
}
