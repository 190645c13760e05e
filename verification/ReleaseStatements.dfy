/**
 Whole handlers are runs of their statements. What ReleaseCounting, ReleaseCancels and Escalation say of
 any run of statements therefore holds of whole handlers with other actors anywhere between the
 statements they consist of.
 */
module ReleaseStatements {
  import opened Domain
  import opened ReleaseModel
  import opened Deliveries

  lemma {:induction false} AtPrefix(w: World, run: seq<Step>, more: seq<Step>, j: nat)
    requires j <= |run|
    ensures At(w, run + more, j) == At(w, run, j)
  {
    hide Apply;
    if j > 0 {
      AtPrefix(w, run, more, j - 1);
    }
  }

  lemma AtAppend(w: World, run: seq<Step>, s: Step)
    ensures At(w, run + [s], |run| + 1) == Apply(At(w, run, |run|), s)
  {
    hide Apply;
    AtPrefix(w, run, [s], |run|);
  }

  lemma AtOne(w: World, s: Step)
    ensures At(w, [s], 1) == Apply(w, s)
  {
    hide Apply;
    AtAppend(w, [], s);
    assert [] + [s] == [s];
  }

  lemma AtTwo(w: World, s: Step, s1: Step)
    ensures At(w, [s, s1], 2) == Apply(Apply(w, s), s1)
  {
    hide Apply;
    AtOne(w, s);
    AtAppend(w, [s], s1);
    assert [s] + [s1] == [s, s1];
  }

  lemma {:induction false} AtConcat(w: World, run: seq<Step>, more: seq<Step>)
    ensures At(w, run + more, |run| + |more|) == At(At(w, run, |run|), more, |more|)
    decreases |more|
  {
    hide Apply;
    if more == [] {
      assert run + more == run;
    } else {
      var n := |more| - 1;
      AtConcat(w, run, more[..n]);
      AtAppend(w, run + more[..n], more[n]);
      AtAppend(At(w, run, |run|), more[..n], more[n]);
      assert more[..n] + [more[n]] == more && run + more[..n] + [more[n]] == run + more;
    }
  }

  // ---- Entries ----

  lemma BeginParts(w: World, v: nat, drill: bool, cool: int)
    requires v < |w.vaults| && w.vaults[v].state == Active
    ensures var due := Some(w.clock + if cool < 1 then 1 else cool);
      Apply(Apply(w, Begin(v, drill, cool, false)), InsertEvent(v, drill, due, true))
      == Apply(w, Begin(v, drill, cool, true))
  {}

  /** A begin: the claim, then the event and the timer. */
  lemma WholeBegin(w: World, v: nat, drill: bool, cool: int)
    requires v < |w.vaults| && w.vaults[v].state == Active
    ensures var due := Some(w.clock + if cool < 1 then 1 else cool);
      At(w, [Begin(v, drill, cool, false), InsertEvent(v, drill, due, true)], 2)
          == Apply(w, Begin(v, drill, cool, true))
  {
    hide At, Apply;
    BeginParts(w, v, drill, cool);
    AtTwo(w, Begin(v, drill, cool, false), InsertEvent(v, drill, Some(w.clock + if cool < 1 then 1 else cool), true));
  }

  lemma EntryParts(w: World, v: nat, from: VaultState)
    requires v < |w.vaults| && w.vaults[v].state == from
    ensures EnterDurably(w, v, from, true)
            == InsertEventStep(EnterDurably(w, v, from, false), v, false,
                               Some(w.clock + w.vaults[v].coolingOffSeconds), false)
  {}

  lemma AggregateParts(w: World, v: nat, observed: VaultState, frozen: bool, x: Evidence)
    requires v < |w.vaults| && w.vaults[v].state == observed != CoolingOff
    ensures var half := Apply(w, Aggregate(v, observed, frozen, x, false));
      Apply(w, Aggregate(v, observed, frozen, x, true))
      == if InState(half, v, CoolingOff)
         then Apply(half, InsertEvent(v, false, Some(w.clock + w.vaults[v].coolingOffSeconds), false))
         else half
  {
    hide Verdict, InsertEventStep, SetState, CreateEvent, EnterDurably;
    EntryParts(w, v, observed);
    Enters(w, v, observed);
    SetStateTouches(w, v, Verdict(observed, x), None);
  }

  lemma Enters(w: World, v: nat, from: VaultState)
    requires v < |w.vaults| && w.vaults[v].state == from
    ensures InState(EnterDurably(w, v, from, false), v, CoolingOff)
  {}

  /** The aggregator's entry: the claim, then the event. */
  lemma WholeAggregate(w: World, v: nat, observed: VaultState, frozen: bool, x: Evidence)
    requires v < |w.vaults| && w.vaults[v].state == observed != CoolingOff
    ensures var half, whole := Aggregate(v, observed, frozen, x, false), Aggregate(v, observed, frozen, x, true);
      Apply(w, whole)
      == if InState(Apply(w, half), v, CoolingOff)
         then At(w, [half, InsertEvent(v, false, Some(w.clock + w.vaults[v].coolingOffSeconds), false)], 2)
         else Apply(w, half)
  {
    hide Apply, At;
    AggregateParts(w, v, observed, frozen, x);
    AtTwo(w, Aggregate(v, observed, frozen, x, false),
          InsertEvent(v, false, Some(w.clock + w.vaults[v].coolingOffSeconds), false));
  }

  /** And the duress webhook's. */
  lemma WholeDuress(w: World, v: nat, observed: VaultState)
    requires v < |w.vaults| && w.vaults[v].state == observed && Watchable(observed)
    ensures At(w, [DuressEnter(v, observed, false),
                   InsertEvent(v, false, Some(w.clock + w.vaults[v].coolingOffSeconds), false)], 2)
            == Apply(w, DuressEnter(v, observed, true))
  {
    hide InsertEventStep, EnterDurably, At;
    EntryParts(w, v, observed);
    AtTwo(w, DuressEnter(v, observed, false),
          InsertEvent(v, false, Some(w.clock + w.vaults[v].coolingOffSeconds), false));
  }

  lemma CancelParts(w: World, v: nat)
    requires v < |w.vaults|
    ensures CancelStep(w, v, CoolingOff, false) == SetState(w, v, Active, None)
    ensures CancelStep(w, v, CoolingOff, true)
            == match NewestOpen(w, v, |w.events|)
               case None => SetState(w, v, Active, None)
               case Some(e) => MarkCancelled(SetState(w, v, Active, None), e)
  {
    SetStateTouches(w, v, Active, None);
    NewestReads(w, SetState(w, v, Active, None), v, |w.events|);
    hide NewestOpen, MarkCancelled, SetState;
  }

  /** A cancel: the vault, then the newest open event, if there is one. */
  lemma WholeCancel(w: World, v: nat)
    requires v < |w.vaults|
    ensures var whole := Apply(w, Cancel(v, CoolingOff, true));
      match NewestOpen(w, v, |w.events|)
      case None => whole == Apply(w, Cancel(v, CoolingOff, false))
      case Some(e) => whole == At(w, [Cancel(v, CoolingOff, false), CloseEvent(e)], 2)
  {
    hide NewestOpen, MarkCancelled, SetState, At, CancelStep;
    CancelParts(w, v);
    var found := NewestOpen(w, v, |w.events|);
    if found.Some? {
      AtTwo(w, Cancel(v, CoolingOff, false), CloseEvent(found.value));
    }
  }

  lemma {:induction false} NewestReads(w: World, w1: World, v: nat, n: nat)
    requires w1.events == w.events && n <= |w.events|
    ensures NewestOpen(w1, v, n) == NewestOpen(w, v, n)
  {
    if n > 0 {
      NewestReads(w, w1, v, n - 1);
    }
  }

  // ---- Releases ----

  function Issues(t: Ticket, rows: seq<ClaimRow>): seq<Step> {
    if rows == [] then []
    else
      var n := |rows| - 1;
      Issues(t, rows[..n]) + [PerformWrite(t, Issue(rows[n].subject, rows[n].recipient))]
  }

  lemma {:induction false} IssuesDeliver(w: World, t: Ticket, rows: seq<ClaimRow>)
    requires t in w.performing && forall c :: c in rows ==> c.event == t.event && c.issuedAt == w.clock
    ensures |Issues(t, rows)| == |rows| && forall s :: s in Issues(t, rows) ==> s.PerformWrite? && s.t == t
    ensures At(w, Issues(t, rows), |rows|) == w.(claims := w.claims + rows)
  {
    if rows != [] {
      hide At, Apply;
      var n := |rows| - 1;
      var w1 := w.(claims := w.claims + rows[..n]);
      IssuesDeliver(w, t, rows[..n]);
      AtAppend(w, Issues(t, rows[..n]), PerformWrite(t, Issue(rows[n].subject, rows[n].recipient)));
      assert rows == rows[..n] + [rows[n]];
      OneIssue(w1, t, rows[n]);
      assert w.claims + rows == w1.claims + [rows[n]];
    }
  }

  lemma OneIssue(w: World, t: Ticket, row: ClaimRow)
    requires t in w.performing && row.event == t.event && row.issuedAt == w.clock
    ensures Apply(w, PerformWrite(t, Issue(row.subject, row.recipient))) == w.(claims := w.claims + [row])
  {}

  /** The closing statements it gets to. */
  function Closing(t: Ticket, stop: Stop): seq<Step> {
    match stop
    case DeliveryFails(_) => []
    case AfterReleased => [PerformWrite(t, StateReleased)]
    case AfterMarked => [PerformWrite(t, StateReleased), PerformWrite(t, EventMarked)]
    case Done => [PerformWrite(t, StateReleased), PerformWrite(t, EventMarked), PerformWrite(t, StateActive)]
  }

  lemma ClosingCloses(w: World, t: Ticket, stop: Stop)
    requires t in w.performing && !stop.DeliveryFails?
    ensures At(w, Closing(t, stop), |Closing(t, stop)|) == CloseStep(w, t, stop)
  {
    hide At, SetState, MarkReleased;
    var w1 := SetState(w, t.vault, Released, Some(w.clock));
    SetStateTouches(w, t.vault, Released, Some(w.clock));
    MarkReleasedTouches(w1, t.event);
    AtOne(w, PerformWrite(t, StateReleased));
    AtTwo(w, PerformWrite(t, StateReleased), PerformWrite(t, EventMarked));
    if stop == Done {
      AtAppend(w, [PerformWrite(t, StateReleased), PerformWrite(t, EventMarked)], PerformWrite(t, StateActive));
      assert Closing(t, stop)
          == [PerformWrite(t, StateReleased), PerformWrite(t, EventMarked)] + [PerformWrite(t, StateActive)];
    }
  }

  /** Who is inside perform_release makes no difference to what it writes. */
  lemma ClosingReads(w: World, t: Ticket, stop: Stop, ps: multiset<Ticket>)
    ensures CloseStep(w.(performing := ps), t, stop) == CloseStep(w, t, stop).(performing := ps)
  {}

  /** perform_release: a claim at a time, then the vault, the event and, in a drill, the vault again;
      wherever it stops. */
  lemma WholePerform(w: World, t: Ticket, stop: Stop) returns (run: seq<Step>)
    requires t in w.performing
    ensures run == Issues(t, Issued(w, t, stop)) + Closing(t, stop) + [PerformEnd(t)]
    ensures At(w, run, |run|) == Apply(w, Perform(t, stop))
  {
    hide Delivery, Issues, CloseStep, Closing, At, Prefix;
    var rows, closing := Issued(w, t, stop), Closing(t, stop);
    IssuedStamped(w, t, stop);
    IssuesDeliver(w, t, rows);
    AtConcat(w, Issues(t, rows), closing);
    AtAppend(w, Issues(t, rows) + closing, PerformEnd(t));
    run := Issues(t, rows) + closing + [PerformEnd(t)];
    var w1 := w.(claims := w.claims + rows);
    if stop.DeliveryFails? {
      NoClosing(w1, t, stop);
    } else {
      ClosingCloses(w1, t, stop);
      CloseTouches(w1, t, stop);
      ClosingReads(w1, t, stop, w.performing - multiset{t});
    }
  }

  lemma IssuedStamped(w: World, t: Ticket, stop: Stop)
    ensures forall c :: c in Issued(w, t, stop) ==> c.event == t.event && c.issuedAt == w.clock
  {
    DeliveryStamp(w, t.event, t.vault);
    hide Delivery;
  }

  lemma NoClosing(w: World, t: Ticket, stop: Stop)
    requires stop.DeliveryFails?
    ensures At(w, Closing(t, stop), |Closing(t, stop)|) == w
  {}
}
