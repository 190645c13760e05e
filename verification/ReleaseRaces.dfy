/**
 Runs of whole handlers that go wrong. Each clause of OrderlyStep is needed: four runs break one
 clause in one step only, and in three a vault is claimed for release before the deadline of its open
 event, in the fourth a release goes out although its cancellation was answered OK. Three more show a
 drill that reopens a released vault, an event that delivers twice, and a cooling-off opened during
 duress. (The exact conditions are in ReleaseDeadlines, ReleaseCancels, ReleaseRepeats, Escalation.)
 */
module ReleaseRaces {
  import opened Domain
  import opened Scoring
  import opened ReleaseModel
  import opened Deliveries
  import opened ReleaseInvariant
  import opened ReleaseSafety
  import opened ReleaseCounting
  import opened ReleaseRepeats
  import opened Escalation

  function Row(s: VaultState): VaultRow {
    VaultRow(0, s, 60, Some(0), None)
  }

  function Event(drill: bool, deadline: int, at: int, cancelled: Option<int>): EventRow {
    EventRow(0, drill, Some(deadline), at, None, cancelled)
  }

  /** One vault, no letters. */
  function Single(clock: int, row: VaultRow, events: seq<EventRow>, tickets: multiset<Ticket>): World {
    World(clock, [row], events, [], [], [], map[], tickets, multiset{})
  }

  function Fresh(s: VaultState): World {
    Single(0, VaultRow(0, s, 60, None, None), [], multiset{})
  }

  /** `worlds` are the worlds the run goes through. */
  ghost predicate Traces(worlds: seq<World>, run: seq<Step>) {
    |worlds| == |run| + 1 && forall j :: 0 <= j < |run| ==> worlds[j + 1] == Apply(worlds[j], run[j])
  }

  lemma {:induction false} TraceIsRun(worlds: seq<World>, run: seq<Step>, j: nat)
    requires Traces(worlds, run) && j <= |run|
    ensures At(worlds[0], run, j) == worlds[j]
  {
    hide Apply;
    if j > 0 {
      TraceIsRun(worlds, run, j - 1);
    }
  }

  /** One run after another. */
  lemma SplicedRun(a: seq<World>, first: seq<Step>, b: seq<World>, second: seq<Step>, j: nat)
    requires Traces(a, first) && Traces(b, second) && a[|first|] == b[0]
    requires j <= |first| + |second|
    ensures At(a[0], first + second, j) == if j < |first| then a[j] else b[j - |first|]
  {
    hide Apply;
    hide At;
    var k := |first|;
    var ws, run := a + b[1..], first + second;
    assert forall i :: k <= i < |run| ==> run[i] == second[i - k];
    assert forall i :: k <= i <= |run| ==> ws[i] == b[i - k];
    assert Traces(ws, run);
    TraceIsRun(ws, run, j);
  }

  /** In a world with one vault, disorder is a re-entry with a ticket out, an unclosed cancel or
      a stale aggregator write. */
  lemma StepOrder(w: World, w': World, s: Step)
    requires w' == Apply(w, s) && forall t :: t in w.tickets ==> t.vault == 0
    requires !HalfHandler(s) && (s.Cancel? ==> s.closes)
    requires s.Cancel? || s.Aggregate? ==> InState(w, s.v, s.observed)
    ensures OrderlyStep(w, s)
            <==> (w.tickets == multiset{} || InState(w, 0, CoolingOff) || !InState(w', 0, CoolingOff))
  {
    hide Apply;
    if w.tickets != multiset{} {
      var t :| t in w.tickets;
    }
  }

  /** Every step but number `k` of the run is orderly, and step `k` is not. */
  ghost predicate OrderlyBut(w: World, run: seq<Step>, k: nat) {
    forall j :: 0 <= j < |run| ==> (OrderlyStep(At(w, run, j), run[j]) <==> j != k)
  }

  /** A claim of vault 0 for release while its newest event, still open, is not due. */
  ghost predicate ClaimsEarly(w: World, s: Step) {
    && s.Claim? && s.t.vault == 0 && Wins(w, s.t)
    && |w.events| > 0 && w.events[|w.events| - 1].vault == 0 && w.events[|w.events| - 1].OpenTimed()
    && w.clock < w.events[|w.events| - 1].deadline.value
  }

  const CALM := Evidence(TriggerScore(0.0, 0), 0.7, 3)

  // ---- An old timer claims a new episode ----

  const DRILL_TIMER := Ticket(0, 0, true, 3)
  const REAL_TIMER := Ticket(0, 1, false, 60)

  /** A drill is cancelled, a real release begins, and the drill's timer wakes up. */
  function TimerRun(): seq<Step> {
    [Begin(0, true, 3, true), Cancel(0, CoolingOff, true), Begin(0, false, 60, true), Advance(3),
     Claim(DRILL_TIMER), Perform(DRILL_TIMER, Done)]
  }

  function TimerWorlds(): seq<World> {
    var drill, gone, live := Event(true, 3, 0, None), Event(true, 3, 0, Some(0)), Event(false, 60, 0, None);
    [Fresh(Active),
     Single(0, Row(CoolingOff), [drill], multiset{DRILL_TIMER}),
     Single(0, Row(Active), [gone], multiset{DRILL_TIMER}),
     Single(0, Row(CoolingOff), [gone, live], multiset{DRILL_TIMER, REAL_TIMER}),
     Single(3, Row(CoolingOff), [gone, live], multiset{DRILL_TIMER, REAL_TIMER}),
     Single(3, Row(Releasing), [gone, live], multiset{REAL_TIMER}).(performing := multiset{DRILL_TIMER}),
     Single(3, Row(Active).(releasedAt := Some(3)), [gone.(releasedAt := Some(3)), live], multiset{REAL_TIMER})]
  }

  lemma TimerTrace()
    ensures Traces(TimerWorlds(), TimerRun())
  {
    var ws, run := TimerWorlds(), TimerRun();
    TimerBegins();
    TimerBeginsAgain();
    TimerCancel();
    TimerClaim();
    PerformTrace();
    hide Apply;
    assert ws[1] == Apply(ws[0], run[0]) && ws[2] == Apply(ws[1], run[1]) && ws[3] == Apply(ws[2], run[2])
        && ws[4] == Apply(ws[3], run[3]) && ws[5] == Apply(ws[4], run[4]) && ws[6] == Apply(ws[5], run[5]);
  }

  lemma TimerBegins()
    ensures TimerWorlds()[1] == Apply(TimerWorlds()[0], TimerRun()[0])
  {
    hide CancelStep, AggregateStep, DuressEnterStep, ClaimStep, PerformStep, ReleaseEventLetterStep, PerformWriteStep;
  }

  lemma TimerBeginsAgain()
    ensures TimerWorlds()[3] == Apply(TimerWorlds()[2], TimerRun()[2])
  {
    hide CancelStep, AggregateStep, DuressEnterStep, ClaimStep, PerformStep, ReleaseEventLetterStep, PerformWriteStep;
  }

  lemma TimerCancel()
    ensures TimerWorlds()[2] == Apply(TimerWorlds()[1], TimerRun()[1])
  {
    assert NewestOpen(SetState(TimerWorlds()[1], 0, Active, None), 0, 1) == Some(0);
  }

  lemma TimerClaim()
    ensures TimerWorlds()[4] == Apply(TimerWorlds()[3], TimerRun()[3])
    ensures TimerWorlds()[5] == Apply(TimerWorlds()[4], TimerRun()[4])
  {}

  lemma PerformTrace()
    ensures TimerWorlds()[6] == Apply(TimerWorlds()[5], TimerRun()[5])
  {
    var w := TimerWorlds()[5];
    assert Delivery(w, 0, 0, 0) == [];
    assert DRILL_TIMER in w.performing;
  }

  lemma TimerOrder(j: nat)
    requires j < 6
    ensures OrderlyStep(TimerWorlds()[j], TimerRun()[j]) <==> j != 2
  {
    hide Apply;
    hide OrderlyStep;
    TimerTrace();
    var ws, run := TimerWorlds(), TimerRun();
    if j == 0 {
      StepOrder(ws[0], ws[1], run[0]);
    } else if j == 1 {
      StepOrder(ws[1], ws[2], run[1]);
    } else if j == 2 {
      StepOrder(ws[2], ws[3], run[2]);
      assert DRILL_TIMER in ws[2].tickets;
    } else {
      LateTimerOrder(j);
    }
  }

  lemma LateTimerOrder(j: nat)
    requires 3 <= j < 6
    ensures OrderlyStep(TimerWorlds()[j], TimerRun()[j])
  {
    hide Apply;
    hide OrderlyStep;
    TimerTrace();
    var ws, run := TimerWorlds(), TimerRun();
    if j == 3 {
      StepOrder(ws[3], ws[4], run[3]);
    } else if j == 4 {
      StepOrder(ws[4], ws[5], run[4]);
    } else {
      StepOrder(ws[5], ws[6], run[5]);
    }
  }

  /** The old timer claims the new episode 57 seconds early, releases it as a drill, and leaves
      the vault ACTIVE with the real release's event still open. */
  lemma OldTimerReleasesEarly()
    ensures Start(Fresh(Active)) && OrderlyBut(Fresh(Active), TimerRun(), 2)
    ensures ClaimsEarly(At(Fresh(Active), TimerRun(), 4), TimerRun()[4])
    ensures var u := At(Fresh(Active), TimerRun(), 6);
      InState(u, 0, Active) && |u.events| == 2 && u.events[1].OpenTimed()
  {
    hide Apply, OrderlyStep, ClaimsEarly, At, Traces, InState, Start;
    var ws, run := TimerWorlds(), TimerRun();
    assert ws[0] == Fresh(Active) && |ws| == 7 && |run| == 6;
    hide TimerWorlds, TimerRun, Fresh;
    TimerTrace();
    TimerEnds();
    forall j: nat | j < 6
      ensures At(ws[0], run, j) == ws[j] && (OrderlyStep(ws[j], run[j]) <==> j != 2)
    {
      TraceIsRun(ws, run, j);
      TimerOrder(j);
    }
    TraceIsRun(ws, run, 4);
    TraceIsRun(ws, run, 6);
  }

  lemma TimerEnds()
    ensures Start(TimerWorlds()[0]) && ClaimsEarly(TimerWorlds()[4], TimerRun()[4])
    ensures var u := TimerWorlds()[6]; InState(u, 0, Active) && |u.events| == 2 && u.events[1].OpenTimed()
  {
    var ws, run := TimerWorlds(), TimerRun();
    assert ClaimsEarly(ws[4], run[4]);
    assert Start(ws[0]);
    assert |ws[6].events| == 2 && ws[6].events[1].OpenTimed() && InState(ws[6], 0, Active);
  }

  // ---- An event outlives its episode ----

  const LOST_TIMER := Ticket(0, 0, false, 5)
  const NEW_TIMER := Ticket(0, 1, false, 65)

  /** The vault is ACTIVE again but its first event is still open and nobody holds a ticket for
      it. The event comes due, and the poll loop finds it once the vault is cooling off again. */
  function LeftoverRun(): seq<Step> {
    [Crash(multiset{LOST_TIMER}, multiset{}), Advance(5), Begin(0, false, 60, true), Poll, Claim(LOST_TIMER)]
  }

  function LeftoverWorlds(): seq<World> {
    var first, late := Event(false, 5, 0, None), Event(false, 65, 5, None);
    var row := Row(CoolingOff).(coolingOffStartedAt := Some(5));
    [Single(0, Row(Active), [first], multiset{LOST_TIMER}),
     Single(0, Row(Active), [first], multiset{}),
     Single(5, Row(Active), [first], multiset{}),
     Single(5, row, [first, late], multiset{NEW_TIMER}),
     Single(5, row, [first, late], multiset{NEW_TIMER, LOST_TIMER}),
     Single(5, row.(state := Releasing), [first, late], multiset{NEW_TIMER}).(performing := multiset{LOST_TIMER})]
  }

  lemma LeftoverTrace()
    ensures Traces(LeftoverWorlds(), LeftoverRun())
  {
    var ws, run := LeftoverWorlds(), LeftoverRun();
    LeftoverBegins();
    LeftoverPoll();
    LeftoverWins();
    hide Apply;
    assert ws[1] == Apply(ws[0], run[0]) && ws[2] == Apply(ws[1], run[1]) && ws[3] == Apply(ws[2], run[2])
        && ws[4] == Apply(ws[3], run[3]) && ws[5] == Apply(ws[4], run[4]);
  }

  lemma LeftoverBegins()
    ensures LeftoverWorlds()[1] == Apply(LeftoverWorlds()[0], LeftoverRun()[0])
    ensures LeftoverWorlds()[2] == Apply(LeftoverWorlds()[1], LeftoverRun()[1])
    ensures LeftoverWorlds()[3] == Apply(LeftoverWorlds()[2], LeftoverRun()[2])
  {
    hide CancelStep, AggregateStep, DuressEnterStep, ClaimStep, PerformStep, ReleaseEventLetterStep, PerformWriteStep;
  }

  lemma LeftoverPoll()
    ensures LeftoverWorlds()[4] == Apply(LeftoverWorlds()[3], LeftoverRun()[3])
  {
    var w := LeftoverWorlds()[3];
    assert DueTickets(w, 0) == [];
    assert DueTickets(w, 1) == [LOST_TIMER];
    assert DueTickets(w, 2) == [LOST_TIMER];
  }

  lemma LeftoverWins()
    ensures LeftoverWorlds()[5] == Apply(LeftoverWorlds()[4], LeftoverRun()[4])
  {}

  lemma LeftoverOrder(j: nat)
    requires j < 5
    ensures OrderlyStep(LeftoverWorlds()[j], LeftoverRun()[j])
  {
    LeftoverTrace();
    hide Apply;
    hide OrderlyStep;
    var ws, run := LeftoverWorlds(), LeftoverRun();
    if j == 0 {
      StepOrder(ws[0], ws[1], run[0]);
    } else if j == 1 {
      StepOrder(ws[1], ws[2], run[1]);
    } else if j == 2 {
      StepOrder(ws[2], ws[3], run[2]);
    } else if j == 3 {
      StepOrder(ws[3], ws[4], run[3]);
    } else {
      StepOrder(ws[4], ws[5], run[4]);
    }
  }

  /** The run leaves an event behind in its last step, and is orderly until then. */
  ghost predicate LeavesEvent(before: seq<World>, first: seq<Step>) {
    && Traces(before, first) && first != [] && before[|first|] == LeftoverWorlds()[0]
    && forall j :: 0 <= j < |first| ==> (OrderlyStep(before[j], first[j]) <==> j != |first| - 1)
  }

  lemma LeftoverStepOrder(before: seq<World>, first: seq<Step>, j: nat)
    requires LeavesEvent(before, first) && j < |first| + 5
    ensures OrderlyStep(At(before[0], first + LeftoverRun(), j), (first + LeftoverRun())[j]) <==> j != |first| - 1
  {
    LeftoverTrace();
    hide Apply;
    hide OrderlyStep;
    SplicedRun(before, first, LeftoverWorlds(), LeftoverRun(), j);
    hide At;
    hide Traces;
    hide LeftoverWorlds;
    if |first| <= j {
      LeftoverOrder(j - |first|);
    }
  }

  lemma LeftoverClaimEarly()
    ensures ClaimsEarly(LeftoverWorlds()[4], LeftoverRun()[4])
  {}

  lemma LeftoverClaim(before: seq<World>, first: seq<Step>)
    requires LeavesEvent(before, first)
    ensures ClaimsEarly(At(before[0], first + LeftoverRun(), |first| + 4), LeftoverRun()[4])
  {
    LeftoverTrace();
    LeftoverClaimEarly();
    hide Apply;
    hide OrderlyStep;
    hide ClaimsEarly;
    hide At;
    SplicedRun(before, first, LeftoverWorlds(), LeftoverRun(), |first| + 4);
  }

  /** Any such run, continued by LeftoverRun. */
  lemma LeftoverReleasesEarly(before: seq<World>, first: seq<Step>)
    requires LeavesEvent(before, first)
    ensures OrderlyBut(before[0], first + LeftoverRun(), |first| - 1)
    ensures ClaimsEarly(At(before[0], first + LeftoverRun(), |first| + 4), LeftoverRun()[4])
  {
    hide Apply;
    hide OrderlyStep;
    hide At;
    hide ClaimsEarly;
    assert |before| > 0 && first != [];
    hide LeavesEvent;
    forall j: nat | j < |first| + 5
      ensures OrderlyStep(At(before[0], first + LeftoverRun(), j), (first + LeftoverRun())[j]) <==> j != |first| - 1
    {
      LeftoverStepOrder(before, first, j);
    }
    LeftoverClaim(before, first);
  }

  /** A cancel whose event stays open: the lookup or the update failed, or the process died. */
  lemma UnclosedEventReleasesEarly()
    ensures var run := [Begin(0, false, 5, true), Cancel(0, CoolingOff, false)] + LeftoverRun();
      && Start(Fresh(Active)) && OrderlyBut(Fresh(Active), run, 1)
      && ClaimsEarly(At(Fresh(Active), run, 6), run[6])
  {
    var first := [Begin(0, false, 5, true), Cancel(0, CoolingOff, false)];
    var ws := [Fresh(Active), Single(0, Row(CoolingOff), [Event(false, 5, 0, None)], multiset{LOST_TIMER}),
               LeftoverWorlds()[0]];
    assert ws[1] == Apply(ws[0], first[0]);
    assert ws[2] == Apply(ws[1], first[1]);
    hide Apply;
    assert OrderlyStep(ws[0], first[0]);
    LeftoverReleasesEarly(ws, first);
    assert (first + LeftoverRun())[6] == LeftoverRun()[4];
  }

  /** Two replicas observe SUSPICIOUS; one writes ACTIVE, a release begins, and the other writes
      ACTIVE over it. */
  lemma StaleWriteReleasesEarly()
    ensures var run := [Aggregate(0, Suspicious, false, CALM, true), Begin(0, false, 5, true),
                        Aggregate(0, Suspicious, false, CALM, true)] + LeftoverRun();
      && Start(Fresh(Suspicious)) && OrderlyBut(Fresh(Suspicious), run, 2)
      && ClaimsEarly(At(Fresh(Suspicious), run, 7), run[7])
  {
    var first := [Aggregate(0, Suspicious, false, CALM, true), Begin(0, false, 5, true),
                  Aggregate(0, Suspicious, false, CALM, true)];
    var ws := [Fresh(Suspicious), Fresh(Active),
               Single(0, Row(CoolingOff), [Event(false, 5, 0, None)], multiset{LOST_TIMER}), LeftoverWorlds()[0]];
    assert Verdict(Suspicious, CALM) == Active;
    assert ws[1] == Apply(ws[0], first[0]);
    assert ws[2] == Apply(ws[1], first[1]);
    assert ws[3] == Apply(ws[2], first[2]);
    hide Apply;
    assert OrderlyStep(ws[0], first[0]);
    assert OrderlyStep(ws[1], first[1]);
    LeftoverReleasesEarly(ws, first);
    assert (first + LeftoverRun())[7] == LeftoverRun()[4];
  }

  // ---- A cancel that read too early ----

  const HEIR := LetterRow(0, SignalOnly, "heir@example.org", None)

  /** The release is due and claimed, then a cancel that had read COOLING_OFF writes. */
  function LateCancelRun(): seq<Step> {
    [Begin(0, false, 5, true), Advance(5), Claim(LOST_TIMER), Cancel(0, CoolingOff, true), Perform(LOST_TIMER, Done)]
  }

  function WithLetter(w: World): World {
    w.(letters := [HEIR])
  }

  function LateCancelWorlds(): seq<World> {
    var live, gone := Event(false, 5, 0, None), Event(false, 5, 0, Some(5));
    [WithLetter(Fresh(Active)),
     WithLetter(Single(0, Row(CoolingOff), [live], multiset{LOST_TIMER})),
     WithLetter(Single(5, Row(CoolingOff), [live], multiset{LOST_TIMER})),
     WithLetter(Single(5, Row(Releasing), [live], multiset{})).(performing := multiset{LOST_TIMER}),
     WithLetter(Single(5, Row(Active), [gone], multiset{})).(performing := multiset{LOST_TIMER}),
     WithLetter(Single(5, Row(Released).(releasedAt := Some(5)), [gone.(releasedAt := Some(5))], multiset{}))
       .(claims := [ClaimRow(0, LetterOf(0), HEIR.recipient, 5)])]
  }

  lemma LateCancelTrace()
    ensures Traces(LateCancelWorlds(), LateCancelRun())
  {
    var ws, run := LateCancelWorlds(), LateCancelRun();
    assert ws[1] == Apply(ws[0], run[0]);
    assert ws[2] == Apply(ws[1], run[1]);
    assert ws[3] == Apply(ws[2], run[2]);
    assert NewestOpen(SetState(ws[3], 0, Active, None), 0, 1) == Some(0);
    assert ws[4] == Apply(ws[3], run[3]);
    LateCancelPerform();
  }

  lemma LateCancelPerform()
    ensures LateCancelWorlds()[5] == Apply(LateCancelWorlds()[4], LateCancelRun()[4])
  {
    var w := LateCancelWorlds()[4];
    assert Delivery(w, 0, 0, 0) == [];
    assert AttachmentClaims(w, 0, 0, 0) == [];
    assert Delivery(w, 0, 0, 1) == [ClaimRow(0, LetterOf(0), HEIR.recipient, 5)];
    assert LOST_TIMER in w.performing;
  }

  lemma LateCancelOrder(j: nat)
    requires j < 5
    ensures OrderlyStep(LateCancelWorlds()[j], LateCancelRun()[j]) <==> j != 3
  {
    LateCancelTrace();
    hide Apply;
    var ws, run := LateCancelWorlds(), LateCancelRun();
    if j == 3 {
      assert !InState(ws[3], 0, CoolingOff);
    } else {
      hide OrderlyStep;
      StepOrder(ws[j], ws[j + 1], run[j]);
    }
  }

  /** The cancel answers OK and closes the event, and the letters go out under it all the same. */
  lemma LateCancelIsOverrun()
    ensures var w := WithLetter(Fresh(Active));
      && Start(w) && OrderlyBut(w, LateCancelRun(), 3)
      && InState(At(w, LateCancelRun(), 4), 0, Active)
      && At(w, LateCancelRun(), 5) == LateCancelWorlds()[5]
    ensures var u := LateCancelWorlds()[5];
      u.events[0].cancelledAt.Some? && u.claims == [ClaimRow(0, LetterOf(0), HEIR.recipient, 5)]
  {
    var ws, run := LateCancelWorlds(), LateCancelRun();
    hide Apply;
    hide OrderlyStep;
    LateCancelTrace();
    assert Start(ws[0]) && InState(ws[4], 0, Active);
    hide LateCancelWorlds;
    forall j: nat | j < 5
      ensures At(ws[0], run, j) == ws[j] && (OrderlyStep(ws[j], run[j]) <==> j != 3)
    {
      TraceIsRun(ws, run, j);
      LateCancelOrder(j);
    }
    TraceIsRun(ws, run, 5);
  }

  // ---- A drill that ends late ----

  const SLOW_DRILL := Ticket(0, 0, true, 3)
  const REAL_RELEASE := Ticket(0, 1, false, 4)

  /** A drill is claimed and then cancelled by a cancel that had read COOLING_OFF. While it still
      delivers, a real release begins, is claimed and completes. */
  function ReopenRun(): seq<Step> {
    [Begin(0, true, 3, true), Advance(3), Claim(SLOW_DRILL), Cancel(0, CoolingOff, true), Begin(0, false, 1, true),
     Advance(1), Claim(REAL_RELEASE), Perform(REAL_RELEASE, Done), Perform(SLOW_DRILL, Done)]
  }

  function ReopenWorlds(): seq<World> {
    var drill, gone := Event(true, 3, 0, None), Event(true, 3, 0, Some(3));
    var live, row := Event(false, 4, 3, None), Row(CoolingOff).(coolingOffStartedAt := Some(3));
    [Fresh(Active),
     Single(0, Row(CoolingOff), [drill], multiset{SLOW_DRILL}),
     Single(3, Row(CoolingOff), [drill], multiset{SLOW_DRILL}),
     Single(3, Row(Releasing), [drill], multiset{}).(performing := multiset{SLOW_DRILL}),
     Single(3, Row(Active), [gone], multiset{}).(performing := multiset{SLOW_DRILL}),
     Single(3, row, [gone, live], multiset{REAL_RELEASE}).(performing := multiset{SLOW_DRILL}),
     Single(4, row, [gone, live], multiset{REAL_RELEASE}).(performing := multiset{SLOW_DRILL}),
     Single(4, row.(state := Releasing), [gone, live], multiset{}).(performing := multiset{SLOW_DRILL, REAL_RELEASE}),
     Single(4, row.(state := Released, releasedAt := Some(4)), [gone, live.(releasedAt := Some(4))], multiset{})
       .(performing := multiset{SLOW_DRILL}),
     Single(4, row.(state := Active, releasedAt := Some(4)),
            [gone.(releasedAt := Some(4)), live.(releasedAt := Some(4))], multiset{})]
  }

  lemma ReopenTrace()
    ensures Traces(ReopenWorlds(), ReopenRun())
  {
    var ws, run := ReopenWorlds(), ReopenRun();
    assert |ws| == 10 && |run| == 9;
    hide ReopenWorlds, ReopenRun, Apply;
    DrillBegins();
    DrillClaimed();
    DrillCancelled();
    RealBegins();
    RealClaimed();
    RealPerformed();
    DrillPerformed();
    assert ws[1] == Apply(ws[0], run[0]) && ws[2] == Apply(ws[1], run[1]) && ws[3] == Apply(ws[2], run[2])
        && ws[4] == Apply(ws[3], run[3]) && ws[5] == Apply(ws[4], run[4]) && ws[6] == Apply(ws[5], run[5])
        && ws[7] == Apply(ws[6], run[6]) && ws[8] == Apply(ws[7], run[7]) && ws[9] == Apply(ws[8], run[8]);
  }

  lemma DrillBegins()
    ensures ReopenWorlds()[1] == Apply(ReopenWorlds()[0], ReopenRun()[0])
    ensures ReopenWorlds()[2] == Apply(ReopenWorlds()[1], ReopenRun()[1])
  {
    hide CancelStep, AggregateStep, DuressEnterStep, PerformStep, ReleaseEventLetterStep, PerformWriteStep;
  }

  lemma DrillClaimed()
    ensures ReopenWorlds()[3] == Apply(ReopenWorlds()[2], ReopenRun()[2])
  {
    hide BeginStep, CancelStep, AggregateStep, DuressEnterStep, PerformStep, ReleaseEventLetterStep, PerformWriteStep;
  }

  lemma DrillCancelled()
    ensures ReopenWorlds()[4] == Apply(ReopenWorlds()[3], ReopenRun()[3])
  {
    assert NewestOpen(SetState(ReopenWorlds()[3], 0, Active, None), 0, 1) == Some(0);
  }

  lemma RealBegins()
    ensures ReopenWorlds()[5] == Apply(ReopenWorlds()[4], ReopenRun()[4])
    ensures ReopenWorlds()[6] == Apply(ReopenWorlds()[5], ReopenRun()[5])
  {
    hide CancelStep, AggregateStep, DuressEnterStep, PerformStep, ReleaseEventLetterStep, PerformWriteStep;
  }

  lemma RealClaimed()
    ensures ReopenWorlds()[7] == Apply(ReopenWorlds()[6], ReopenRun()[6])
  {
    hide BeginStep, CancelStep, AggregateStep, DuressEnterStep, PerformStep, ReleaseEventLetterStep, PerformWriteStep;
  }

  lemma RealPerformed()
    ensures ReopenWorlds()[8] == Apply(ReopenWorlds()[7], ReopenRun()[7])
  {
    var w := ReopenWorlds()[7];
    assert Delivery(w, 1, 0, 0) == [];
    assert REAL_RELEASE in w.performing;
  }

  lemma DrillPerformed()
    ensures ReopenWorlds()[9] == Apply(ReopenWorlds()[8], ReopenRun()[8])
  {
    var w := ReopenWorlds()[8];
    assert Delivery(w, 0, 0, 0) == [];
    assert SLOW_DRILL in w.performing;
  }

  /** The drill's last write makes the RELEASED vault ACTIVE again, in a run of whole handlers. */
  lemma LateDrillReopens()
    ensures var w, run := Fresh(Active), ReopenRun();
      && Start(w) && (forall j :: 0 <= j < |run| ==> !HalfHandler(run[j])) && |run| == 9
      && InState(At(w, run, 8), 0, Released) && !Overwrites(run[8], 0) && InState(At(w, run, 9), 0, Active)
  {
    hide Apply, At, Traces, InState, Start, HalfHandler, Overwrites;
    var ws, run := ReopenWorlds(), ReopenRun();
    assert ws[0] == Fresh(Active) && |ws| == 10;
    ReopenTrace();
    ReopenEnds();
    hide ReopenWorlds, ReopenRun, Fresh;
    TraceIsRun(ws, run, 8);
    TraceIsRun(ws, run, 9);
  }

  lemma ReopenEnds()
    ensures Start(ReopenWorlds()[0]) && InState(ReopenWorlds()[8], 0, Released) && InState(ReopenWorlds()[9], 0, Active)
    ensures var run := ReopenRun();
      |run| == 9 && (forall j :: 0 <= j < |run| ==> !HalfHandler(run[j])) && !Overwrites(run[8], 0)
  {
    var ws := ReopenWorlds();
    assert Start(ws[0]);
    assert InState(ws[8], 0, Released) && InState(ws[9], 0, Active);
  }

  // ---- One event wins twice ----

  const NEXT_DRILL := Ticket(0, 1, true, 6)

  /** The poll loop lists a due drill whose timer is awake too; the timer wins, and a second drill lets
      the listed row win as well. */
  function TwiceRun(): seq<Step> {
    [Begin(0, true, 3, true), Advance(3), Poll, Claim(SLOW_DRILL), Perform(SLOW_DRILL, Done),
     Begin(0, true, 3, true), Claim(SLOW_DRILL), Perform(SLOW_DRILL, Done)]
  }

  function TwiceWorlds(): seq<World> {
    var drill, next := Event(true, 3, 0, None), Event(true, 6, 3, None);
    var done, sent := drill.(releasedAt := Some(3)), ClaimRow(0, LetterOf(0), HEIR.recipient, 3);
    var row := Row(CoolingOff).(coolingOffStartedAt := Some(3), releasedAt := Some(3));
    [WithLetter(Fresh(Active)),
     WithLetter(Single(0, Row(CoolingOff), [drill], multiset{SLOW_DRILL})),
     WithLetter(Single(3, Row(CoolingOff), [drill], multiset{SLOW_DRILL})),
     WithLetter(Single(3, Row(CoolingOff), [drill], multiset{SLOW_DRILL, SLOW_DRILL})),
     WithLetter(Single(3, Row(Releasing), [drill], multiset{SLOW_DRILL})).(performing := multiset{SLOW_DRILL}),
     WithLetter(Single(3, Row(Active).(releasedAt := Some(3)), [done], multiset{SLOW_DRILL})).(claims := [sent]),
     WithLetter(Single(3, row, [done, next], multiset{SLOW_DRILL, NEXT_DRILL})).(claims := [sent]),
     WithLetter(Single(3, row.(state := Releasing), [done, next], multiset{NEXT_DRILL}))
       .(claims := [sent], performing := multiset{SLOW_DRILL}),
     WithLetter(Single(3, row.(state := Active), [done, next], multiset{NEXT_DRILL})).(claims := [sent, sent])]
  }

  lemma TwiceTrace()
    ensures Traces(TwiceWorlds(), TwiceRun())
  {
    var ws, run := TwiceWorlds(), TwiceRun();
    assert |ws| == 9 && |run| == 8;
    hide TwiceWorlds, TwiceRun, Apply;
    TwiceBegins();
    TwicePolled();
    TwiceClaims();
    TwiceDelivers();
    TwiceBeginsAgain();
    TwiceClaimsAgain();
    TwiceDeliversAgain();
    assert ws[1] == Apply(ws[0], run[0]) && ws[2] == Apply(ws[1], run[1]) && ws[3] == Apply(ws[2], run[2])
        && ws[4] == Apply(ws[3], run[3]) && ws[5] == Apply(ws[4], run[4]) && ws[6] == Apply(ws[5], run[5])
        && ws[7] == Apply(ws[6], run[6]) && ws[8] == Apply(ws[7], run[7]);
  }

  lemma TwiceBegins()
    ensures TwiceWorlds()[1] == Apply(TwiceWorlds()[0], TwiceRun()[0])
    ensures TwiceWorlds()[2] == Apply(TwiceWorlds()[1], TwiceRun()[1])
  {
    hide CancelStep, AggregateStep, DuressEnterStep, PerformStep, ReleaseEventLetterStep, PerformWriteStep;
  }

  lemma TwicePolled()
    ensures TwiceWorlds()[3] == Apply(TwiceWorlds()[2], TwiceRun()[2])
  {
    var w := TwiceWorlds()[2];
    assert DueTickets(w, 0) == [];
    assert DueTickets(w, 1) == [SLOW_DRILL];
  }

  lemma TwiceClaims()
    ensures TwiceWorlds()[4] == Apply(TwiceWorlds()[3], TwiceRun()[3])
  {
    hide BeginStep, CancelStep, AggregateStep, DuressEnterStep, PerformStep, ReleaseEventLetterStep, PerformWriteStep;
  }

  lemma TwiceDelivers()
    ensures TwiceWorlds()[5] == Apply(TwiceWorlds()[4], TwiceRun()[4])
  {
    HeirDelivery(TwiceWorlds()[4]);
    assert SLOW_DRILL in TwiceWorlds()[4].performing;
  }

  lemma HeirDelivery(w: World)
    requires w.letters == [HEIR] && w.attachments == [] && w.clock == 3
    ensures Delivery(w, 0, 0, 1) == [ClaimRow(0, LetterOf(0), HEIR.recipient, 3)]
  {
    assert Delivery(w, 0, 0, 0) == [];
    assert AttachmentClaims(w, 0, 0, 0) == [];
  }

  lemma TwiceBeginsAgain()
    ensures TwiceWorlds()[6] == Apply(TwiceWorlds()[5], TwiceRun()[5])
  {
    hide CancelStep, AggregateStep, DuressEnterStep, PerformStep, ReleaseEventLetterStep, PerformWriteStep;
  }

  lemma TwiceClaimsAgain()
    ensures TwiceWorlds()[7] == Apply(TwiceWorlds()[6], TwiceRun()[6])
  {
    hide BeginStep, CancelStep, AggregateStep, DuressEnterStep, PerformStep, ReleaseEventLetterStep, PerformWriteStep;
  }

  lemma TwiceDeliversAgain()
    ensures TwiceWorlds()[8] == Apply(TwiceWorlds()[7], TwiceRun()[7])
  {
    HeirDelivery(TwiceWorlds()[7]);
    assert SLOW_DRILL in TwiceWorlds()[7].performing;
  }

  /** The first drill's event wins anew during the second drill, and its letter goes out twice. */
  lemma DrillDeliversTwice()
    ensures var w, run := WithLetter(Fresh(Active)), TwiceRun();
      && Start(w) && |run| == 8 && (forall j :: 0 <= j < |run| ==> !HalfHandler(run[j]))
      && WinsEvent(At(w, run, 3), run[3], 0) && WinsEvent(At(w, run, 6), run[6], 0)
      && RepeatsUnder(At(w, run, 8).claims, 0)
  {
    hide Apply, At, Traces, Start, HalfHandler, WinsEvent, RepeatsUnder;
    var ws, run := TwiceWorlds(), TwiceRun();
    assert ws[0] == WithLetter(Fresh(Active)) && |ws| == 9;
    TwiceTrace();
    TwiceEnds();
    hide TwiceWorlds, TwiceRun, Fresh;
    TraceIsRun(ws, run, 3);
    TraceIsRun(ws, run, 6);
    TraceIsRun(ws, run, 8);
  }

  lemma TwiceEnds()
    ensures var ws, run := TwiceWorlds(), TwiceRun();
      && Start(ws[0]) && |run| == 8 && (forall j :: 0 <= j < |run| ==> !HalfHandler(run[j]))
      && WinsEvent(ws[3], run[3], 0) && WinsEvent(ws[6], run[6], 0) && RepeatsUnder(ws[8].claims, 0)
  {
    var ws, run := TwiceWorlds(), TwiceRun();
    assert Start(ws[0]);
    assert Wins(ws[3], SLOW_DRILL) && Wins(ws[6], SLOW_DRILL);
    assert SameDelivery(ws[8].claims[0], ws[8].claims[1]);
  }

  // ---- Duress that comes between the check and the claim ----

  const LOUD := Evidence(TriggerScore(1.0, 3), 0.7, 3)

  /** The aggregator raises the alert; the webhook fires when its next turn has already found no duress. */
  function LateDuressRun(): seq<Step> {
    [Arm(0, false), Aggregate(0, Active, false, LOUD, true), Trigger(0), Aggregate(0, Alert, false, LOUD, true)]
  }

  function LateDuressWorlds(): seq<World> {
    var armed, fired := map[0 := DuressRow(false, false)], map[0 := DuressRow(false, true)];
    [Fresh(Active),
     Fresh(Active).(duress := armed),
     Fresh(Alert).(duress := armed),
     Fresh(Alert).(duress := fired),
     Single(0, Row(CoolingOff), [Event(false, 60, 0, None)], multiset{}).(duress := fired)]
  }

  lemma LateDuressTrace()
    ensures Traces(LateDuressWorlds(), LateDuressRun())
  {
    var ws, run := LateDuressWorlds(), LateDuressRun();
    assert ws[1] == Apply(ws[0], run[0]);
    LateDuressAlert();
    assert ws[3] == Apply(ws[2], run[2]);
    LateDuressEntry();
    hide Apply;
    assert Traces(ws, run);
  }

  lemma LateDuressAlert()
    ensures LateDuressWorlds()[2] == Apply(LateDuressWorlds()[1], LateDuressRun()[1])
  {
    assert Verdict(Active, LOUD) == Alert;
  }

  lemma LateDuressEntry()
    ensures LateDuressWorlds()[4] == Apply(LateDuressWorlds()[3], LateDuressRun()[3])
  {
    assert Verdict(Alert, LOUD) == CoolingOff;
  }

  /** Every turn carries what it read, the last before the trigger; the vault cools off all the same. */
  lemma LateDuressEnters()
    ensures var w, run := Fresh(Active), LateDuressRun();
      && Start(w) && run[1].frozen == Frozen(At(w, run, 1), 0) && run[3].frozen == Frozen(At(w, run, 2), 0)
      && Enters(At(w, run, 3), run[3], 0) && Frozen(At(w, run, 3), 0)
  {
    var ws, run := LateDuressWorlds(), LateDuressRun();
    LateDuressTrace();
    TraceIsRun(ws, run, 1);
    TraceIsRun(ws, run, 2);
    TraceIsRun(ws, run, 3);
    assert ws[4] == Apply(ws[3], run[3]);
    hide Apply, At;
    assert Start(ws[0]) && Enters(ws[3], run[3], 0);
  }
}
