/**
 When a cancel stops its release. The cancel handler reads the vault, and writes later without
 looking again; what it has read may be gone. Nothing here but the section on orderly runs
 assumes one: any other actor may come between the statements of any handler.
 */
module ReleaseCancels {
  import opened Domain
  import opened ReleaseModel
  import opened Deliveries
  import opened ReleaseInvariant
  import opened ReleaseSafety
  import opened ReleaseCounting
  import opened ReleaseRepeats

  // ---- What has happened by the time of the write ----

  /** A claim for the event won at `j`, and the release has not ended with nothing issued since. */
  ghost predicate ReleasedSince(w: World, run: seq<Step>, j: nat, k: nat, e: nat)
    requires k <= |run|
  {
    && j < k && WinsEvent(At(w, run, j), run[j], e)
    && forall m :: j < m < k ==> !Abandons(At(w, run, m), run[m], e)
  }

  lemma {:induction false} StartedIff(w: World, run: seq<Step>, i: nat, k: nat, e: nat)
    requires i <= k <= |run| && e < |At(w, run, i).events| && !Started(At(w, run, i), e)
    ensures Started(At(w, run, k), e) <==> exists j :: i <= j && ReleasedSince(w, run, j, k, e)
  {
    hide Apply, Started, WinsEvent;
    if i < k {
      var u, s := At(w, run, k - 1), run[k - 1];
      StartedIff(w, run, i, k - 1, e);
      RunKeepsEvents(w, run, i, k - 1);
      if Started(At(w, run, k), e) {
        StartedStep(u, s, e);
        if Started(u, e) {
          var j :| i <= j && ReleasedSince(w, run, j, k - 1, e);
          assert ReleasedSince(w, run, j, k, e);
        } else {
          assert ReleasedSince(w, run, k - 1, k, e);
        }
      }
      if j :| i <= j && ReleasedSince(w, run, j, k, e) {
        if j == k - 1 {
          WinStarts(u, s, e);
        } else {
          assert ReleasedSince(w, run, j, k - 1, e);
        }
      }
    }
  }

  // ---- What can come after the cancel's write ----

  /** Without a new cooling-off of `v` the run gets something delivered under the event. */
  ghost predicate Delivers(w: World, run: seq<Step>, v: nat, e: nat, whole: bool) {
    && (forall j :: 0 <= j < |run| ==> !Enters(At(w, run, j), run[j], v) && (whole ==> !HalfHandler(run[j])))
    && HasClaims(At(w, run, |run|), e)
  }

  /** Something has been, or can still be, delivered under the event before its vault cools off anew;
      with `whole`, by handlers nobody interrupts. */
  ghost predicate CanDeliver(w: World, v: nat, e: nat, whole: bool) {
    exists run: seq<Step> :: Delivers(w, run, v, e, whole)
  }

  lemma {:induction false} NothingFollows(w: World, run: seq<Step>, v: nat, e: nat, j: nat)
    requires WorkBound(w) && e < |w.events| && w.events[e].vault == v
    requires !Started(w, e) && !InState(w, v, CoolingOff) && j <= |run|
    requires forall k :: 0 <= k < |run| ==> !Enters(At(w, run, k), run[k], v)
    ensures var u := At(w, run, j);
      WorkBound(u) && KeepsEvents(w.events, u.events) && !Started(u, e) && !InState(u, v, CoolingOff)
  {
    hide Apply, WorkBound, NewWork, KeepsEvents, Started, InState, Wins;
    if j == 0 {
      PrefixKeeps(w.events, w.events);
    } else {
      var u, s := At(w, run, j - 1), run[j - 1];
      NothingFollows(w, run, v, e, j - 1);
      StepKeepsEvents(u, s);
      StepNewWork(u, s);
      WorkKept(u, Apply(u, s));
      KeepsTrans(w.events, u.events, Apply(u, s).events);
      SameVault(w.events, u.events, e);
      if Started(Apply(u, s), e) {
        StartedStep(u, s, e);
        WinnerCools(u, s, e);
      }
    }
  }

  lemma SameVault(es: seq<EventRow>, es': seq<EventRow>, e: nat)
    requires KeepsEvents(es, es') && e < |es|
    ensures e < |es'| && es'[e].vault == es[e].vault
  {
    assert KeepsEvent(es[e], es'[e]);
  }

  lemma WinnerCools(w: World, s: Step, e: nat)
    requires WorkBound(w) && WinsEvent(w, s, e)
    ensures e < |w.events| && InState(w, w.events[e].vault, CoolingOff)
  {}

  lemma UnstartedCannot(w: World, v: nat, e: nat, whole: bool)
    requires WorkBound(w) && e < |w.events| && w.events[e].vault == v
    requires !Started(w, e) && !InState(w, v, CoolingOff)
    ensures !CanDeliver(w, v, e, whole)
  {
    hide WorkBound, InState, Enters;
    forall run: seq<Step>
      ensures !Delivers(w, run, v, e, whole)
    {
      if forall j :: 0 <= j < |run| ==> !Enters(At(w, run, j), run[j], v) {
        NothingFollows(w, run, v, e, |run|);
      }
    }
  }

  /** Whoever is in perform_release can still issue: at the latest for a letter sealed just now. */
  lemma DeliveringCan(w: World, t: Ticket, whole: bool)
    requires t in w.performing && InState(w, t.vault, Active)
    ensures CanDeliver(w, t.vault, t.event, whole)
  {
    hide Apply, PerformStep, InState, Enters, FiresIn, Delivers, CanDeliver;
    var seal, perform := SealLetter(t.vault, SignalOnly, "", 0), Perform(t, Done);
    var w1 := Apply(w, seal);
    SealedNow(w, t.vault);
    IssuesSealed(w1, t, |w.letters|);
    PerformApplied(w1, t);
    NotEntered(w, seal, t.vault);
    NotEntered(w1, perform, t.vault);
    TwoSteps(w, seal, perform, t.vault, t.event, whole);
  }

  lemma PerformApplied(w: World, t: Ticket)
    ensures Apply(w, Perform(t, Done)) == PerformStep(w, t, Done)
  {
    hide PerformStep;
  }

  lemma TwoSteps(w: World, s: Step, r: Step, v: nat, e: nat, whole: bool)
    requires !HalfHandler(s) && !HalfHandler(r) && !Enters(w, s, v) && !Enters(Apply(w, s), r, v)
    requires HasClaims(Apply(Apply(w, s), r), e)
    ensures CanDeliver(w, v, e, whole)
  {
    hide Apply, Enters, HasClaims;
    var run := [s, r];
    assert At(w, run, 0) == w && At(w, run, 1) == Apply(w, s) && At(w, run, 2) == Apply(Apply(w, s), r);
    assert Delivers(w, run, v, e, whole);
  }

  lemma NotEntered(w: World, s: Step, v: nat)
    requires s.SealLetter? || s.Perform?
    ensures !Enters(w, s, v)
  {
    WhoWrites(w, s, v, CoolingOff);
    hide Apply, InState;
  }

  lemma IssuesSealed(w: World, t: Ticket, l: nat)
    requires t in w.performing && FiresIn(w, t.vault, l)
    ensures HasClaims(PerformStep(w, t, Done), t.event)
  {
    var c := ClaimRow(t.event, LetterOf(l), w.letters[l].recipient, w.clock);
    assert Owed(w, t.event, t.vault, c);
    PerformDelivers(w, t, Done);
    hide PerformStep, NoRepeats, Owed;
    assert c in PerformStep(w, t, Done).claims[|w.claims|..];
  }

  lemma SealedNow(w: World, v: nat)
    requires InState(w, v, Active)
    ensures var w1 := Apply(w, SealLetter(v, SignalOnly, "", 0));
      && FiresIn(w1, v, |w.letters|)
      && w1.performing == w.performing && w1.clock == w.clock && w1.vaults == w.vaults
  {}

  lemma ClaimedCan(w: World, v: nat, e: nat, whole: bool)
    requires HasClaims(w, e)
    ensures CanDeliver(w, v, e, whole)
  {
    assert Delivers(w, [], v, e, whole);
  }

  lemma CanDeliverIff(w: World, v: nat, e: nat, whole: bool)
    requires WorkBound(w) && e < |w.events| && w.events[e].vault == v && InState(w, v, Active)
    ensures CanDeliver(w, v, e, whole) <==> Started(w, e)
  {
    hide CanDeliver, HasClaims;
    if HasClaims(w, e) {
      ClaimedCan(w, v, e, whole);
    } else if Delivering(w, e) {
      var t :| t in w.performing && t.event == e;
      DeliveringCan(w, t, whole);
    } else {
      UnstartedCannot(w, v, e, whole);
    }
  }

  /** The cancel's write makes the vault ACTIVE and stops nothing that has started. */
  lemma CancelWrites(w: World, v: nat, e: nat, closes: bool)
    requires WorkBound(w) && e < |w.events| && w.events[e].vault == v < |w.vaults|
    ensures var w' := CancelStep(w, v, CoolingOff, closes);
      && WorkBound(w') && InState(w', v, Active) && e < |w'.events| && w'.events[e].vault == v
      && (Started(w', e) <==> Started(w, e))
  {
    var w' := CancelStep(w, v, CoolingOff, closes);
    CancelTouches(w, v, CoolingOff, closes);
    WhoWrites(w, Cancel(v, CoolingOff, closes), v, Active);
    assert Apply(w, Cancel(v, CoolingOff, closes)) == w';
    hide CancelStep, Apply, Bound, Timely;
    SameWork(w, w');
    WorkKept(w, w');
    SameVault(w.events, w'.events, e);
  }

  /** Exactly when a cancel fails. It has read its vault cooling off, nothing delivered or being
      delivered under the vault's event `e`; any steps of anybody follow; then it writes. Something has
      been, or can without a new cooling-off still be, delivered under `e` if and only if since the
      read a claim for `e` has taken the vault from COOLING_OFF to RELEASING, and that release has not
      ended with nothing issued (AbandonsHow). Whether the cancel finds and closes the event makes no
      difference. */
  lemma CancelFailsIff(w: World, run: seq<Step>, i: nat, e: nat, closes: bool, whole: bool)
    requires Start(w) && i <= |run|
    requires e < |At(w, run, i).events| && InState(At(w, run, i), At(w, run, i).events[e].vault, CoolingOff)
    requires !Started(At(w, run, i), e)
    ensures var v := At(w, run, i).events[e].vault;
      CanDeliver(CancelStep(At(w, run, |run|), v, CoolingOff, closes), v, e, whole)
      <==> exists j :: i <= j && ReleasedSince(w, run, j, |run|, e)
  {
    var v := At(w, run, i).events[e].vault;
    assert v < |At(w, run, i).vaults|;
    SameVaults(w, run, i, |run|);
    hide Apply, At, WorkBound, CancelStep, Started, InState, CanDeliver, ReleasedSince, KeepsEvents;
    var u := At(w, run, |run|);
    RunKeepsBound(w, run, |run|);
    RunKeepsEvents(w, run, i, |run|);
    SameVault(At(w, run, i).events, u.events, e);
    StartedIff(w, run, i, |run|, e);
    CancelWrites(u, v, e, closes);
    CanDeliverIff(CancelStep(u, v, CoolingOff, closes), v, e, whole);
  }

  lemma {:induction false} SameVaults(w: World, run: seq<Step>, i: nat, j: nat)
    requires i <= j <= |run|
    ensures |At(w, run, j).vaults| == |At(w, run, i).vaults|
  {
    hide Apply, Writes, InState;
    if i < j {
      SameVaults(w, run, i, j - 1);
      WhoWrites(At(w, run, j - 1), run[j - 1], 0, Active);
    }
  }

  // ---- For good ----

  /** The step does not let the vault cool off anew while somebody holds a ticket for the event. */
  ghost predicate Unticketed(w: World, s: Step, v: nat, e: nat) {
    Enters(w, s, v) ==> forall t :: t in w.tickets ==> t.event != e
  }

  ghost predicate Stopped(w: World, v: nat, e: nat) {
    && e < |w.events| && w.events[e].vault == v && !w.events[e].Open() && !Started(w, e)
    && (InState(w, v, CoolingOff) ==> forall t :: t in w.tickets ==> t.event != e)
  }

  /** Nobody takes out a ticket for a closed event. */
  lemma NoNewTickets(w: World, s: Step, e: nat)
    requires e < |w.events| && !w.events[e].Open()
    ensures forall t :: t in Apply(w, s).tickets && t.event == e ==> t in w.tickets
  {
    hide CancelStep, AggregateStep, DuressEnterStep, PerformStep, PerformWriteStep;
    hide ReleaseEventLetterStep, DueTickets, MarkCancelled, InState, ClaimStep;
    match s
    case Begin(_, _, _, _) => BeginTakesOwn(w, s, e);
    case InsertEvent(_, _, _, _) => InsertTakesOwn(w, s, e);
    case Poll => PollTakesOpen(w, e);
    case Claim(t) => ClaimTouches(w, t);
    case Cancel(v, observed, closes) => CancelKeepsTickets(w, v, observed, closes);
    case Aggregate(v, observed, frozen, x, completes) => AggregateKeepsTickets(w, v, observed, frozen, x, completes);
    case DuressEnter(v, observed, completes) => DuressKeepsTickets(w, v, observed, completes);
    case Perform(u, stop) => PerformKeepsTickets(w, u, stop);
    case ReleaseEventLetter(l, upTo) => EventLetterKeepsTickets(w, l, upTo);
    case CloseEvent(f) => CloseKeepsTickets(w, f);
    case PerformWrite(u, part) => WriteKeepsTickets(w, u, part);
    case Crash(lost, _) => assert forall t :: t in w.tickets - lost ==> t in w.tickets;
    case _ =>
  }

  lemma BeginTakesOwn(w: World, s: Step, e: nat)
    requires s.Begin? && e < |w.events|
    ensures forall t :: t in Apply(w, s).tickets && t.event == e ==> t in w.tickets
  {}

  lemma InsertTakesOwn(w: World, s: Step, e: nat)
    requires s.InsertEvent? && e < |w.events|
    ensures forall t :: t in Apply(w, s).tickets && t.event == e ==> t in w.tickets
  {}

  lemma PollTakesOpen(w: World, e: nat)
    requires e < |w.events| && !w.events[e].Open()
    ensures forall t :: t in Apply(w, Poll).tickets && t.event == e ==> t in w.tickets
  {
    RowsAreOpen(w, e);
    hide DueTickets;
    assert forall t :: t in multiset(DueTickets(w, |w.events|)) ==> t in DueTickets(w, |w.events|);
  }

  lemma RowsAreOpen(w: World, e: nat)
    requires e < |w.events| && !w.events[e].Open()
    ensures forall t :: t in DueTickets(w, |w.events|) ==> t.event != e
  {
    DueTicketsShape(w, |w.events|);
    hide DueTickets;
  }

  lemma WinnerTicket(w: World, s: Step, e: nat)
    requires WorkBound(w) && e < |w.events|
    ensures WinsEvent(w, s, e) ==>
      InState(w, w.events[e].vault, CoolingOff) && exists t :: t in w.tickets && t.event == e
  {}

  lemma StoppedStep(w: World, s: Step, v: nat, e: nat)
    requires WorkBound(w) && Stopped(w, v, e) && Unticketed(w, s, v, e)
    ensures Stopped(Apply(w, s), v, e)
  {
    StepKeepsEvents(w, s);
    NoNewTickets(w, s, e);
    assert KeepsEvent(w.events[e], Apply(w, s).events[e]);
    if Started(Apply(w, s), e) {
      StartedStep(w, s, e);
      WinnerTicket(w, s, e);
    }
    hide Apply, Started, WorkBound, KeepsEvents;
  }

  /** A cancel that writes before its release has started, and whose event is closed then, stops it
      for good: nothing is ever delivered under the event, by anybody's steps, unless the vault cools
      off anew while an old ticket for that very event is still out. */
  lemma {:induction false} CancelStopsRelease(w: World, run: seq<Step>, i: nat, j: nat, e: nat)
    requires Start(w) && i < j <= |run| && run[i].Cancel? && run[i].observed == CoolingOff
    requires e < |At(w, run, i).events| && At(w, run, i).events[e].vault == run[i].v < |At(w, run, i).vaults|
    requires !Started(At(w, run, i), e) && e < |At(w, run, i + 1).events| && !At(w, run, i + 1).events[e].Open()
    requires forall k :: i < k < j ==> Unticketed(At(w, run, k), run[k], run[i].v, e)
    ensures Stopped(At(w, run, j), run[i].v, e)
  {
    hide Apply, At, Stopped, WorkBound, Unticketed, Started, CancelStep, InState;
    var v := run[i].v;
    RunKeepsBound(w, run, j - 1);
    NextWorld(w, run, j - 1);
    if i + 1 < j {
      CancelStopsRelease(w, run, i, j - 1, e);
      StoppedStep(At(w, run, j - 1), run[j - 1], v, e);
    } else {
      CancelStops(At(w, run, i), run[i], v, e);
    }
  }

  lemma CancelStops(w: World, s: Step, v: nat, e: nat)
    requires WorkBound(w) && s.Cancel? && s.observed == CoolingOff && s.v == v < |w.vaults|
    requires e < |w.events| && w.events[e].vault == v && !Started(w, e)
    requires var w' := Apply(w, s); e < |w'.events| && !w'.events[e].Open()
    ensures Stopped(Apply(w, s), v, e)
  {
    assert Apply(w, s) == CancelStep(w, v, CoolingOff, s.closes);
    hide Apply, WorkBound, Started, CancelStep;
    CancelWrites(w, v, e, s.closes);
  }

  // ---- Orderly runs ----

  /** Nothing has been delivered for the event, and nothing will be: it is cancelled. */
  ghost predicate CalledOff(w: World, e: nat) {
    && e < |w.events| && w.events[e].cancelledAt.Some?
    && (forall c :: c in w.claims ==> c.event != e)
    && (forall t :: t in w.performing ==> t.event != e)
  }

  lemma CancelCallsOff(w: World, v: nat, e: nat)
    requires Inv(w) && InState(w, v, CoolingOff)
    requires e < |w.events| && w.events[e].Open() && w.events[e].vault == v
    ensures CalledOff(CancelStep(w, v, CoolingOff, true), e)
  {
    NewestOpenFinds(SetState(w, v, Active, None), v, |w.events|);
    assert w.events[e].OpenTimed() by { assert Placed(CoolingOff, w.events[e]); }
    assert Live(w.vaults, w.events, w.performing, e);
    var f := NewestOpen(SetState(w, v, Active, None), v, |w.events|).value;
    assert Placed(CoolingOff, w.events[f]);
    assert e == f;
    assert forall t :: t in w.performing ==> t.vault != v;
  }

  /** A vault that is cooling off under its open event has not been released under it. */
  lemma CoolingUnstarted(w: World, v: nat, e: nat)
    requires Inv(w) && InState(w, v, CoolingOff)
    requires e < |w.events| && w.events[e].Open() && w.events[e].vault == v
    ensures !Started(w, e)
  {
    CancelCallsOff(w, v, e);
    CancelTouches(w, v, CoolingOff, true);
    hide CancelStep;
  }

  /** In orderly runs every winning claim is the first for its event, so nothing is delivered twice
      under one event. */
  lemma OrderlyDeliversOnce(w: World, run: seq<Step>, j: nat)
    requires Start(w) && Orderly(w, run) && j <= |run|
    ensures NoRepeats(At(w, run, j).claims)
  {
    hide Apply, Inv, OrderlyStep, FirstWin, At, Once;
    forall k, e: nat | 0 <= k < |run|
      ensures FirstWin(At(w, run, k), run[k], e) && WholeDelivery(run[k], e)
    {
      RunKeepsInv(w, run, k);
      OrderlyFirstWin(At(w, run, k), run[k], e);
    }
    forall e: nat
      ensures Once(At(w, run, j), e)
    {
      NoDoubleDelivery(w, run, j, e);
    }
    OnceEverywhere(At(w, run, j));
  }

  lemma OnceEverywhere(w: World)
    requires forall e: nat :: Once(w, e)
    ensures NoRepeats(w.claims)
  {
    forall i, j | 0 <= i < j < |w.claims|
      ensures !SameDelivery(w.claims[i], w.claims[j])
    {
      assert Once(w, w.claims[i].event);
    }
  }

  lemma OrderlyFirstWin(w: World, s: Step, e: nat)
    requires Inv(w) && OrderlyStep(w, s)
    ensures FirstWin(w, s, e) && WholeDelivery(s, e)
  {
    if s.Claim? && Wins(w, s.t) {
      WinnerFacts(w, s.t);
      hide Wins, Live, Placed;
      assert forall t :: t in w.performing ==> Fits(w.events, t);
    }
  }

  /** In orderly runs a cancel that closes a release stops it for good, whatever episodes follow. */
  lemma OrderlyCancelStops(w: World, run: seq<Step>, i: nat, j: nat, e: nat)
    requires Start(w) && Orderly(w, run) && i < j <= |run|
    requires run[i].Cancel? && run[i].observed == CoolingOff
    requires var u := At(w, run, i); e < |u.events| && u.events[e].Open() && u.events[e].vault == run[i].v
    ensures CalledOff(At(w, run, j), e)
  {
    hide Apply, Inv, OrderlyStep, At, Unticketed, CalledOff, Started, InState, WorkBound, KeepsEvents, Stopped, Enters;
    var u, v := At(w, run, i), run[i].v;
    RunKeepsInv(w, run, i);
    NextWorld(w, run, i);
    OrderlyCancel(u, run[i], e);
    forall k | i < k < j
      ensures Unticketed(At(w, run, k), run[k], v, e)
    {
      RunKeepsBound(w, run, k);
      RunKeepsEvents(w, run, i, k);
      SameVault(u.events, At(w, run, k).events, e);
      OrderlyUnticketed(At(w, run, k), run[k], v, e);
    }
    CancelStopsRelease(w, run, i, j, e);
    RunKeepsEvents(w, run, i + 1, j);
    StoppedIsCalledOff(At(w, run, i + 1), At(w, run, j), v, e);
  }

  lemma OrderlyCancel(w: World, s: Step, e: nat)
    requires Inv(w) && OrderlyStep(w, s) && s.Cancel? && s.observed == CoolingOff
    requires e < |w.events| && w.events[e].Open() && w.events[e].vault == s.v
    ensures s.v < |w.vaults| && !Started(w, e) && CalledOff(Apply(w, s), e)
    ensures e < |Apply(w, s).events| && !Apply(w, s).events[e].Open()
  {
    assert InState(w, s.v, CoolingOff);
    CancelStepCallsOff(w, s, e);
    CoolingUnstarted(w, s.v, e);
    hide Inv, Apply, Started;
  }

  lemma StoppedIsCalledOff(w: World, w': World, v: nat, e: nat)
    requires CalledOff(w, e) && KeepsEvents(w.events, w'.events) && Stopped(w', v, e)
    ensures CalledOff(w', e)
  {
    assert KeepsEvent(w.events[e], w'.events[e]);
  }

  lemma OrderlyUnticketed(w: World, s: Step, v: nat, e: nat)
    requires OrderlyStep(w, s) && WorkBound(w) && e < |w.events| && w.events[e].vault == v
    ensures Unticketed(w, s, v, e)
  {
    hide Enters;
  }

  lemma CancelStepCallsOff(w: World, s: Step, e: nat)
    requires Inv(w) && OrderlyStep(w, s) && s.Cancel? && s.observed == CoolingOff
    requires e < |w.events| && w.events[e].Open() && w.events[e].vault == s.v
    ensures CalledOff(Apply(w, s), e)
  {
    hide Inv;
    CancelCallsOff(w, s.v, e);
  }

  // ---- A cancel that comes late ----

  /** A cancel that writes once a release is under way stops nothing, in any world: whoever is in
      perform_release goes on to issue every claim it owes. If the release's event is the newest open
      one of its vault, as in orderly runs it is, they go out under an event the cancel has closed. */
  lemma LateCancelFails(w: World, t: Ticket, closes: bool)
    requires t in w.performing
    ensures var u := PerformStep(CancelStep(w, t.vault, CoolingOff, closes), t, Done);
      && (forall c :: Owed(w, t.event, t.vault, c) ==> c in u.claims)
      && (closes && t.vault < |w.vaults| && NewestOpen(w, t.vault, |w.events|) == Some(t.event) ==>
            t.event < |u.events| && u.events[t.event].cancelledAt.Some?)
    ensures Inv(w) ==> t.vault < |w.vaults| && NewestOpen(w, t.vault, |w.events|) == Some(t.event)
  {
    hide Inv, CancelStep, PerformStep, NewestOpen, Owed;
    CancelTouches(w, t.vault, CoolingOff, closes);
    LateCancelCloses(w, t.vault, t.event, closes);
    PerformIssuesOwed(w, CancelStep(w, t.vault, CoolingOff, closes), t);
    if Inv(w) {
      PerformerIsNewest(w, t);
    }
  }

  /** Once vaults and events have changed, a release under way issues what it owed before. */
  lemma PerformIssuesOwed(w: World, w1: World, t: Ticket)
    requires t in w.performing && w1 == w.(vaults := w1.vaults, events := w1.events)
    ensures var u := PerformStep(w1, t, Done);
      && (forall c :: Owed(w, t.event, t.vault, c) ==> c in u.claims)
      && KeepsEvents(w1.events, u.events)
  {
    PerformDelivers(w1, t, Done);
    PerformKeepsEvents(w1, t, Done);
    hide PerformStep, NoRepeats, KeepsEvents;
    var claims := PerformStep(w1, t, Done).claims;
    forall c | Owed(w, t.event, t.vault, c)
      ensures c in claims
    {
      assert Owed(w1, t.event, t.vault, c);
      assert c in claims[|w1.claims|..];
    }
  }

  lemma LateCancelCloses(w: World, v: nat, e: nat, closes: bool)
    ensures closes && v < |w.vaults| && NewestOpen(w, v, |w.events|) == Some(e) ==>
      var w' := CancelStep(w, v, CoolingOff, closes);
      e < |w'.events| && w'.events[e].cancelledAt.Some?
  {
    var w1 := SetState(w, v, Active, None);
    NewestReads(w, w1, v, |w.events|);
    NewestOpenFinds(w, v, |w.events|);
    hide NewestOpen;
  }

  lemma PerformerIsNewest(w: World, t: Ticket)
    requires Inv(w) && t in w.performing
    ensures t.vault < |w.vaults| && NewestOpen(w, t.vault, |w.events|) == Some(t.event)
  {
    PerformerOwnsEvent(w, t);
    NewestOpenFinds(w, t.vault, |w.events|);
    hide Inv, NewestOpen;
  }

  lemma {:induction false} NewestReads(w: World, w1: World, v: nat, n: nat)
    requires w1.events == w.events && n <= |w.events|
    ensures NewestOpen(w1, v, n) == NewestOpen(w, v, n)
  {
    if n > 0 {
      NewestReads(w, w1, v, n - 1);
    }
  }

  /** The vault of a release under way has one open event, the release's. */
  lemma PerformerOwnsEvent(w: World, t: Ticket)
    requires Inv(w) && t in w.performing
    ensures t.vault < |w.vaults| && OpenOf(w, t.event, t.vault)
    ensures forall e :: OpenOf(w, e, t.vault) ==> e == t.event
  {
    hide TicketsInv, ClaimsInv;
    assert forall e :: 0 <= e < |w.events| && w.events[e].vault == t.vault ==> Placed(Releasing, w.events[e]);
  }
}
