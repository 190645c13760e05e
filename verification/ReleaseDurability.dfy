/**
 What survives a crash. A vault whose deadline was recorded is released by any later poll, with
 every timer gone; a vault whose process died between claiming it and recording the deadline
 waits for its principal to cancel. Nothing here but one corollary assumes an orderly run.
 */
module ReleaseDurability {
  import opened Domain
  import opened ReleaseModel
  import opened Deliveries
  import opened ReleaseInvariant
  import opened ReleaseSafety
  import opened ReleaseCounting
  import ReleaseDeadlines

  ghost predicate HasOpenDeadline(es: seq<EventRow>, v: nat) {
    exists e :: 0 <= e < |es| && es[e].vault == v && es[e].OpenTimed()
  }

  /** Every cooling vault has its deadline in the database. */
  ghost predicate Recorded(w: World) {
    forall v: nat :: InState(w, v, CoolingOff) ==> HasOpenDeadline(w.events, v)
  }

  /** The process did not die between entering COOLING_OFF and recording the deadline. */
  predicate Completes(s: Step) {
    && (s.Begin? ==> s.completes)
    && (s.Aggregate? ==> s.completes)
    && (s.DuressEnter? ==> s.completes)
  }

  lemma AppendKeepsDeadlines(es: seq<EventRow>, row: EventRow, v: nat)
    requires HasOpenDeadline(es, v) || (row.vault == v && row.OpenTimed())
    ensures HasOpenDeadline(es + [row], v)
  {
    if HasOpenDeadline(es, v) {
      var e :| 0 <= e < |es| && es[e].vault == v && es[e].OpenTimed();
      assert (es + [row])[e] == es[e];
    } else {
      assert (es + [row])[|es|] == row;
    }
  }

  lemma CloseKeepsDeadlines(es: seq<EventRow>, es': seq<EventRow>, e: nat, v: nat)
    requires HasOpenDeadline(es, v) && Closes(es, es', e) && es[e].vault != v
    ensures HasOpenDeadline(es', v)
  {
    var f :| 0 <= f < |es| && es[f].vault == v && es[f].OpenTimed();
    assert es'[f] == es[f];
  }

  lemma EntryRecorded(w: World, w1: World, v: nat, row: EventRow)
    requires Recorded(w) && v < |w.vaults| && row.vault == v && row.OpenTimed()
    requires w1.vaults == EnterCoolingOff(w, v).vaults && w1.events == w.events + [row]
    ensures Recorded(w1)
  {
    forall u: nat | InState(w1, u, CoolingOff)
      ensures HasOpenDeadline(w1.events, u)
    {
      if u != v {
        assert InState(w, u, CoolingOff);
      }
      AppendKeepsDeadlines(w.events, row, u);
    }
  }

  lemma CancelKeepsRecorded(w: World, v: nat, observed: VaultState, closes: bool)
    requires Recorded(w)
    ensures Recorded(CancelStep(w, v, observed, closes))
  {
    if v < |w.vaults| && observed == CoolingOff {
      var w1, w' := SetState(w, v, Active, None), CancelStep(w, v, observed, closes);
      NewestOpenFinds(w1, v, |w1.events|);
      forall u: nat | InState(w', u, CoolingOff)
        ensures HasOpenDeadline(w'.events, u)
      {
        assert InState(w, u, CoolingOff);
        if w'.events != w.events {
          var e := NewestOpen(w1, v, |w1.events|).value;
          CloseKeepsDeadlines(w.events, w'.events, e, u);
        }
      }
    }
  }

  lemma PerformKeepsRecorded(w: World, t: Ticket, stop: Stop)
    requires WorkBound(w) && Recorded(w)
    ensures Recorded(PerformStep(w, t, stop))
  {
    if t in w.performing {
      PerformTouches(w, t, stop);
      MarkReleasedTouches(w, t.event);
      assert Bound(w.events, t);
      assert Landing(t, stop) != CoolingOff;
      hide PerformStep, WorkBound, Issued, MarkReleased, Landing;
      var w' := PerformStep(w, t, stop);
      forall u: nat | InState(w', u, CoolingOff)
        ensures HasOpenDeadline(w'.events, u)
      {
        assert InState(w, u, CoolingOff);
        if w'.events != w.events {
          assert u != t.vault;
          CloseKeepsDeadlines(w.events, w'.events, t.event, u);
        }
      }
    } else {
      PerformNothing(w, t, stop);
    }
  }

  lemma EventLetterKeepsRecorded(w: World, l: nat, upTo: EventStop)
    requires Recorded(w)
    ensures Recorded(ReleaseEventLetterStep(w, l, upTo))
  {
    if EventLetterReady(w, l) && !upTo.BeforeEvent? {
      var w' := ReleaseEventLetterStep(w, l, upTo);
      EventLetterTouches(w, l, upTo);
      hide ReleaseEventLetterStep;
      assert w'.events == w.events + [w'.events[|w.events|]];
      forall u: nat | InState(w', u, CoolingOff)
        ensures HasOpenDeadline(w'.events, u)
      {
        assert InState(w, u, CoolingOff);
        AppendKeepsDeadlines(w.events, w'.events[|w.events|], u);
      }
    }
  }

  lemma EntryStepKeepsRecorded(w: World, s: Step)
    requires Recorded(w) && Completes(s) && (s.Begin? || s.Aggregate? || s.DuressEnter?)
    ensures Recorded(Apply(w, s))
  {
    var w' := Apply(w, s);
    if w'.events != w.events {
      assert w'.events == w.events + [w'.events[|w.events|]];
      EntryRecorded(w, w', s.v, w'.events[|w.events|]);
    } else {
      StatesOnlyKeepRecorded(w, w');
    }
  }

  lemma StatesOnlyKeepRecorded(w: World, w': World)
    requires Recorded(w) && w'.events == w.events
    requires forall u: nat :: InState(w', u, CoolingOff) ==> InState(w, u, CoolingOff)
    ensures Recorded(w')
  {}

  lemma StepKeepsRecorded(w: World, s: Step)
    requires WorkBound(w) && Recorded(w) && Completes(s) && !HalfHandler(s)
    ensures Recorded(Apply(w, s))
  {
    hide WorkBound, PerformStep, ReleaseEventLetterStep, CancelStep, DueTickets, Verdict;
    match s
    case Begin(_, _, _, _) => EntryStepKeepsRecorded(w, s);
    case Aggregate(_, _, _, _, _) => EntryStepKeepsRecorded(w, s);
    case DuressEnter(_, _, _) => EntryStepKeepsRecorded(w, s);
    case Cancel(v, observed, closes) => CancelKeepsRecorded(w, v, observed, closes);
    case Perform(t, stop) => PerformKeepsRecorded(w, t, stop);
    case ReleaseEventLetter(l, upTo) => EventLetterKeepsRecorded(w, l, upTo);
    case _ => StatesOnlyKeepRecorded(w, Apply(w, s));
  }

  lemma NothingCoolingRecorded(w: World)
    requires forall v: nat :: !InState(w, v, CoolingOff)
    ensures Recorded(w)
  {}

  /** If no handler dies between its statements, and none is overtaken, every cooling vault has its
      deadline in the database: whatever is stale, unclosed or left over. */
  lemma {:induction false} RunKeepsRecorded(w: World, run: seq<Step>, j: nat)
    requires Start(w) && j <= |run|
    requires forall v: nat :: !InState(w, v, CoolingOff)
    requires forall i :: 0 <= i < |run| ==> Completes(run[i]) && !HalfHandler(run[i])
    ensures Recorded(At(w, run, j))
  {
    hide Apply, Recorded, WorkBound;
    if j == 0 {
      NothingCoolingRecorded(w);
    } else {
      RunKeepsRecorded(w, run, j - 1);
      RunKeepsBound(w, run, j - 1);
      StepKeepsRecorded(At(w, run, j - 1), run[j - 1]);
    }
  }

  // ---- A recorded release survives ----

  /** Lose every timer, every listed row and every delivery under way, then wait. */
  function Rested(w: World, wait: nat): World {
    Apply(Apply(w, Crash(w.tickets, w.performing)), Advance(wait))
  }

  /** One poll tick's work on the row of event `e`. */
  function PolledFor(w: World, e: nat): World
    requires e < |w.events|
  {
    var t := Ticket(w.events[e].vault, e, w.events[e].drill, w.clock);
    Apply(Apply(Apply(w, Poll), Claim(t)), Perform(t, Done))
  }

  /** A due event is on the poll's list. */
  lemma PollLists(w: World, e: nat)
    requires Due(w, e)
    ensures Ticket(w.events[e].vault, e, w.events[e].drill, w.clock) in Apply(w, Poll).tickets
    ensures Apply(w, Poll).(tickets := w.tickets) == w
  {
    DueTicketsShape(w, |w.events|);
    assert Ticket(w.events[e].vault, e, w.events[e].drill, w.clock) in DueTickets(w, |w.events|);
  }

  /** A listed ticket of a cooling vault claims it and delivers. */
  lemma ClaimAndPerform(w: World, t: Ticket)
    requires Wins(w, t) && t.event < |w.events| && t !in w.performing
    ensures var u := PerformStep(ClaimStep(w, t), t, Done);
      && InState(u, t.vault, if t.drill then Active else Released)
      && t.event < |u.events| && u.events[t.event].releasedAt == Some(w.clock)
      && u.claims == w.claims + Delivery(w, t.event, t.vault, |w.letters|)
      && u.letters == w.letters && u.attachments == w.attachments && u.clock == w.clock
  {
    var w1 := ClaimStep(w, t);
    DeliveryReadsTables(w, w1, t.event, t.vault, |w.letters|);
    assert t in w1.performing && InState(w1, t.vault, Releasing);
  }

  lemma RestedWorld(w: World, wait: nat)
    ensures Rested(w, wait) == w.(tickets := multiset{}, performing := multiset{}, clock := w.clock + wait)
  {}

  lemma ClaimApplies(w: World, t: Ticket)
    ensures Apply(w, Claim(t)) == ClaimStep(w, t)
  {}

  lemma PerformApplies(w: World, t: Ticket)
    ensures Apply(w, Perform(t, Done)) == PerformStep(w, t, Done)
  {
    hide PerformStep;
  }

  /** Whatever was in flight: once the deadline of a cooling vault has passed, one poll tick
      releases it under its own event, delivering every letter that fires, and a real release
      ends RELEASED. */
  lemma RecordedReleaseSurvives(w: World, e: nat, wait: nat)
    requires e < |w.events| && w.events[e].OpenTimed() && InState(w, w.events[e].vault, CoolingOff)
    requires w.events[e].deadline.value <= w.clock + wait
    ensures var u := PolledFor(Rested(w, wait), e);
      && InState(u, w.events[e].vault, if w.events[e].drill then Active else Released)
      && e < |u.events| && u.events[e].releasedAt == Some(w.clock + wait)
      && u.claims == w.claims + Delivery(u, e, w.events[e].vault, |u.letters|)
  {
    RestedWorld(w, wait);
    hide Apply;
    hide PerformStep;
    hide ClaimStep;
    hide Rested;
    var w2 := Rested(w, wait);
    var t := Ticket(w.events[e].vault, e, w.events[e].drill, w.clock + wait);
    PollLists(w2, e);
    var w3 := Apply(w2, Poll);
    ClaimApplies(w3, t);
    PerformApplies(ClaimStep(w3, t), t);
    ClaimAndPerform(w3, t);
    DeliveryReadsTables(w3, PerformStep(ClaimStep(w3, t), t, Done), e, t.vault, |w3.letters|);
  }

  lemma {:induction false} AttachmentClaimsReadTables(w: World, u: World, e: nat, l: nat, n: nat)
    requires u.letters == w.letters && u.attachments == w.attachments && u.clock == w.clock
    requires l < |w.letters| && n <= |w.attachments|
    ensures AttachmentClaims(u, e, l, n) == AttachmentClaims(w, e, l, n)
  {
    if n > 0 {
      AttachmentClaimsReadTables(w, u, e, l, n - 1);
    }
  }

  lemma {:induction false} DeliveryReadsTables(w: World, u: World, e: nat, v: nat, n: nat)
    requires u.letters == w.letters && u.attachments == w.attachments && u.clock == w.clock
    requires n <= |w.letters|
    ensures Delivery(u, e, v, n) == Delivery(w, e, v, n)
  {
    if n > 0 {
      DeliveryReadsTables(w, u, e, v, n - 1);
      AttachmentClaimsReadTables(w, u, e, n - 1, |w.attachments|);
    }
  }

  // ---- An unrecorded one does not ----

  /** Cooling off with no deadline, no timer and no delivery under way. */
  ghost predicate Stranded(w: World, v: nat) {
    && InState(w, v, CoolingOff) && !HasOpenDeadline(w.events, v)
    && (forall t :: t in w.tickets ==> t.vault != v)
    && (forall t :: t in w.performing ==> t.vault != v)
  }

  /** No open deadline of the vault, no ticket and no delivery. */
  ghost predicate NothingLeft(w: World, v: nat) {
    && !HasOpenDeadline(w.events, v)
    && (forall t :: t in w.tickets ==> t.vault != v) && (forall t :: t in w.performing ==> t.vault != v)
  }

  /** What a begin, an aggregator's turn or a duress webhook that dies between its claim and its insert
      leaves behind: a stranded vault, unless an open deadline, a ticket or a delivery of an earlier
      episode is left. In orderly runs none is. */
  lemma InterruptedEntryStrands(w: World, s: Step, v: nat)
    requires Enters(w, s, v) && !Completes(s)
    ensures Stranded(Apply(w, s), v) <==> NothingLeft(w, v)
    ensures Inv(w) && OrderlyStep(w, s) ==> Stranded(Apply(w, s), v)
  {
    ReleaseDeadlines.EntryShape(w, s, v);
    if Inv(w) && OrderlyStep(w, s) {
      OrderlyLeavesNothing(w, s, v);
    }
    hide Apply, Inv, OrderlyStep, HasOpenDeadline;
    assert InState(Apply(w, s), v, CoolingOff);
  }

  lemma OrderlyLeavesNothing(w: World, s: Step, v: nat)
    requires Inv(w) && Enters(w, s, v) && OrderlyStep(w, s) && (s.Begin? || s.Aggregate? || s.DuressEnter?)
    requires s.v == v && v < |w.vaults|
    ensures NothingLeft(w, v)
  {
    EntryFromWatched(w, s, v);
    hide Apply, Verdict, HasOpenDeadline, Enters, HalfHandler;
    WatchedHasNothing(w, v);
    assert forall t :: t in w.tickets ==> t.vault != v;
  }

  /** A vault that is watched has no open deadline and is not being released. */
  lemma WatchedHasNothing(w: World, v: nat)
    requires Inv(w) && v < |w.vaults| && Watchable(w.vaults[v].state)
    ensures !HasOpenDeadline(w.events, v) && forall t :: t in w.performing ==> t.vault != v
  {
    hide TicketsInv, ClaimsInv, OneOpen, Fits;
    assert forall e :: 0 <= e < |w.events| && w.events[e].vault == v ==> Placed(w.vaults[v].state, w.events[e]);
  }

  lemma EntryFromWatched(w: World, s: Step, v: nat)
    requires Enters(w, s, v)
    ensures v < |w.vaults| && Watchable(w.vaults[v].state)
  {
    WhoWrites(w, s, v, CoolingOff);
    hide Apply, Verdict;
  }

  /** The steps that get a stranded vault going: its principal's cancel, an aggregator's stale write, and
      the late insert of the event itself. */
  predicate Rescues(s: Step, v: nat) {
    Overwrites(s, v) || (s.InsertEvent? && s.v == v && s.deadline.Some?)
  }

  /** Entries of other vaults. */
  lemma StrandedEntry(w: World, s: Step, v: nat)
    requires Stranded(w, v) && (s.Begin? || s.DuressEnter? || s.Aggregate?) && !Rescues(s, v)
    ensures Stranded(Apply(w, s), v)
  {
    var w' := Apply(w, s);
    EntryAppends(w, s);
    EntryElsewhere(w, s, v);
    hide Apply;
    if w'.events != w.events {
      StrandedAppend(w.events, w'.events, v);
    }
  }

  /** An entry step appends at most one event and one ticket, of its own vault. */
  lemma EntryAppends(w: World, s: Step)
    requires s.Begin? || s.DuressEnter? || s.Aggregate?
    ensures var w' := Apply(w, s);
      && w'.performing == w.performing
      && (forall t :: t in w'.tickets ==> t in w.tickets || t.vault == s.v)
      && (|| w'.events == w.events
          || (|w'.events| == |w.events| + 1 && w.events <= w'.events && w'.events[|w.events|].vault == s.v))
  {
    hide Verdict, InDuress, InState, PerformStep, ClaimStep, CancelStep, ReleaseEventLetterStep;
    if s.Begin? {
      hide AggregateStep, DuressEnterStep;
    } else if s.Aggregate? {
      hide BeginStep, DuressEnterStep;
    } else {
      hide BeginStep, AggregateStep;
    }
  }

  lemma EntryElsewhere(w: World, s: Step, v: nat)
    requires (s.Begin? || s.DuressEnter? || s.Aggregate?) && InState(w, v, CoolingOff) && !Rescues(s, v)
    ensures InState(Apply(w, s), v, CoolingOff) && (s.v == v ==> Apply(w, s) == w)
  {
    hide Verdict, InDuress, PerformStep, ClaimStep, CancelStep, ReleaseEventLetterStep;
  }

  lemma StrandedPoll(w: World, v: nat)
    requires Stranded(w, v)
    ensures Stranded(Apply(w, Poll), v)
  {
    DueTicketsShape(w, |w.events|);
    hide DueTickets;
    assert forall t :: t in multiset(DueTickets(w, |w.events|)) ==> t in DueTickets(w, |w.events|);
  }

  lemma StrandedQuiet(w: World, s: Step, v: nat)
    requires Stranded(w, v)
    requires s.Advance? || s.Claim? || s.Crash? || s.Arm? || s.Trigger? || s.Disarm?
             || s.EditVault? || s.SealLetter? || s.EditLetter?
    ensures Stranded(Apply(w, s), v)
  {
    hide Stranded, HasOpenDeadline, ClaimStep;
    if s.Claim? {
      StrandedClaim(w, s.t, v);
    } else if s.Crash? {
      StrandedCrash(w, s.lostTickets, s.lostPerforming, v);
    } else {
      StrandedTables(w, s, v);
    }
  }

  lemma StrandedTables(w: World, s: Step, v: nat)
    requires Stranded(w, v)
    requires s.Advance? || s.Arm? || s.Trigger? || s.Disarm? || s.EditVault? || s.SealLetter? || s.EditLetter?
    ensures Stranded(Apply(w, s), v)
  {
    var w' := Apply(w, s);
    hide HasOpenDeadline;
    assert InState(w, v, CoolingOff);
    hide Stranded;
    OthersWriteNothing(w, s);
    assert w'.events == w.events && w'.tickets == w.tickets && w'.performing == w.performing;
    hide Apply;
    StrandedSame(w, w', v);
  }

  lemma StrandedCrash(w: World, lost: multiset<Ticket>, lostPerforming: multiset<Ticket>, v: nat)
    requires Stranded(w, v)
    ensures Stranded(Apply(w, Crash(lost, lostPerforming)), v)
  {
    assert forall t :: t in w.tickets - lost ==> t in w.tickets;
    assert forall t :: t in w.performing - lostPerforming ==> t in w.performing;
  }

  lemma StrandedClaim(w: World, t: Ticket, v: nat)
    requires Stranded(w, v)
    ensures Stranded(ClaimStep(w, t), v)
  {
    ClaimTouches(w, t);
    ClaimElsewhere(w, t, v);
    hide ClaimStep;
  }

  lemma ClaimElsewhere(w: World, t: Ticket, v: nat)
    requires InState(w, v, CoolingOff) && (t in w.tickets ==> t.vault != v)
    ensures InState(ClaimStep(w, t), v, CoolingOff)
  {}

  lemma StrandedSame(w: World, w': World, v: nat)
    requires Stranded(w, v) && InState(w', v, CoolingOff)
    requires w'.events == w.events && w'.performing == w.performing
    requires forall t :: t in w'.tickets ==> t in w.tickets || t.vault != v
    ensures Stranded(w', v)
  {}

  lemma StrandedStep(w: World, s: Step, v: nat)
    requires Stranded(w, v) && !Rescues(s, v)
    ensures Stranded(Apply(w, s), v)
  {
    hide Stranded, Rescues;
    match s
    case Begin(_, _, _, _) => StrandedEntry(w, s, v);
    case Aggregate(_, _, _, _, _) => StrandedEntry(w, s, v);
    case DuressEnter(_, _, _) => StrandedEntry(w, s, v);
    case Cancel(u, observed, closes) =>
      if u != v {
        CancelElsewhere(w, u, observed, closes, v);
      } else {
        CancelRefused(w, s, v);
      }
    case Poll => StrandedPoll(w, v);
    case Perform(t, stop) => PerformElsewhere(w, t, stop, v);
    case ReleaseEventLetter(l, upTo) => EventLetterElsewhere(w, l, upTo, v);
    case InsertEvent(_, _, _, _) => InsertElsewhere(w, s, v);
    case CloseEvent(e) => CloseElsewhere(w, e, v);
    case PerformWrite(t, part) => PartElsewhere(w, t, part, v);
    case PerformEnd(t) => EndElsewhere(w, t, v);
    case _ => StrandedQuiet(w, s, v);
  }

  lemma CancelRefused(w: World, s: Step, v: nat)
    requires s.Cancel? && s.v == v && !Rescues(s, v)
    ensures Apply(w, s) == w
  {}

  lemma InsertElsewhere(w: World, s: Step, v: nat)
    requires Stranded(w, v) && s.InsertEvent? && !Rescues(s, v)
    ensures Stranded(Apply(w, s), v)
  {
    var w' := Apply(w, s);
    StrandedAppend(w.events, w'.events, v);
    hide HasOpenDeadline;
  }

  lemma CloseElsewhere(w: World, e: nat, v: nat)
    requires Stranded(w, v)
    ensures Stranded(MarkCancelled(w, e), v)
  {
    MarkCancelledTouches(w, e);
    hide MarkCancelled;
    ClosedStays(w.events, MarkCancelled(w, e).events, v);
  }

  lemma ClosedStays(es: seq<EventRow>, es': seq<EventRow>, v: nat)
    requires !HasOpenDeadline(es, v) && KeepsEvents(es, es') && |es'| == |es|
    ensures !HasOpenDeadline(es', v)
  {
    forall e | 0 <= e < |es'| && es'[e].vault == v
      ensures !es'[e].OpenTimed()
    {
      assert KeepsEvent(es[e], es'[e]);
    }
  }

  lemma PartElsewhere(w: World, t: Ticket, part: Part, v: nat)
    requires Stranded(w, v)
    ensures Stranded(PerformWriteStep(w, t, part), v)
  {
    if t in w.performing {
      MarkReleasedKeeps(w, t.event);
      MarkReleasedTouches(w, t.event);
      SetStateTouches(w, t.vault, Released, Some(w.clock));
      SetStateTouches(w, t.vault, Active, None);
      hide SetState, MarkReleased;
      ClosedStays(w.events, MarkReleased(w, t.event).events, v);
      hide HasOpenDeadline;
    }
  }

  lemma EndElsewhere(w: World, t: Ticket, v: nat)
    requires Stranded(w, v)
    ensures Stranded(Apply(w, PerformEnd(t)), v)
  {
    assert forall u :: u in w.performing - multiset{t} ==> u in w.performing;
  }

  /** And each of the three does it. */
  lemma RescuesMoves(w: World, s: Step, v: nat)
    requires Stranded(w, v) && Rescues(s, v)
    ensures !Stranded(Apply(w, s), v)
  {
    if s.InsertEvent? {
      var w' := Apply(w, s);
      assert w'.events[|w.events|].vault == v && w'.events[|w.events|].OpenTimed();
    } else {
      WhoWrites(w, s, v, if s.Cancel? then Active else Verdict(s.observed, s.evidence));
      hide Apply, Verdict;
    }
  }

  /** A stranded vault stays so through any step but these, by anybody. */
  lemma StrandedIff(w: World, s: Step, v: nat)
    requires Stranded(w, v)
    ensures Stranded(Apply(w, s), v) <==> !Rescues(s, v)
  {
    hide Stranded, Rescues, Apply;
    if Rescues(s, v) {
      RescuesMoves(w, s, v);
    } else {
      StrandedStep(w, s, v);
    }
  }

  lemma StrandedAppend(es: seq<EventRow>, es': seq<EventRow>, v: nat)
    requires !HasOpenDeadline(es, v) && |es'| == |es| + 1 && es <= es'
    requires es'[|es|].vault != v || !es'[|es|].OpenTimed()
    ensures !HasOpenDeadline(es', v)
  {
    forall e | 0 <= e < |es'| && es'[e].vault == v
      ensures !es'[e].OpenTimed()
    {
      if e < |es| {
        assert es'[e] == es[e];
      }
    }
  }

  lemma CancelElsewhere(w: World, u: nat, observed: VaultState, closes: bool, v: nat)
    requires Stranded(w, v) && u != v
    ensures Stranded(CancelStep(w, u, observed, closes), v)
  {
    if u < |w.vaults| && observed == CoolingOff {
      var w1 := SetState(w, u, Active, None);
      NewestOpenFinds(w1, u, |w1.events|);
    }
  }

  lemma PerformElsewhere(w: World, t: Ticket, stop: Stop, v: nat)
    requires Stranded(w, v)
    ensures Stranded(PerformStep(w, t, stop), v)
  {
    if t in w.performing {
      PerformTouches(w, t, stop);
      MarkReleasedTouches(w, t.event);
      hide PerformStep, MarkReleased, Issued;
      assert forall u :: u in w.performing - multiset{t} ==> u in w.performing;
    } else {
      assert PerformStep(w, t, stop) == w;
    }
  }

  lemma EventLetterElsewhere(w: World, l: nat, upTo: EventStop, v: nat)
    requires Stranded(w, v)
    ensures Stranded(ReleaseEventLetterStep(w, l, upTo), v)
  {
    var w' := ReleaseEventLetterStep(w, l, upTo);
    if EventLetterReady(w, l) {
      EventLetterTouches(w, l, upTo);
      hide ReleaseEventLetterStep;
      if !upTo.BeforeEvent? {
        assert w.events <= w'.events;
        StrandedAppend(w.events, w'.events, v);
      }
    }
  }

  /** No passage of time, poll, timer, restart or signal ever moves a stranded vault: only its own
      principal's cancel does, the late insert of its event, or an aggregator's stale write. */
  lemma {:induction false} StrandedForGood(w: World, run: seq<Step>, j: nat, v: nat)
    requires Stranded(w, v) && j <= |run|
    requires forall i :: 0 <= i < |run| ==> !Rescues(run[i], v)
    ensures Stranded(At(w, run, j), v)
  {
    hide Apply, Stranded, Rescues;
    if j > 0 {
      StrandedForGood(w, run, j - 1, v);
      StrandedStep(At(w, run, j - 1), run[j - 1], v);
    }
  }
}
