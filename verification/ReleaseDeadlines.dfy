/**
 Deadline safety under its exact condition. Handlers are whole, but nothing else is assumed:
 observations may be stale, cancels may leave their event open, tickets and events may outlive
 their episode. What has to hold is one condition on each entry into COOLING_OFF, and an entry that
 fails it can be followed by an early claim with nothing but time, polls and claims. (At the end:
 what takes a vault out of RELEASED.)
 */
module ReleaseDeadlines {
  import opened Domain
  import opened ReleaseModel
  import opened ReleaseSafety
  import opened ReleaseCounting

  predicate Before(clock: int, d: Option<int>) {
    d.None? || clock < d.value
  }

  /** The step records this deadline for the vault it moves into COOLING_OFF. */
  function EntryDeadline(w: World, s: Step): Option<int> {
    match s
    case Begin(_, _, cool, completes) => if completes then Some(w.clock + Max(cool, 1)) else None
    case Aggregate(v, _, _, _, completes) =>
      if completes && v < |w.vaults| then Some(w.clock + w.vaults[v].coolingOffSeconds) else None
    case DuressEnter(v, _, completes) =>
      if completes && v < |w.vaults| then Some(w.clock + w.vaults[v].coolingOffSeconds) else None
    case _ => None
  }

  /** No ticket of the vault wakes before `d`, and none of its open events falls due before. */
  ghost predicate Shut(w: World, v: nat, d: Option<int>) {
    Before(w.clock, d) ==>
      && (forall t :: t in w.tickets && t.vault == v ==> !Before(t.wakeAt, d))
      && (forall e :: 0 <= e < |w.events| && w.events[e].vault == v && w.events[e].OpenTimed() ==>
            !Before(w.events[e].deadline.value, d))
  }

  /** Whoever enters, nothing older can claim the vault before the deadline just recorded. */
  ghost predicate PunctualStep(w: World, s: Step) {
    !HalfHandler(s) && forall v: nat :: Enters(w, s, v) ==> Shut(w, v, EntryDeadline(w, s))
  }

  ghost predicate Punctual(w: World, run: seq<Step>) {
    forall j :: 0 <= j < |run| ==> PunctualStep(At(w, run, j), run[j])
  }

  // ---- Exactly when an entry is harmful ----

  predicate Quiet(s: Step) {
    s.Advance? || s.Poll? || s.Claim?
  }

  /** With time, polls and claims alone, the vault can be claimed before `d`. */
  ghost predicate CanBeClaimedBefore(w: World, v: nat, d: Option<int>) {
    exists run: seq<Step>, t: Ticket :: ClaimedBefore(w, run, t, v, d)
  }

  ghost predicate ClaimedBefore(w: World, run: seq<Step>, t: Ticket, v: nat, d: Option<int>) {
    && (forall j :: 0 <= j < |run| ==> Quiet(run[j]))
    && t.vault == v && Wins(At(w, run, |run|), t) && Before(At(w, run, |run|).clock, d)
  }

  lemma QuietKeepsShut(w: World, s: Step, v: nat, d: Option<int>)
    requires Shut(w, v, d) && Quiet(s)
    ensures Shut(Apply(w, s), v, d)
  {
    if s.Poll? {
      PollLists(w);
      hide DueTickets;
    } else if s.Claim? {
      ClaimTouches(w, s.t);
      hide ClaimStep, Due;
    }
  }

  /** The poll adds due rows to the list, and nothing else happens. */
  lemma PollLists(w: World)
    ensures var w' := Apply(w, Poll);
      && w' == w.(tickets := w'.tickets)
      && forall t :: t in w'.tickets ==> t in w.tickets || Listed(w, t)
  {
    DueTicketsShape(w, |w.events|);
    hide DueTickets, Due;
    assert forall t :: t in multiset(DueTickets(w, |w.events|)) ==> t in DueTickets(w, |w.events|);
  }

  /** The poll loop listed it. */
  predicate Listed(w: World, t: Ticket) {
    t.wakeAt == w.clock && Due(w, t.event) && w.events[t.event].vault == t.vault
  }

  lemma {:induction false} QuietRunKeepsShut(w: World, run: seq<Step>, v: nat, d: Option<int>, j: nat)
    requires Shut(w, v, d) && j <= |run| && forall i :: 0 <= i < |run| ==> Quiet(run[i])
    ensures Shut(At(w, run, j), v, d)
  {
    hide Apply, Shut;
    if j > 0 {
      QuietRunKeepsShut(w, run, v, d, j - 1);
      QuietKeepsShut(At(w, run, j - 1), run[j - 1], v, d);
    }
  }

  lemma ShutIsSafe(w: World, v: nat, d: Option<int>)
    requires Shut(w, v, d)
    ensures !CanBeClaimedBefore(w, v, d)
  {
    forall run: seq<Step>, t: Ticket
      ensures !ClaimedBefore(w, run, t, v, d)
    {
      if forall i :: 0 <= i < |run| ==> Quiet(run[i]) {
        QuietRunKeepsShut(w, run, v, d, |run|);
      }
    }
  }

  /** A ticket that wakes early claims early. */
  lemma EarlyTicketClaims(w: World, v: nat, d: Option<int>, t: Ticket)
    requires InState(w, v, CoolingOff) && Before(w.clock, d)
    requires t in w.tickets && t.vault == v && Before(t.wakeAt, d)
    ensures CanBeClaimedBefore(w, v, d)
  {
    var wait: nat := if t.wakeAt <= w.clock then 0 else t.wakeAt - w.clock;
    var run := [Advance(wait)];
    assert At(w, run, 0) == w && At(w, run, 1) == w.(clock := w.clock + wait);
    assert ClaimedBefore(w, run, t, v, d);
  }

  /** So does the poll loop, through an open event that falls due early. */
  lemma EarlyEventClaims(w: World, v: nat, d: Option<int>, e: nat)
    requires InState(w, v, CoolingOff) && Before(w.clock, d)
    requires e < |w.events| && w.events[e].vault == v && w.events[e].OpenTimed()
    requires Before(w.events[e].deadline.value, d)
    ensures CanBeClaimedBefore(w, v, d)
  {
    var due := w.events[e].deadline.value;
    var wait: nat := if due <= w.clock then 0 else due - w.clock;
    var run := [Advance(wait), Poll];
    var u := w.(clock := w.clock + wait);
    PollClaims(u, e);
    assert Apply(w, Advance(wait)) == u;
    hide Apply, Due, Wins, InState;
    assert At(w, run, 0) == w && At(w, run, 1) == u && At(w, run, 2) == Apply(u, Poll);
    assert ClaimedBefore(w, run, Ticket(v, e, w.events[e].drill, u.clock), v, d);
  }

  lemma PollClaims(w: World, e: nat)
    requires Due(w, e)
    ensures Apply(w, Poll).clock == w.clock
    ensures Wins(Apply(w, Poll), Ticket(w.events[e].vault, e, w.events[e].drill, w.clock))
  {
    DueTicketsShape(w, |w.events|);
    assert Ticket(w.events[e].vault, e, w.events[e].drill, w.clock) in DueTickets(w, |w.events|);
  }

  lemma EntryShape(w: World, s: Step, v: nat)
    requires Enters(w, s, v)
    ensures s.Begin? || s.Aggregate? || s.DuressEnter?
    ensures s.v == v && v < |w.vaults| && Apply(w, s).clock == w.clock
    ensures var w', d := Apply(w, s), EntryDeadline(w, s);
      && w'.performing == w.performing
      && (forall t :: t in w'.tickets
            <==> t in w.tickets || (s.Begin? && d.Some? && t == Ticket(v, |w.events|, s.drill, d.value)))
      && (if d.Some? then w'.events == w.events + [EventRow(v, s.Begin? && s.drill, d, w.clock, None, None)]
          else w'.events == w.events)
  {
    WhoWrites(w, s, v, CoolingOff);
    hide PerformStep, ReleaseEventLetterStep, ClaimStep, CancelStep, DueTickets, Verdict, InDuress, PerformWriteStep;
    assert s.Begin? || s.Aggregate? || s.DuressEnter? by { hide Apply; }
    if s.Begin? {
      hide AggregateStep, DuressEnterStep;
    } else {
      hide BeginStep;
      EntersDurably(w, s, v);
      hide AggregateStep, DuressEnterStep, Enters;
    }
  }

  lemma EntersDurably(w: World, s: Step, v: nat)
    requires (s.Aggregate? || s.DuressEnter?) && Writes(w, s, v, CoolingOff)
    ensures InState(w, v, s.observed) && Apply(w, s) == EnterDurably(w, v, s.observed, s.completes)
  {
    hide Verdict, InDuress;
  }

  /** Every way into COOLING_OFF: a claim can come before the recorded deadline (at all, if none was
      recorded) if and only if an older ticket of the vault wakes, or an open event of its falls
      due, before it. */
  lemma EntryHarmfulIff(w: World, s: Step, v: nat)
    ensures Enters(w, s, v) ==>
      (CanBeClaimedBefore(Apply(w, s), v, EntryDeadline(w, s)) <==> !Shut(w, v, EntryDeadline(w, s)))
  {
    if !Enters(w, s, v) {
      return;
    }
    EntryShape(w, s, v);
    var w', d := Apply(w, s), EntryDeadline(w, s);
    hide Apply, EntryDeadline;
    if Shut(w, v, d) {
      assert Shut(w', v, d);
      ShutIsSafe(w', v, d);
    } else if t :| t in w.tickets && t.vault == v && Before(t.wakeAt, d) {
      EarlyTicketClaims(w', v, d, t);
    } else {
      var e :| 0 <= e < |w.events| && w.events[e].vault == v && w.events[e].OpenTimed()
               && Before(w.events[e].deadline.value, d);
      assert w'.events[e] == w.events[e];
      EarlyEventClaims(w', v, d, e);
    }
  }

  // ---- Deadline safety ----

  /** The vault's newest event with a deadline, among the first `n`. */
  function NewestTimed(es: seq<EventRow>, v: nat, n: nat): Option<nat>
    requires n <= |es|
  {
    if n == 0 then None
    else if es[n - 1].vault == v && es[n - 1].deadline.Some? then Some(n - 1)
    else NewestTimed(es, v, n - 1)
  }

  /** The vault cannot be claimed before the deadline of its newest event, which is open. */
  ghost predicate Guarded(w: World, v: nat) {
    match NewestTimed(w.events, v, |w.events|)
    case None => false
    case Some(e) =>
      && e < |w.events| && w.events[e].vault == v && w.events[e].OpenTimed()
      && Shut(w, v, w.events[e].deadline)
      && forall t :: t in w.performing ==> t.event != e
  }

  ghost predicate TicketGood(es: seq<EventRow>, t: Ticket) {
    t.event < |es| && es[t.event].vault == t.vault
  }

  ghost predicate TicketsGood(w: World) {
    && (forall t :: t in w.tickets ==> TicketGood(w.events, t))
    && (forall t :: t in w.performing ==> TicketGood(w.events, t))
  }

  /** A cooling vault is guarded, or cannot be claimed at all. */
  ghost predicate CoolingGood(w: World, v: nat) {
    InState(w, v, CoolingOff) ==> Guarded(w, v) || Shut(w, v, None)
  }

  ghost predicate DeadlineInv(w: World) {
    TicketsGood(w) && forall v: nat :: CoolingGood(w, v)
  }

  /** Between `w` and `w'` nothing happens to vault `v` but time, lost work, closed events other
      than its newest, and events of other vaults or without a deadline. */
  ghost predicate Undisturbed(w: World, w': World, v: nat) {
    && w.clock <= w'.clock && |w.events| <= |w'.events|
    && (forall e :: 0 <= e < |w.events| ==> KeepsEvent(w.events[e], w'.events[e]))
    && (forall e :: |w.events| <= e < |w'.events| ==> w'.events[e].vault != v || w'.events[e].deadline.None?)
    && (forall t :: t in w'.tickets && t.vault == v ==> t in w.tickets || Listed(w, t))
    && (forall t :: t in w'.performing ==> t in w.performing || t.vault != v)
  }

  lemma {:induction false} NewestTimedKept(es: seq<EventRow>, es': seq<EventRow>, v: nat, n: nat)
    requires |es| <= n <= |es'|
    requires forall e :: 0 <= e < |es| ==> KeepsEvent(es[e], es'[e])
    requires forall e :: |es| <= e < |es'| ==> es'[e].vault != v || es'[e].deadline.None?
    ensures NewestTimed(es', v, n) == NewestTimed(es, v, |es|)
  {
    if n > |es| {
      NewestTimedKept(es, es', v, n - 1);
    } else {
      NewestTimedSame(es, es', v, n);
    }
  }

  lemma {:induction false} NewestTimedSame(es: seq<EventRow>, es': seq<EventRow>, v: nat, n: nat)
    requires n <= |es| <= |es'|
    requires forall e :: 0 <= e < |es| ==> KeepsEvent(es[e], es'[e])
    ensures NewestTimed(es', v, n) == NewestTimed(es, v, n)
  {
    if n > 0 {
      NewestTimedSame(es, es', v, n - 1);
    }
  }

  lemma ShutKept(w: World, w': World, v: nat, d: Option<int>)
    requires Undisturbed(w, w', v) && Shut(w, v, d)
    ensures Shut(w', v, d)
  {}

  lemma GuardKept(w: World, w': World, v: nat)
    requires Undisturbed(w, w', v) && Guarded(w, v) && DeadlineInv(w)
    requires forall t :: t in w'.performing ==> TicketGood(w'.events, t)
    requires var e := NewestTimed(w.events, v, |w.events|).value; w'.events[e].Open()
    ensures Guarded(w', v)
  {
    NewestTimedKept(w.events, w'.events, v, |w'.events|);
    hide NewestTimed;
    ShutKept(w, w', v, w.events[NewestTimed(w.events, v, |w.events|).value].deadline);
  }

  /** A step that leaves a cooling vault alone keeps it safe. */
  lemma CoolingKept(w: World, w': World, v: nat)
    requires DeadlineInv(w) && InState(w, v, CoolingOff) && Undisturbed(w, w', v)
    requires forall t :: t in w'.performing ==> TicketGood(w'.events, t)
    requires forall e :: 0 <= e < |w.events| && w.events[e].vault == v && w.events[e].Open() && !w'.events[e].Open() ==>
               exists t :: t in w.performing && t.event == e
    ensures CoolingGood(w', v)
  {
    assert CoolingGood(w, v);
    if Guarded(w, v) {
      GuardKept(w, w', v);
    } else {
      ShutKept(w, w', v, None);
    }
  }

  /** An entry nothing older can spoil. */
  lemma EntryGuards(w: World, s: Step, v: nat)
    requires DeadlineInv(w) && PunctualStep(w, s) && Enters(w, s, v)
    ensures CoolingGood(Apply(w, s), v)
  {
    EntryShape(w, s, v);
    var w', d := Apply(w, s), EntryDeadline(w, s);
    assert Shut(w, v, d);
    hide Apply, EntryDeadline;
    assert Shut(w', v, d);
    if d.Some? {
      assert NewestTimed(w'.events, v, |w'.events|) == Some(|w.events|);
      assert forall t :: t in w'.performing ==> TicketGood(w.events, t);
    }
  }

  /** Events are never closed but by a cancel or by the release they belong to. */
  ghost predicate ClosesOwn(w: World, w': World, v: nat)
    requires |w.events| <= |w'.events|
  {
    forall e :: 0 <= e < |w.events| && w.events[e].vault == v && w.events[e].Open() && !w'.events[e].Open() ==>
      exists t :: t in w.performing && t.event == e
  }

  /** What one step means for a vault that is cooling before and after it. */
  ghost predicate Spares(w: World, w': World, v: nat) {
    InState(w, v, CoolingOff) && InState(w', v, CoolingOff) ==>
      |w.events| <= |w'.events| && Undisturbed(w, w', v) && ClosesOwn(w, w', v)
  }

  lemma BeginSpares(w: World, u: nat, drill: bool, cool: int, completes: bool, v: nat)
    requires TicketsGood(w)
    ensures var w' := BeginStep(w, u, drill, cool, completes); TicketsGood(w') && Spares(w, w', v)
  {
    var w' := BeginStep(w, u, drill, cool, completes);
    if InState(w, u, Active) {
      assert w'.performing == w.performing && w'.clock == w.clock;
      assert InState(w, v, CoolingOff) ==> u != v;
      if completes {
        var t := Ticket(u, |w.events|, drill, w.clock + Max(cool, 1));
        AppendSpares(w, w', u, v, t);
      } else {
        SameSpares(w, w', v);
      }
    } else {
      SameSpares(w, w', v);
    }
  }

  /** A timed event of another vault, and its timer. */
  lemma AppendSpares(w: World, w': World, u: nat, v: nat, t: Ticket)
    requires TicketsGood(w) && (InState(w, v, CoolingOff) ==> u != v)
    requires w'.clock == w.clock && w'.performing == w.performing
    requires w'.tickets == w.tickets || w'.tickets == w.tickets + multiset{t}
    requires |w'.events| == |w.events| + 1 && w'.events[..|w.events|] == w.events
    requires w'.events[|w.events|].vault == u && t.vault == u && t.event == |w.events|
    ensures TicketsGood(w') && Spares(w, w', v)
  {
    assert forall e :: 0 <= e < |w.events| ==> w'.events[e] == w'.events[..|w.events|][e] == w.events[e];
    assert forall x :: x in w'.tickets ==> x in w.tickets || x == t;
    AppendedTickets(w, w', t);
    hide TicketsGood;
  }

  lemma AppendedTickets(w: World, w': World, t: Ticket)
    requires TicketsGood(w) && w'.performing == w.performing && |w'.events| == |w.events| + 1
    requires forall e :: 0 <= e < |w.events| ==> w'.events[e] == w.events[e]
    requires forall x :: x in w'.tickets ==> x in w.tickets || x == t
    requires TicketGood(w'.events, t)
    ensures TicketsGood(w')
  {}

  lemma EnterSpares(w: World, u: nat, from: VaultState, completes: bool, v: nat)
    requires TicketsGood(w) && from != CoolingOff
    ensures var w' := EnterDurably(w, u, from, completes); TicketsGood(w') && Spares(w, w', v)
  {
    var w' := EnterDurably(w, u, from, completes);
    if InState(w, u, from) && completes {
      AppendSpares(w, w', u, v, Ticket(u, |w.events|, false, 0));
    } else {
      SameSpares(w, w', v);
    }
  }

  lemma AggregateSpares(w: World, u: nat, observed: VaultState, frozen: bool, x: Evidence, completes: bool, v: nat)
    requires TicketsGood(w)
    ensures var w' := AggregateStep(w, u, observed, frozen, x, completes); TicketsGood(w') && Spares(w, w', v)
  {
    if Watchable(observed) {
      EnterSpares(w, u, observed, completes, v);
    }
    hide EnterDurably, Verdict, TicketsGood, Spares;
    var w' := AggregateStep(w, u, observed, frozen, x, completes);
    if w' != w && w' != EnterDurably(w, u, observed, completes) {
      assert w'.events == w.events && w'.tickets == w.tickets && w'.performing == w.performing && w'.clock == w.clock;
    }
    if w'.events == w.events && w'.tickets == w.tickets && w'.performing == w.performing && w'.clock == w.clock {
      SameSpares(w, w', v);
    }
  }

  lemma CancelSpares(w: World, u: nat, observed: VaultState, closes: bool, v: nat)
    requires TicketsGood(w)
    ensures var w' := CancelStep(w, u, observed, closes); TicketsGood(w') && Spares(w, w', v)
  {
    CancelTouches(w, u, observed, closes);
    if u < |w.vaults| && observed == CoolingOff {
      CancelLeavesOthers(w, u, closes, v);
    }
    hide CancelStep;
  }

  lemma CancelLeavesOthers(w: World, u: nat, closes: bool, v: nat)
    requires u < |w.vaults|
    ensures var w' := CancelStep(w, u, CoolingOff, closes);
      && |w'.events| == |w.events| && (InState(w', v, CoolingOff) ==> v != u)
      && forall e :: 0 <= e < |w.events| && w.events[e].vault != u ==> w'.events[e] == w.events[e]
  {
    NewestOpenFinds(SetState(w, u, Active, None), u, |w.events|);
    hide NewestOpen;
  }

  lemma PollSpares(w: World, v: nat)
    requires TicketsGood(w)
    ensures var w' := Apply(w, Poll); TicketsGood(w') && Spares(w, w', v)
  {
    PollLists(w);
    hide Apply;
  }

  lemma ClaimSpares(w: World, t: Ticket, v: nat)
    requires TicketsGood(w)
    ensures var w' := ClaimStep(w, t); TicketsGood(w') && Spares(w, w', v)
  {
    ClaimTouches(w, t);
    if InState(w, v, CoolingOff) && InState(ClaimStep(w, t), v, CoolingOff) {
      ClaimedLeaves(w, t, v);
    }
    hide ClaimStep, InState, TicketsGood, Spares, Wins;
    WorkSpares(w, ClaimStep(w, t), v);
  }

  /** Tickets and work come and go, and no ticket of the vault goes to work while it stays cooling. */
  lemma WorkSpares(w: World, w': World, v: nat)
    requires TicketsGood(w) && w'.events == w.events && w.clock <= w'.clock
    requires forall t :: t in w'.tickets ==> t in w.tickets
    requires forall t :: t in w'.performing ==> t in w.performing || t in w.tickets
    requires InState(w, v, CoolingOff) && InState(w', v, CoolingOff) ==>
               forall t :: t in w'.performing && t.vault == v ==> t in w.performing
    ensures TicketsGood(w') && Spares(w, w', v)
  {}

  lemma ClaimedLeaves(w: World, t: Ticket, v: nat)
    requires InState(w, v, CoolingOff) && InState(ClaimStep(w, t), v, CoolingOff)
    ensures forall u :: u in ClaimStep(w, t).performing && u.vault == v ==> u in w.performing
  {
    assert InState(w, t.vault, CoolingOff) ==> forall u :: u in w.performing + multiset{t} ==>
        u in w.performing || u == t;
  }

  /** perform_release adds no work and changes no event but its own, which keeps its deadline. */
  lemma PerformTables(w: World, t: Ticket, stop: Stop)
    ensures var w' := PerformStep(w, t, stop);
      && w'.tickets == w.tickets && w'.performing <= w.performing && w'.clock == w.clock
      && |w'.events| == |w.events|
      && forall e :: 0 <= e < |w.events| ==>
           KeepsEvent(w.events[e], w'.events[e]) && (w'.events[e] != w.events[e] ==> t in w.performing && e == t.event)
  {
    if t in w.performing {
      PerformTouches(w, t, stop);
      MarkReleasedTouches(w, t.event);
      hide PerformStep, Issued, MarkReleased;
    } else {
      assert PerformStep(w, t, stop) == w;
    }
  }

  lemma PerformSpares(w: World, t: Ticket, stop: Stop, v: nat)
    requires TicketsGood(w)
    ensures var w' := PerformStep(w, t, stop); TicketsGood(w') && Spares(w, w', v)
  {
    PerformTables(w, t, stop);
    hide PerformStep;
    var w' := PerformStep(w, t, stop);
    assert forall u :: u in w'.performing ==> u in w.performing;
  }

  lemma EventLetterSpares(w: World, l: nat, upTo: EventStop, v: nat)
    requires TicketsGood(w)
    ensures var w' := ReleaseEventLetterStep(w, l, upTo); TicketsGood(w') && Spares(w, w', v)
  {
    var w' := ReleaseEventLetterStep(w, l, upTo);
    if EventLetterReady(w, l) {
      EventLetterTouches(w, l, upTo);
      hide ReleaseEventLetterStep, EventLetterReady;
      UntimedSpares(w, w', v);
    } else {
      assert w' == w;
      hide ReleaseEventLetterStep, EventLetterReady;
      SameSpares(w, w, v);
    }
  }

  /** At most one event more, and it has no deadline. */
  lemma UntimedSpares(w: World, w': World, v: nat)
    requires TicketsGood(w) && w'.tickets == w.tickets && w'.performing == w.performing && w'.clock == w.clock
    requires |w.events| <= |w'.events| && w'.events[..|w.events|] == w.events
    requires forall e :: |w.events| <= e < |w'.events| ==> w'.events[e].deadline.None?
    ensures TicketsGood(w') && Spares(w, w', v)
  {
    assert forall e :: 0 <= e < |w.events| ==> w'.events[e] == w'.events[..|w.events|][e] == w.events[e];
  }

  lemma StepSpares(w: World, s: Step, v: nat)
    requires TicketsGood(w) && !HalfHandler(s)
    ensures TicketsGood(Apply(w, s)) && Spares(w, Apply(w, s), v)
  {
    hide TicketsGood, Spares;
    match s
    case Begin(u, drill, cool, completes) => BeginSpares(w, u, drill, cool, completes, v);
    case Cancel(u, observed, closes) => CancelSpares(w, u, observed, closes, v);
    case Aggregate(u, observed, frozen, x, completes) => AggregateSpares(w, u, observed, frozen, x, completes, v);
    case DuressEnter(u, observed, completes) =>
      if Watchable(observed) {
        EnterSpares(w, u, observed, completes, v);
      } else {
        SameSpares(w, w, v);
      }
    case Poll => PollSpares(w, v);
    case Claim(t) => ClaimSpares(w, t, v);
    case Perform(t, stop) => PerformSpares(w, t, stop, v);
    case Crash(lost, lostPerforming) => CrashSpares(w, lost, lostPerforming, v);
    case ReleaseEventLetter(l, upTo) => EventLetterSpares(w, l, upTo, v);
    case _ => SameSpares(w, Apply(w, s), v);
  }

  lemma CrashSpares(w: World, lost: multiset<Ticket>, lostPerforming: multiset<Ticket>, v: nat)
    requires TicketsGood(w)
    ensures var w' := Apply(w, Crash(lost, lostPerforming)); TicketsGood(w') && Spares(w, w', v)
  {
    assert forall t :: t in w.tickets - lost ==> t in w.tickets;
    assert forall t :: t in w.performing - lostPerforming ==> t in w.performing;
    hide TicketsGood, Spares;
    WorkSpares(w, Apply(w, Crash(lost, lostPerforming)), v);
  }

  lemma SameSpares(w: World, w': World, v: nat)
    requires TicketsGood(w) && w'.events == w.events && w'.tickets == w.tickets && w'.performing == w.performing
    requires w.clock <= w'.clock
    ensures TicketsGood(w') && Spares(w, w', v)
  {}

  lemma StepKeepsDeadlineInv(w: World, s: Step)
    requires DeadlineInv(w) && PunctualStep(w, s)
    ensures DeadlineInv(Apply(w, s))
  {
    assert TicketsGood(w);
    var w' := Apply(w, s);
    StepSpares(w, s, 0);
    hide Apply;
    forall v: nat | InState(w', v, CoolingOff)
      ensures CoolingGood(w', v)
    {
      if InState(w, v, CoolingOff) {
        StepSpares(w, s, v);
        CoolingKept(w, w', v);
      } else {
        EntryGuards(w, s, v);
      }
    }
  }

  lemma StartDeadlineInv(w: World)
    requires Start(w)
    ensures DeadlineInv(w)
  {}

  lemma {:induction false} RunKeepsDeadlineInv(w: World, run: seq<Step>, j: nat)
    requires Start(w) && Punctual(w, run) && j <= |run|
    ensures DeadlineInv(At(w, run, j))
  {
    hide Apply, DeadlineInv, PunctualStep;
    if j == 0 {
      StartDeadlineInv(w);
    } else {
      RunKeepsDeadlineInv(w, run, j - 1);
      StepKeepsDeadlineInv(At(w, run, j - 1), run[j - 1]);
    }
  }

  /** The vault's newest deadline-bearing event is open, uncancelled, and due. */
  ghost predicate NewestDue(w: World, v: nat) {
    match NewestTimed(w.events, v, |w.events|)
    case None => false
    case Some(e) => e < |w.events| && w.events[e].OpenTimed() && w.events[e].deadline.value <= w.clock
  }

  lemma WinIsDue(w: World, t: Ticket)
    requires DeadlineInv(w) && Wins(w, t)
    ensures NewestDue(w, t.vault)
  {
    assert CoolingGood(w, t.vault);
    assert !Shut(w, t.vault, None);
    hide NewestTimed;
    assert Guarded(w, t.vault);
  }

  /** If no entry is harmful, a vault enters RELEASING only by a claim, and only when its newest
      event is open, uncancelled and due: in every run of whole handlers, whatever their
      observations, failures, leftover tickets and leftover events. */
  lemma DeadlineSafety(w: World, run: seq<Step>, j: nat, v: nat)
    requires Start(w) && Punctual(w, run) && j < |run|
    ensures var u := At(w, run, j);
      !InState(u, v, Releasing) && InState(At(w, run, j + 1), v, Releasing)
      ==> run[j].Claim? && Wins(u, run[j].t) && run[j].t.vault == v && NewestDue(u, v)
  {
    hide Apply, DeadlineInv, PunctualStep, Wins, NewestDue;
    var u := At(w, run, j);
    RunKeepsDeadlineInv(w, run, j);
    OnlyClaimsRelease(u, run[j], v);
    if run[j].Claim? && Wins(u, run[j].t) {
      WinIsDue(u, run[j].t);
    }
  }

  // ---- RELEASED is for good ----

  /** The closing write of a drill's release. */
  predicate ClosesDrill(w: World, s: Step, v: nat) {
    match s
    case Perform(t, stop) => t in w.performing && t.vault == v && t.drill && stop == Done
    case PerformWrite(t, part) => t in w.performing && t.vault == v && t.drill && part == StateActive
    case _ => false
  }

  lemma VerdictRange(observed: VaultState, x: Evidence)
    requires Watchable(observed)
    ensures Watchable(Verdict(observed, x)) || Verdict(observed, x) == CoolingOff
  {}

  /** In any world, of all steps, statements of overtaken handlers included, exactly these take a vault
      out of RELEASED: a cancel's or an aggregator's write that does not ask, and a drill's last. */
  lemma LeavesReleasedIff(w: World, s: Step, v: nat)
    requires InState(w, v, Released)
    ensures !InState(Apply(w, s), v, Released) <==> Overwrites(s, v) || ClosesDrill(w, s, v)
  {
    hide Apply, Verdict, InDuress;
    WhoWrites(w, s, v, Released);
    var x := Apply(w, s).vaults[v].state;
    WhoWrites(w, s, v, x);
    if Overwrites(s, v) {
      WhoWrites(w, s, v, if s.Cancel? then Active else Verdict(s.observed, s.evidence));
      if s.Aggregate? {
        VerdictRange(s.observed, s.evidence);
      }
    } else if ClosesDrill(w, s, v) {
      WhoWrites(w, s, v, Active);
    }
  }

  /** Releases of `v` under way have it to themselves. */
  ghost predicate Alone(w: World, v: nat) {
    && (forall t :: t in w.performing && t.vault == v ==> InState(w, v, Releasing) && w.performing[t] == 1)
    && (forall t, u :: t in w.performing && u in w.performing && t.vault == v && u.vault == v ==> t == u)
  }

  /** On `v`, a perform_release nobody overtakes, and no write over what has not been read. */
  predicate CarefulStep(w: World, s: Step, v: nat) {
    && (s.PerformWrite? ==> s.t.vault != v)
    && (v < |w.vaults| && Overwrites(s, v) ==> InState(w, v, s.observed))
  }

  ghost predicate CarefulRun(w: World, run: seq<Step>, v: nat) {
    forall j :: 0 <= j < |run| ==> CarefulStep(At(w, run, j), run[j], v)
  }

  lemma WorkerCount(w: World, s: Step, t: Ticket)
    requires t in Apply(w, s).performing && t in w.performing && w.performing[t] == 1
    requires !InState(w, t.vault, CoolingOff)
    ensures Apply(w, s).performing[t] == 1
    ensures s.Perform? ==> s.t != t
  {
    if s.Claim? {
      ClaimWorkers(w, s.t, t);
      hide ClaimStep, InState;
    } else if s.Perform? {
      PerformingAfterPerform(w, s.t, s.stop);
      PerformWorkers(w, s, t);
      hide Apply;
    } else if !s.Crash? && !s.PerformEnd? {
      PerformingElsewhere(w, s);
      hide Apply, InState;
    } else {
      hide InState;
    }
  }

  lemma ClaimWorkers(w: World, u: Ticket, t: Ticket)
    requires !InState(w, t.vault, CoolingOff)
    ensures ClaimStep(w, u).performing[t] == w.performing[t]
  {}

  lemma PerformWorkers(w: World, s: Step, t: Ticket)
    requires s.Perform? && t in w.performing && w.performing[t] == 1
    requires PerformStep(w, s.t, s.stop).performing
             == if s.t in w.performing then w.performing - multiset{s.t} else w.performing
    ensures Apply(w, s).performing[t] == if s.t == t then 0 else 1
  {
    hide PerformStep;
  }

  /** Into a vault that is RELEASING nobody writes but a release of its own. */
  lemma ReleasingStays(w: World, s: Step, v: nat)
    requires CarefulStep(w, s, v) && InState(w, v, Releasing)
    requires s.Perform? && s.t in w.performing ==> s.t.vault != v
    ensures InState(Apply(w, s), v, Releasing)
  {
    hide Apply, Verdict, InDuress, Landing, Wins;
    WhoWrites(w, s, v, Releasing);
    var x := Apply(w, s).vaults[v].state;
    WhoWrites(w, s, v, x);
    assert Writes(w, s, v, x) && s.Aggregate? && x != CoolingOff ==> Overwrites(s, v);
    assert Writes(w, s, v, x) && s.Cancel? ==> Overwrites(s, v);
  }

  lemma AloneStep(w: World, s: Step, v: nat)
    requires Alone(w, v) && CarefulStep(w, s, v)
    ensures Alone(Apply(w, s), v)
  {
    var w' := Apply(w, s);
    hide Apply, CarefulStep, InState, Wins;
    forall t | t in w'.performing && t.vault == v
      ensures InState(w', v, Releasing) && w'.performing[t] == 1
      ensures t !in w.performing ==> s == Claim(t) && forall u :: u in w.performing ==> u.vault != v
    {
      if t in w.performing {
        KeptWorker(w, s, t);
      } else {
        NewWorker(w, s, t);
      }
    }
  }

  lemma KeptWorker(w: World, s: Step, t: Ticket)
    requires Alone(w, t.vault) && CarefulStep(w, s, t.vault) && t in w.performing && t in Apply(w, s).performing
    ensures InState(Apply(w, s), t.vault, Releasing) && Apply(w, s).performing[t] == 1
  {
    assert InState(w, t.vault, Releasing);
    assert !InState(w, t.vault, CoolingOff);
    hide Apply, InState, Overwrites;
    WorkerCount(w, s, t);
    ReleasingStays(w, s, t.vault);
  }

  lemma NewWorker(w: World, s: Step, t: Ticket)
    requires Alone(w, t.vault) && t !in w.performing && t in Apply(w, s).performing
    ensures s == Claim(t) && InState(Apply(w, s), t.vault, Releasing) && Apply(w, s).performing[t] == 1
    ensures forall u :: u in w.performing ==> u.vault != t.vault
  {
    NewPerformer(w, s, t);
    assert w.performing[t] == 0;
  }

  lemma {:induction false} RunKeepsAlone(w: World, run: seq<Step>, j: nat, v: nat)
    requires Start(w) && CarefulRun(w, run, v) && j <= |run|
    ensures Alone(At(w, run, j), v)
  {
    hide Apply, CarefulStep;
    if j > 0 {
      RunKeepsAlone(w, run, j - 1, v);
      hide Alone;
      AloneStep(At(w, run, j - 1), run[j - 1], v);
    }
  }

  /** RELEASED is absorbing: no step takes a vault out of it in a run in which no write to that vault is
      stale and nobody comes between the statements of its releases (of which a drill's show it
      RELEASED for a moment). */
  lemma {:induction false} ReleasedAbsorbing(w: World, run: seq<Step>, i: nat, j: nat, v: nat)
    requires Start(w) && CarefulRun(w, run, v) && i <= j <= |run|
    ensures InState(At(w, run, i), v, Released) ==> InState(At(w, run, j), v, Released)
  {
    hide Apply, CarefulStep, InState;
    if i < j && InState(At(w, run, i), v, Released) {
      ReleasedAbsorbing(w, run, i, j - 1, v);
      RunKeepsAlone(w, run, j - 1, v);
      hide Alone, Overwrites;
      NobodyLeaves(At(w, run, j - 1), run[j - 1], v);
      LeavesReleasedIff(At(w, run, j - 1), run[j - 1], v);
    }
  }

  lemma NobodyLeaves(w: World, s: Step, v: nat)
    requires Alone(w, v) && CarefulStep(w, s, v) && InState(w, v, Released)
    ensures !Overwrites(s, v) && !ClosesDrill(w, s, v)
  {}
}
