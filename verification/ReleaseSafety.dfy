/**
 The invariant of orderly runs: a vault has at most one open release event with a deadline, and is
 released under that event, not before its deadline.
 */
module ReleaseSafety {
  import opened Domain
  import opened ReleaseModel
  import opened Deliveries
  import opened ReleaseInvariant

  /** The step moves `v` into COOLING_OFF. */
  ghost predicate Enters(w: World, s: Step, v: nat) {
    !InState(w, v, CoolingOff) && InState(Apply(w, s), v, CoolingOff)
  }

  /** Handler-level atomicity (no other actor between the statements of a handler, and every
      write acts on the state its vault is in), plus one hypothesis the code does not enforce: a
      vault does not enter COOLING_OFF again while a ticket of an earlier episode of its is out. */
  ghost predicate OrderlyStep(w: World, s: Step) {
    && !HalfHandler(s)
    && (s.Cancel? ==> s.closes && InState(w, s.v, s.observed))
    && (s.Aggregate? ==> InState(w, s.v, s.observed))
    && (forall t :: t in w.tickets ==> !Enters(w, s, t.vault))
  }

  ghost predicate Orderly(w: World, run: seq<Step>) {
    forall j :: 0 <= j < |run| ==> OrderlyStep(At(w, run, j), run[j])
  }

  /** A deployment whose release tables are still empty. */
  ghost predicate Start(w: World) {
    w.events == [] && w.claims == [] && w.tickets == multiset{} && w.performing == multiset{}
  }

  // ---- Each step keeps the invariant ----

  /** A vault at rest moves to `s` in the tables, keeping its other events and work. */
  lemma RestMoveKeepsInv(w: World, v: nat, row: VaultRow)
    requires Inv(w) && v < |w.vaults| && Watchable(w.vaults[v].state)
    requires Watchable(row.state) || (row.state == CoolingOff && forall t :: t in w.tickets ==> t.vault != v)
    ensures Inv(w.(vaults := w.vaults[v := row]))
    ensures forall e :: 0 <= e < |w.events| && w.events[e].vault == v ==> !w.events[e].Open()
  {
    var vs := w.vaults[v := row];
    EventsMove(w.vaults, vs, w.events, v);
    TicketsMove(w.vaults, vs, w.events, w.tickets, v);
    PerformingMove(w.clock, w.vaults, vs, w.events, w.performing, v);
    ClaimsMove(w.clock, w.vaults, vs, w.events, w.performing, w.claims, v);
  }

  lemma CreateEventKeepsInv(w: World, v: nat, drill: bool, deadline: Option<int>)
    requires Inv(w) && v < |w.vaults|
    requires if deadline.Some? then w.vaults[v].state == CoolingOff else w.vaults[v].state == Released
    requires deadline.Some? ==>
               forall e :: 0 <= e < |w.events| && w.events[e].vault == v ==> !w.events[e].Open()
    ensures Inv(CreateEvent(w, v, drill, deadline))
  {
    var row := EventRow(v, drill, deadline, w.clock, None, None);
    EventsAppend(w.vaults, w.events, row);
    TicketsAppend(w.vaults, w.events, w.tickets, row);
    PerformingAppend(w.clock, w.vaults, w.events, w.performing, row);
    ClaimsAppend(w.clock, w.vaults, w.events, w.performing, w.claims, row);
  }

  /** A vault that has just entered gets its event, and the event's timer. */
  lemma RecordKeepsInv(w: World, v: nat, drill: bool, endsAt: int)
    requires Inv(w) && InState(w, v, CoolingOff)
    requires forall e :: 0 <= e < |w.events| && w.events[e].vault == v ==> !w.events[e].Open()
    ensures var w' := CreateEvent(w, v, drill, Some(endsAt));
      Inv(w'.(tickets := w'.tickets + multiset{Ticket(v, |w.events|, drill, endsAt)}))
  {
    CreateEventKeepsInv(w, v, drill, Some(endsAt));
    var w' := CreateEvent(w, v, drill, Some(endsAt));
    TicketsAdd(w'.vaults, w'.events, w'.tickets, Ticket(v, |w.events|, drill, endsAt));
  }

  lemma BeginKeepsInv(w: World, v: nat, drill: bool, cool: int, completes: bool)
    requires Inv(w) && OrderlyStep(w, Begin(v, drill, cool, completes))
    ensures Inv(BeginStep(w, v, drill, cool, completes))
  {
    hide Inv;
    if InState(w, v, Active) {
      assert Enters(w, Begin(v, drill, cool, completes), v);
      var w1 := EnterCoolingOff(w, v);
      RestMoveKeepsInv(w, v, w1.vaults[v]);
      if completes {
        RecordKeepsInv(w1, v, drill, w.clock + Max(cool, 1));
      }
    }
  }

  lemma EnterDurablyKeepsInv(w: World, v: nat, from: VaultState, completes: bool)
    requires Inv(w) && Watchable(from)
    requires InState(w, v, from) ==> forall t :: t in w.tickets ==> t.vault != v
    ensures Inv(EnterDurably(w, v, from, completes))
  {
    hide Inv;
    if InState(w, v, from) {
      var w1 := EnterCoolingOff(w, v);
      RestMoveKeepsInv(w, v, w1.vaults[v]);
      if completes {
        CreateEventKeepsInv(w1, v, false, Some(w.clock + w.vaults[v].coolingOffSeconds));
      }
    }
  }

  lemma AggregateKeepsInv(w: World, s: Step)
    requires s.Aggregate? && Inv(w) && OrderlyStep(w, s)
    ensures Inv(Apply(w, s))
  {
    var next := Verdict(s.observed, s.evidence);
    if Watchable(s.observed) && next != s.observed {
      if next == CoolingOff {
        if !s.frozen {
          assert Enters(w, s, s.v);
          EnterDurablyKeepsInv(w, s.v, s.observed, s.completes);
        }
      } else {
        RestMoveKeepsInv(w, s.v, SetState(w, s.v, next, None).vaults[s.v]);
      }
    }
  }

  lemma DuressEnterKeepsInv(w: World, s: Step)
    requires s.DuressEnter? && Inv(w) && OrderlyStep(w, s)
    ensures Inv(Apply(w, s))
  {
    if Watchable(s.observed) {
      if InState(w, s.v, s.observed) {
        assert Enters(w, s, s.v);
      }
      EnterDurablyKeepsInv(w, s.v, s.observed, s.completes);
    }
  }

  lemma {:induction false} NewestOpenFinds(w: World, v: nat, n: nat)
    requires n <= |w.events|
    ensures match NewestOpen(w, v, n)
            case None => forall e :: 0 <= e < n && w.events[e].Open() ==> w.events[e].vault != v
            case Some(e) => e < n && w.events[e].Open() && w.events[e].vault == v
                            && forall f :: e < f < n && w.events[f].Open() ==> w.events[f].vault != v
  {
    if n > 0 {
      NewestOpenFinds(w, v, n - 1);
    }
  }

  lemma CancelKeepsInv(w: World, v: nat, observed: VaultState)
    requires Inv(w) && InState(w, v, observed)
    ensures Inv(CancelStep(w, v, observed, true))
  {
    hide Inv, NewestOpen;
    if observed == CoolingOff {
      var w1 := SetState(w, v, Active, None);
      NewestOpenFinds(w1, v, |w1.events|);
      SetStateTouches(w, v, Active, None);
      match NewestOpen(w1, v, |w1.events|)
      case None => CancelKeeps(w, v, w1.vaults, w.events);
      case Some(e) =>
        var es := MarkCancelled(w1, e).events;
        assert OpenOf(w, e, v) && Closes(w.events, es, e);
        hide SetState, Closes;
        CloseKeepsInv(w, v, e, w1.vaults, es);
    }
  }

  lemma CancelKeeps(w: World, v: nat, vs: seq<VaultRow>, es: seq<EventRow>)
    requires Inv(w) && InState(w, v, CoolingOff) && Moves(w.vaults, vs, v) && StateIs(vs, v, Active)
    requires es == w.events && forall e :: !OpenOf(w, e, v)
    ensures Inv(w.(vaults := vs))
  {
    CancelFacts(w, v);
    assert forall e :: 0 <= e < |w.events| && w.events[e].vault == v ==> OpenOf(w, e, v) || !w.events[e].Open();
    hide EventsInv, TicketsInv, PerformingInv, ClaimsInv;
    EventsMove(w.vaults, vs, w.events, v);
    TicketsMove(w.vaults, vs, w.events, w.tickets, v);
    PerformingMove(w.clock, w.vaults, vs, w.events, w.performing, v);
    ClaimsMove(w.clock, w.vaults, vs, w.events, w.performing, w.claims, v);
  }

  lemma CloseKeepsInv(w: World, v: nat, e: nat, vs: seq<VaultRow>, es: seq<EventRow>)
    requires Inv(w) && InState(w, v, CoolingOff) && Moves(w.vaults, vs, v) && StateIs(vs, v, Active)
    requires OpenOf(w, e, v) && Closes(w.events, es, e)
    ensures Inv(w.(vaults := vs, events := es))
  {
    CancelFacts(w, v);
    assert forall f :: 0 <= f < |es| && es[f].vault == v ==> !OpenOf(w, f, v) || f == e;
    hide EventsInv, TicketsInv, PerformingInv, ClaimsInv;
    EventsClose(w.vaults, w.events, es, e);
    EventsMove(w.vaults, vs, es, v);
    TicketsMove(w.vaults, vs, w.events, w.tickets, v);
    TicketsClose(vs, w.events, es, w.tickets, e);
    PerformingMove(w.clock, w.vaults, vs, w.events, w.performing, v);
    PerformingClose(w.clock, vs, w.events, es, w.performing, e);
    ClaimsMove(w.clock, w.vaults, vs, w.events, w.performing, w.claims, v);
    ClaimsClose(w.clock, vs, w.events, es, w.performing, w.claims, e);
  }

  predicate OpenOf(w: World, e: int, v: nat) {
    0 <= e < |w.events| && w.events[e].Open() && w.events[e].vault == v
  }

  /** A cooling vault is in no perform_release, and has at most one open event. */
  lemma CancelFacts(w: World, v: nat)
    requires Inv(w) && InState(w, v, CoolingOff)
    ensures forall t :: t in w.performing ==> t.vault != v && t.event < |w.events| && w.events[t.event].vault == t.vault
    ensures forall e, f :: OpenOf(w, e, v) && OpenOf(w, f, v) ==> e == f
  {
    hide TicketsInv, ClaimsInv;
    assert forall e :: 0 <= e < |w.events| && w.events[e].vault == v ==> Placed(CoolingOff, w.events[e]);
  }

  lemma {:induction false} DueTicketsShape(w: World, n: nat)
    requires n <= |w.events|
    ensures forall t :: t in DueTickets(w, n) <==>
              t.event < n && Due(w, t.event)
              && t == Ticket(w.events[t.event].vault, t.event, w.events[t.event].drill, w.clock)
  {
    if n > 0 {
      DueTicketsShape(w, n - 1);
    }
  }

  lemma PollKeepsInv(w: World)
    requires Inv(w)
    ensures Inv(Apply(w, Poll))
  {
    hide Inv;
    DueTicketsShape(w, |w.events|);
    var due := DueTickets(w, |w.events|);
    hide DueTickets;
    assert forall t :: t in due ==> Fits(w.events, t) && w.events[t.event].Open();
    hide Fits, Due;
    assert forall t :: t in multiset(due) ==> t in due;
    PollAdds(w, due);
  }

  lemma PollAdds(w: World, due: seq<Ticket>)
    requires Inv(w) && forall t :: t in multiset(due) ==> Fits(w.events, t) && w.events[t.event].Open()
    ensures Inv(w.(tickets := w.tickets + multiset(due)))
  {
    hide Fits, TicketsInv, EventsInv, PerformingInv, ClaimsInv;
    TicketsAddAll(w.vaults, w.events, w.tickets, multiset(due));
  }

  lemma CrashKeepsInv(w: World, lost: multiset<Ticket>, lostPerforming: multiset<Ticket>)
    requires Inv(w)
    ensures Inv(Apply(w, Crash(lost, lostPerforming)))
  {
    TicketsDrop(w.vaults, w.events, w.tickets, lost);
    PerformingDrop(w.clock, w.vaults, w.events, w.performing, lostPerforming);
    ClaimsDrop(w.clock, w.vaults, w.events, w.performing, w.claims, lostPerforming);
  }

  lemma ClaimKeepsInv(w: World, t: Ticket)
    requires Inv(w)
    ensures Inv(ClaimStep(w, t))
  {
    if t in w.tickets && t.wakeAt <= w.clock {
      TicketsDrop(w.vaults, w.events, w.tickets, multiset{t});
      if InState(w, t.vault, CoolingOff) {
        WinnerFacts(w, t);
        hide EventsInv, TicketsInv, PerformingInv, ClaimsInv, Live, Fits;
        var ts, vs := w.tickets - multiset{t}, ClaimStep(w, t).vaults;
        EventsMove(w.vaults, vs, w.events, t.vault);
        TicketsMove(w.vaults, vs, w.events, ts, t.vault);
        PerformingMove(w.clock, w.vaults, vs, w.events, w.performing, t.vault);
        PerformingAdd(w.clock, vs, w.events, w.performing, t);
        ClaimsStart(w.clock, w.vaults, vs, w.events, w.performing, w.claims, t);
      }
    }
  }

  /** A winning ticket carries the open event of its vault, which nobody is delivering. */
  lemma WinnerFacts(w: World, t: Ticket)
    requires Inv(w) && Wins(w, t)
    ensures Fits(w.events, t) && w.events[t.event].Open() && Live(w.vaults, w.events, w.performing, t.event)
    ensures forall u :: u in w.performing ==> u.vault != t.vault
    ensures forall e :: 0 <= e < |w.events| && w.events[e].vault == t.vault ==> Placed(CoolingOff, w.events[e])
  {
    hide ClaimsInv;
  }

  /** What perform_release leaves behind, apart from the claims. */
  lemma PerformOutcome(w: World, t: Ticket, stop: Stop)
    requires t in w.performing && t.vault < |w.vaults| && t.event < |w.events|
    ensures var w' := PerformStep(w, t, stop);
      && Moves(w.vaults, w'.vaults, t.vault)
      && StateIs(w'.vaults, t.vault, if stop.DeliveryFails? then w.vaults[t.vault].state else Landing(t, stop))
      && w'.performing == w.performing - multiset{t} && w'.tickets == w.tickets && w'.clock == w.clock
      && (if stop.DeliveryFails? || stop == AfterReleased then w'.events == w.events
          else Closes(w.events, w'.events, t.event))
  {
    PerformTouches(w, t, stop);
    MarkReleasedTouches(w, t.event);
    hide PerformStep, Issued, Landing, MarkReleased;
  }

  lemma PerformKeepsInv(w: World, t: Ticket, stop: Stop)
    requires Inv(w)
    ensures Inv(PerformStep(w, t, stop))
  {
    if t in w.performing {
      PerformerFacts(w, t);
      PerformOutcome(w, t, stop);
      hide PerformStep, EventsInv, TicketsInv, ClaimsInv, PerformingInv;
      var w' := PerformStep(w, t, stop);
      var ps := w.performing - multiset{t};
      PerformingDrop(w.clock, w.vaults, w.events, w.performing, multiset{t});
      ClaimsDrop(w.clock, w.vaults, w.events, w.performing, w.claims, multiset{t});
      PerformingMove(w.clock, w.vaults, w'.vaults, w.events, ps, t.vault);
      TicketsMove(w.vaults, w'.vaults, w.events, w.tickets, t.vault);
      ClaimsMove(w.clock, w.vaults, w'.vaults, w.events, ps, w.claims, t.vault);
      if w'.events == w.events {
        PerformedEventStays(w, w', t);
      } else {
        ClosedLeavesNone(w, w'.events, t);
        EventsClose(w.vaults, w.events, w'.events, t.event);
        EventsMove(w.vaults, w'.vaults, w'.events, t.vault);
        TicketsClose(w'.vaults, w.events, w'.events, w.tickets, t.event);
        PerformingClose(w.clock, w'.vaults, w.events, w'.events, ps, t.event);
        ClaimsClose(w.clock, w'.vaults, w.events, w'.events, ps, w.claims, t.event);
      }
      PerformIssues(w, t, stop);
    }
  }

  lemma PerformedEventStays(w: World, w': World, t: Ticket)
    requires Inv(w) && t in w.performing && w'.events == w.events && Moves(w.vaults, w'.vaults, t.vault)
    requires StateIs(w'.vaults, t.vault, Releasing) || StateIs(w'.vaults, t.vault, Released)
    ensures EventsInv(w'.vaults, w'.events)
  {
    EventsMove(w.vaults, w'.vaults, w.events, t.vault);
  }

  /** Once its event is closed, the vault being released has no open event left. */
  lemma ClosedLeavesNone(w: World, es: seq<EventRow>, t: Ticket)
    requires Inv(w) && t in w.performing && Closes(w.events, es, t.event)
    ensures forall e :: 0 <= e < |es| && es[e].vault == t.vault ==> !es[e].Open()
  {
    assert w.events[t.event].OpenTimed();
    forall e | 0 <= e < |es| && es[e].vault == t.vault && e != t.event
      ensures !es[e].Open()
    {
      assert Placed(w.vaults[t.vault].state, w.events[e]);
    }
  }

  lemma PerformIssues(w: World, t: Ticket, stop: Stop)
    requires Inv(w) && t in w.performing
    requires var w' := PerformStep(w, t, stop);
      ClaimsInv(w'.clock, w'.vaults, w'.events, w'.performing, w.claims)
    ensures var w' := PerformStep(w, t, stop);
      ClaimsInv(w'.clock, w'.vaults, w'.events, w'.performing, w'.claims)
  {
    var w' := PerformStep(w, t, stop);
    PerformerFacts(w, t);
    IssuedStamp(w, t, stop);
    PerformTouches(w, t, stop);
    PerformOutcome(w, t, stop);
    hide PerformStep, Issued, Inv, MarkReleased, ClaimsInv, NoRepeats;
    ClaimsIssue(w.clock, w'.vaults, w'.events, w'.performing, w.claims, Issued(w, t, stop), t.event);
  }

  /** The ticket in perform_release is alone with its event, which is due. */
  lemma PerformerFacts(w: World, t: Ticket)
    requires Inv(w) && t in w.performing
    ensures t.vault < |w.vaults| && t.event < |w.events| && w.events[t.event].vault == t.vault
    ensures w.vaults[t.vault].state == Releasing
    ensures w.events[t.event].deadline.Some? && w.events[t.event].deadline.value <= w.clock
    ensures forall c :: c in w.claims ==> c.event != t.event
    ensures forall u :: u in w.performing - multiset{t} ==>
      u in w.performing && u.event != t.event && u.vault != t.vault
  {
    assert Live(w.vaults, w.events, w.performing, t.event);
    hide EventsInv, TicketsInv, Live;
    forall u | u in w.performing - multiset{t}
      ensures u in w.performing && u.event != t.event && u.vault != t.vault
    {
      assert u in w.performing && u != t;
    }
  }

  lemma IssuedStamp(w: World, t: Ticket, stop: Stop)
    ensures NoRepeats(Issued(w, t, stop))
    ensures forall c :: c in Issued(w, t, stop) ==> c.event == t.event && c.issuedAt == w.clock
  {
    var all := Delivery(w, t.event, t.vault, |w.letters|);
    DeliveryStamp(w, t.event, t.vault);
    DeliveryShape(w, t.event, t.vault, |w.letters|);
    hide Delivery, NoRepeats;
    if stop.DeliveryFails? {
      PrefixNoRepeats(all, stop.issued);
    }
  }

  lemma ReleaseEventLetterKeepsInv(w: World, l: nat, upTo: EventStop)
    requires Inv(w)
    ensures Inv(ReleaseEventLetterStep(w, l, upTo))
  {
    if EventLetterReady(w, l) {
      var w1 := w.(letters := w.letters[l := w.letters[l].(eventReleasedAt := Some(w.clock))]);
      if !upTo.BeforeEvent? {
        var e := |w.events|;
        CreateEventKeepsInv(w1, w.letters[l].vault, false, None);
        var w2 := CreateEvent(w1, w.letters[l].vault, false, None);
        var all := LetterClaims(w2, e, l);
        LetterClaimsStamp(w2, e, l);
        LetterClaimsNoRepeats(w2, e, l);
        var rows := if upTo.Partial? then Prefix(all, upTo.issued) else all;
        if upTo.Partial? {
          PrefixNoRepeats(all, upTo.issued);
        }
        assert forall c :: c in w.claims ==> Timely(w.clock, w.events, c);
        assert !Live(w2.vaults, w2.events, w2.performing, e);
        ClaimsIssue(w2.clock, w2.vaults, w2.events, w2.performing, w2.claims, rows, e);
        if upTo.Complete? {
          var w3 := w2.(claims := w.claims + rows);
          var es := MarkReleased(w3, e).events;
          EventsClose(w3.vaults, w3.events, es, e);
          TicketsClose(w3.vaults, w3.events, es, w3.tickets, e);
          PerformingClose(w3.clock, w3.vaults, w3.events, es, w3.performing, e);
          ClaimsClose(w3.clock, w3.vaults, w3.events, es, w3.performing, w3.claims, e);
        }
      }
    }
  }

  lemma StepKeepsInv(w: World, s: Step)
    requires Inv(w) && OrderlyStep(w, s)
    ensures Inv(Apply(w, s))
  {
    hide Inv;
    match s
    case Begin(v, drill, cool, completes) => BeginKeepsInv(w, v, drill, cool, completes);
    case Cancel(v, observed, closes) => CancelKeepsInv(w, v, observed);
    case Aggregate(_, _, _, _, _) => AggregateKeepsInv(w, s);
    case DuressEnter(_, _, _) => DuressEnterKeepsInv(w, s);
    case Poll => PollKeepsInv(w);
    case Claim(t) => ClaimKeepsInv(w, t);
    case Perform(t, stop) => PerformKeepsInv(w, t, stop);
    case Crash(lost, lostPerforming) => CrashKeepsInv(w, lost, lostPerforming);
    case ReleaseEventLetter(l, upTo) => ReleaseEventLetterKeepsInv(w, l, upTo);
    case _ => StillInv(w, Apply(w, s));
  }

  // ---- Over every orderly run ----

  lemma StartInv(w: World)
    requires Start(w)
    ensures Inv(w)
  {}

  lemma {:induction false} RunKeepsInv(w: World, run: seq<Step>, j: nat)
    requires Start(w) && Orderly(w, run) && j <= |run|
    ensures Inv(At(w, run, j))
  {
    hide Inv;
    hide Apply;
    hide OrderlyStep;
    if j == 0 {
      StartInv(w);
    } else {
      RunKeepsInv(w, run, j - 1);
      StepKeepsInv(At(w, run, j - 1), run[j - 1]);
    }
  }

  /** In every reachable world each vault has at most one open event with a deadline, and none
      at all unless it is cooling off, being released, or released. */
  lemma OneOpenDeadline(w: World, run: seq<Step>, e: nat, f: nat)
    requires Start(w) && Orderly(w, run)
    ensures var u := At(w, run, |run|);
      e < |u.events| && f < |u.events| && u.events[e].OpenTimed() && u.events[f].OpenTimed()
      && u.events[e].vault == u.events[f].vault
      ==> e == f && u.events[e].vault < |u.vaults| && !Watchable(u.vaults[u.events[e].vault].state)
  {
    RunKeepsInv(w, run, |run|);
    hide At;
    var u := At(w, run, |run|);
    assert EventsInv(u.vaults, u.events);
  }

  /** No other step, orderly or not, moves a vault into RELEASING. */
  lemma OnlyClaimsRelease(w: World, s: Step, v: nat)
    ensures !InState(w, v, Releasing) && InState(Apply(w, s), v, Releasing)
            ==> s.Claim? && Wins(w, s.t) && s.t.vault == v
  {
    WhoWrites(w, s, v, Releasing);
    hide Apply, Wins;
  }

  /** A vault enters RELEASING only through a ticket of its one open, uncancelled event, and
      not before that event's deadline. */
  lemma ReleasesOwnEvent(w: World, run: seq<Step>, j: nat, v: nat)
    requires Start(w) && Orderly(w, run) && j < |run|
    ensures var u := At(w, run, j);
      !InState(u, v, Releasing) && InState(At(w, run, j + 1), v, Releasing)
      ==> run[j].Claim? && Wins(u, run[j].t) && run[j].t.vault == v && OnTime(u, run[j].t)
  {
    hide Apply, Inv, Wins, OnTime;
    var u := At(w, run, j);
    RunKeepsInv(w, run, j);
    OnlyClaimsRelease(u, run[j], v);
    if run[j].Claim? && Wins(u, run[j].t) {
      WinsOnTime(u, run[j].t);
    }
  }

  /** The ticket's event is the only open event of its vault, and its deadline has passed. */
  ghost predicate OnTime(w: World, t: Ticket) {
    && t.event < |w.events| && w.events[t.event].vault == t.vault && w.events[t.event].OpenTimed()
    && w.events[t.event].deadline.value <= w.clock
    && forall e :: 0 <= e < |w.events| && w.events[e].Open() && w.events[e].vault == t.vault ==> e == t.event
  }

  lemma WinsOnTime(w: World, t: Ticket)
    requires Inv(w) && Wins(w, t)
    ensures OnTime(w, t)
  {
    forall e | 0 <= e < |w.events| && w.events[e].Open() && w.events[e].vault == t.vault
      ensures e == t.event
    {
      assert Placed(CoolingOff, w.events[e]);
    }
  }
}
