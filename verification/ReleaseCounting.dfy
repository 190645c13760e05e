/**
 The statement level: how often a release is claimed and delivered, how it starts, and when. Nothing
 here assumes an orderly run: observations may be stale, closes may fail, tickets may outlive their
 episode, replicas may crash anywhere.
 */
module ReleaseCounting {
  import opened Domain
  import opened ReleaseModel
  import opened Deliveries
  import opened ReleaseInvariant
  import opened ReleaseSafety

  predicate Cooling(w: World, v: nat) {
    InState(w, v, CoolingOff)
  }

  predicate WinsFor(w: World, s: Step, v: nat) {
    s.Claim? && Wins(w, s.t) && s.t.vault == v
  }

  /** A perform_release of the vault comes to its end, in one step or after its statements. */
  predicate PerformsFor(w: World, s: Step, v: nat) {
    (s.Perform? || s.PerformEnd?) && s.t in w.performing && s.t.vault == v
  }

  /** The vault leaves COOLING_OFF other than by a release claim. */
  ghost predicate LeavesOtherwise(w: World, s: Step, v: nat) {
    Cooling(w, v) && !Cooling(Apply(w, s), v) && !WinsFor(w, s, v)
  }

  ghost function One(b: bool): nat {
    if b then 1 else 0
  }

  ghost function Entries(w: World, run: seq<Step>, j: nat, v: nat): nat
    requires j <= |run|
  {
    if j == 0 then 0 else Entries(w, run, j - 1, v) + One(Enters(At(w, run, j - 1), run[j - 1], v))
  }

  ghost function ReleaseClaims(w: World, run: seq<Step>, j: nat, v: nat): nat
    requires j <= |run|
  {
    if j == 0 then 0 else ReleaseClaims(w, run, j - 1, v) + One(WinsFor(At(w, run, j - 1), run[j - 1], v))
  }

  ghost function OtherExits(w: World, run: seq<Step>, j: nat, v: nat): nat
    requires j <= |run|
  {
    if j == 0 then 0 else OtherExits(w, run, j - 1, v) + One(LeavesOtherwise(At(w, run, j - 1), run[j - 1], v))
  }

  /** How often perform_release came to an end for the vault. */
  ghost function Performs(w: World, run: seq<Step>, j: nat, v: nat): nat
    requires j <= |run|
  {
    if j == 0 then 0 else Performs(w, run, j - 1, v) + One(PerformsFor(At(w, run, j - 1), run[j - 1], v))
  }

  /** A winning claim takes the vault out of COOLING_OFF. */
  lemma WinLeaves(w: World, s: Step, v: nat)
    requires WinsFor(w, s, v)
    ensures Cooling(w, v) && !Cooling(Apply(w, s), v)
  {}

  /** Every entry into COOLING_OFF is matched by exactly one exit: a release claim, another
      exit, or the episode still going on. */
  lemma {:induction false} ClaimConservation(w: World, run: seq<Step>, j: nat, v: nat)
    requires j <= |run|
    ensures Entries(w, run, j, v) + One(Cooling(w, v))
            == ReleaseClaims(w, run, j, v) + OtherExits(w, run, j, v) + One(Cooling(At(w, run, j), v))
  {
    hide Apply;
    if j > 0 {
      ClaimConservation(w, run, j - 1, v);
      if WinsFor(At(w, run, j - 1), run[j - 1], v) {
        WinLeaves(At(w, run, j - 1), run[j - 1], v);
      }
    }
  }

  /** Two successful release claims of a vault are separated by a new entry. */
  lemma {:induction false} EntryBetweenClaims(w: World, run: seq<Step>, i: nat, k: nat, v: nat) returns (m: nat)
    requires i < k < |run|
    requires !Cooling(At(w, run, i + 1), v) && Cooling(At(w, run, k), v)
    ensures i < m < k && Enters(At(w, run, m), run[m], v)
  {
    hide Apply;
    m := k - 1;
    if Cooling(At(w, run, m), v) {
      m := EntryBetweenClaims(w, run, i, m, v);
    }
  }

  lemma OneClaimPerEpisode(w: World, run: seq<Step>, i: nat, k: nat, v: nat)
    requires i < k < |run|
    requires WinsFor(At(w, run, i), run[i], v) && WinsFor(At(w, run, k), run[k], v)
    ensures exists m :: i < m < k && Enters(At(w, run, m), run[m], v)
  {
    WinLeaves(At(w, run, i), run[i], v);
    WinLeaves(At(w, run, k), run[k], v);
    var m := EntryBetweenClaims(w, run, i, k, v);
  }

  // ---- perform_release ----

  ghost function OfVault(ps: multiset<Ticket>, v: nat): (r: multiset<Ticket>)
    ensures forall t :: r[t] == if t.vault == v then ps[t] else 0
    decreases |ps|
  {
    if ps == multiset{} then multiset{}
    else
      var t :| t in ps;
      OfVault(ps - multiset{t}, v) + if t.vault == v then multiset{t} else multiset{}
  }

  /** Releases of the vault under way. */
  ghost function Load(ps: multiset<Ticket>, v: nat): nat {
    |OfVault(ps, v)|
  }

  lemma LoadAdd(ps: multiset<Ticket>, t: Ticket, v: nat)
    ensures Load(ps + multiset{t}, v) == Load(ps, v) + One(t.vault == v)
  {
    hide OfVault;
    assert OfVault(ps + multiset{t}, v) == OfVault(ps, v) + if t.vault == v then multiset{t} else multiset{};
  }

  lemma LoadDrop(ps: multiset<Ticket>, t: Ticket, v: nat)
    requires t in ps
    ensures Load(ps - multiset{t}, v) + One(t.vault == v) == Load(ps, v)
  {
    assert ps - multiset{t} + multiset{t} == ps;
    LoadAdd(ps - multiset{t}, t, v);
  }

  lemma LoadShrinks(ps: multiset<Ticket>, lost: multiset<Ticket>, v: nat)
    ensures Load(ps - lost, v) <= Load(ps, v)
  {
    var a, b := OfVault(ps - lost, v), OfVault(ps, v);
    assert a <= b;
    assert b == a + (b - a);
  }

  lemma PerformingAfterPerform(w: World, t: Ticket, stop: Stop)
    ensures PerformStep(w, t, stop).performing
            == if t in w.performing then w.performing - multiset{t} else w.performing
  {
    if t in w.performing {
      PerformTouches(w, t, stop);
      hide PerformStep, Issued, MarkReleased;
    } else {
      assert PerformStep(w, t, stop) == w;
    }
  }

  lemma PerformingElsewhere(w: World, s: Step)
    requires !s.Claim? && !s.Perform? && !s.PerformEnd? && !s.Crash?
    ensures Apply(w, s).performing == w.performing
  {
    hide DueTickets, Verdict, NewestOpen, InDuress, PerformStep, ClaimStep, LetterClaims, Prefix;
  }

  /** Work is taken up by a winning claim only. */
  lemma NewPerformer(w: World, s: Step, t: Ticket)
    requires t in Apply(w, s).performing && t !in w.performing
    ensures s == Claim(t) && Wins(w, t)
  {
    hide Wins, ClaimStep, PerformStep;
    NothingAdded(w.performing, t);
    if s.Claim? {
      ClaimTouches(w, s.t);
    } else if s.Perform? {
      PerformingAfterPerform(w, s.t, s.stop);
    } else if !s.PerformEnd? && !s.Crash? {
      PerformingElsewhere(w, s);
      hide Apply;
    }
  }

  lemma NothingAdded(ps: multiset<Ticket>, t: Ticket)
    requires t !in ps
    ensures forall lost: multiset<Ticket> :: t !in ps - lost
  {}

  /** Claims turn into work, work is performed or lost, and nothing else makes work. */
  lemma PerformingBalance(w: World, s: Step, v: nat)
    ensures Load(Apply(w, s).performing, v) + One(PerformsFor(w, s, v))
            <= Load(w.performing, v) + One(WinsFor(w, s, v))
  {
    hide Load;
    if !s.Claim? && !s.Perform? && !s.PerformEnd? && !s.Crash? {
      hide Apply;
      PerformingElsewhere(w, s);
    } else {
      WorkBalance(w, s, v);
    }
  }

  lemma WorkBalance(w: World, s: Step, v: nat)
    requires s.Claim? || s.Perform? || s.PerformEnd? || s.Crash?
    ensures Load(Apply(w, s).performing, v) + One(PerformsFor(w, s, v))
            <= Load(w.performing, v) + One(WinsFor(w, s, v))
  {
    hide Load, PerformStep, BeginStep, CancelStep, AggregateStep, DuressEnterStep, PerformWriteStep;
    hide ReleaseEventLetterStep, DueTickets, InsertEventStep, MarkCancelled;
    match s
    case Claim(t) => LoadAdd(w.performing, t, v);
    case Perform(t, stop) =>
      PerformingAfterPerform(w, t, stop);
      if t in w.performing {
        LoadDrop(w.performing, t, v);
      }
    case PerformEnd(t) =>
      if t in w.performing {
        LoadDrop(w.performing, t, v);
      } else {
        assert w.performing - multiset{t} == w.performing;
      }
    case Crash(_, lost) => LoadShrinks(w.performing, lost, v);
  }

  lemma {:induction false} PerformsAreClaimed(w: World, run: seq<Step>, j: nat, v: nat)
    requires j <= |run|
    ensures Performs(w, run, j, v) + Load(At(w, run, j).performing, v)
            <= ReleaseClaims(w, run, j, v) + Load(w.performing, v)
  {
    hide Apply;
    hide Load;
    hide PerformsFor;
    hide WinsFor;
    if j > 0 {
      PerformsAreClaimed(w, run, j - 1, v);
      PerformingBalance(At(w, run, j - 1), run[j - 1], v);
    }
  }

  /** However many replicas, timers, poll loops, cancels and crashes, whatever comes between the
      statements of any handler: deliveries over and under way number at most one per entry of the
      vault into COOLING_OFF. */
  lemma OneReleasePerEpisode(w: World, run: seq<Step>, j: nat, v: nat)
    requires j <= |run| && Start(w) && !Cooling(w, v)
    ensures Performs(w, run, j, v) + Load(At(w, run, j).performing, v) <= Entries(w, run, j, v)
  {
    ClaimConservation(w, run, j, v);
    PerformsAreClaimed(w, run, j, v);
    assert OfVault(w.performing, v) == multiset{};
  }

  // ---- Held event letters ----

  predicate FiresEventLetter(w: World, s: Step, l: nat) {
    s.ReleaseEventLetter? && s.l == l && EventLetterReady(w, l)
  }

  predicate EventFired(w: World, l: nat) {
    l < |w.letters| && w.letters[l].eventReleasedAt.Some?
  }

  lemma EventFiredStays(w: World, s: Step, l: nat)
    requires EventFired(w, l) || FiresEventLetter(w, s, l)
    ensures EventFired(Apply(w, s), l)
  {
    hide PerformStep, ReleaseEventLetterStep, DueTickets, Verdict, NewestOpen, InDuress;
    if s.Perform? && s.t in w.performing {
      PerformTouches(w, s.t, s.stop);
    } else if s.Perform? {
      PerformNothing(w, s.t, s.stop);
    } else if s.ReleaseEventLetter? && EventLetterReady(w, s.l) {
      EventLetterTouches(w, s.l, s.upTo);
    } else if s.ReleaseEventLetter? {
      EventLetterNothing(w, s.l, s.upTo);
    }
  }

  lemma PerformNothing(w: World, t: Ticket, stop: Stop)
    requires t !in w.performing
    ensures PerformStep(w, t, stop) == w
  {}

  lemma EventLetterNothing(w: World, l: nat, upTo: EventStop)
    requires !EventLetterReady(w, l)
    ensures ReleaseEventLetterStep(w, l, upTo) == w
  {}

  lemma {:induction false} EventFiredForGood(w: World, run: seq<Step>, i: nat, j: nat, l: nat)
    requires i < j <= |run| && FiresEventLetter(At(w, run, i), run[i], l)
    ensures EventFired(At(w, run, j), l)
  {
    hide Apply;
    if i + 1 < j {
      EventFiredForGood(w, run, i, j - 1, l);
    }
    EventFiredStays(At(w, run, j - 1), run[j - 1], l);
  }

  /** A held event letter fires at most once, whatever else happens, edits included. */
  lemma EventLetterOnce(w: World, run: seq<Step>, i: nat, j: nat, l: nat)
    requires i < |run| && j < |run|
    requires FiresEventLetter(At(w, run, i), run[i], l) && FiresEventLetter(At(w, run, j), run[j], l)
    ensures i == j
  {
    if i < j {
      EventFiredForGood(w, run, i, j, l);
    } else if j < i {
      EventFiredForGood(w, run, j, i, l);
    }
  }

  // ---- Nothing before its deadline ----

  /** The ticket carries an event of its vault and wakes no earlier than the event's deadline. */
  ghost predicate Bound(es: seq<EventRow>, t: Ticket) {
    t.event < |es| && es[t.event].vault == t.vault
    && es[t.event].deadline.Some? && es[t.event].deadline.value <= t.wakeAt
  }

  ghost predicate WorkBound(w: World) {
    && (forall t :: t in w.tickets ==> Bound(w.events, t))
    && (forall t :: t in w.performing ==> Bound(w.events, t) && t.wakeAt <= w.clock)
    && (forall c :: c in w.claims ==> Timely(w.clock, w.events, c))
  }

  /** Where new tickets, new work and new claims come from. */
  ghost predicate NewWork(w: World, w': World) {
    && w.clock <= w'.clock
    && (forall t :: t in w'.tickets ==> t in w.tickets || Bound(w'.events, t))
    && (forall t :: t in w'.performing ==> t in w.performing || Wins(w, t))
    && (forall c :: c in w'.claims ==> c in w.claims || (c.issuedAt == w.clock && IssuedBy(w, w', c)))
  }

  /** By a release under way, or by the event letter just fired. */
  ghost predicate IssuedBy(w: World, w': World, c: ClaimRow) {
    || (exists t :: t in w.performing && t.event == c.event)
    || (c.event == |w.events| < |w'.events| && w'.events[c.event].deadline.None?)
  }

  lemma WorkKept(w: World, w': World)
    requires WorkBound(w) && KeepsEvents(w.events, w'.events) && NewWork(w, w')
    ensures WorkBound(w')
  {
    forall t | t in w'.tickets
      ensures Bound(w'.events, t)
    {
      assert t in w.tickets ==> KeepsEvent(w.events[t.event], w'.events[t.event]);
    }
    forall t | t in w'.performing
      ensures Bound(w'.events, t) && t.wakeAt <= w'.clock
    {
      assert t in w.tickets || t in w.performing;
      assert KeepsEvent(w.events[t.event], w'.events[t.event]);
    }
    forall c | c in w'.claims
      ensures Timely(w'.clock, w'.events, c)
    {
      if c in w.claims || (exists t :: t in w.performing && t.event == c.event) {
        assert KeepsEvent(w.events[c.event], w'.events[c.event]);
      }
    }
  }

  lemma SameWork(w: World, w': World)
    requires w.clock <= w'.clock && w'.tickets == w.tickets && w'.performing == w.performing && w'.claims == w.claims
    ensures NewWork(w, w')
  {}

  lemma StepsWithoutWork(w: World, s: Step)
    requires !s.Begin? && !s.InsertEvent? && !s.Poll? && !s.Claim? && !s.Perform? && !s.PerformWrite?
    requires !s.PerformEnd? && !s.Crash? && !s.ReleaseEventLetter?
    ensures NewWork(w, Apply(w, s))
  {
    hide NewWork, Verdict, InDuress, NewestOpen, InState;
    SameWork(w, Apply(w, s));
  }

  lemma BeginIsBound(w: World, v: nat, drill: bool, cool: int, completes: bool)
    ensures NewWork(w, BeginStep(w, v, drill, cool, completes))
  {
    var w', t := BeginStep(w, v, drill, cool, completes), Ticket(v, |w.events|, drill, w.clock + Max(cool, 1));
    assert forall u :: u in w'.tickets ==> u in w.tickets || (u == t && |w'.events| == |w.events| + 1);
    assert w'.performing == w.performing && w'.claims == w.claims && w'.clock == w.clock;
  }

  lemma TimersAreBound(w: World, s: Step)
    requires s.Begin? || s.InsertEvent?
    ensures NewWork(w, Apply(w, s))
  {
    if s.Begin? {
      BeginIsBound(w, s.v, s.drill, s.coolSeconds, s.completes);
      hide BeginStep, NewWork;
    } else if s.timer && s.deadline.Some? {
      var w', t := Apply(w, s), Ticket(s.v, |w.events|, s.drill, s.deadline.value);
      assert forall u :: u in w'.tickets ==> u in w.tickets || u == t;
    }
  }

  lemma RowsAreBound(w: World)
    ensures NewWork(w, Apply(w, Poll))
  {
    DueTicketsShape(w, |w.events|);
    assert forall t :: t in DueTickets(w, |w.events|) ==> Bound(w.events, t);
    hide DueTickets, Due, Bound;
    assert forall t :: t in multiset(DueTickets(w, |w.events|)) ==> t in DueTickets(w, |w.events|);
  }

  lemma ClaimTakesTicket(w: World, t: Ticket)
    ensures NewWork(w, ClaimStep(w, t))
  {
    ClaimTouches(w, t);
    hide ClaimStep, Wins, Bound;
  }

  lemma LossIsNoWork(w: World, s: Step)
    requires s.Crash? || s.PerformEnd?
    ensures NewWork(w, Apply(w, s))
  {
    var w' := Apply(w, s);
    assert forall t :: t in w'.tickets ==> t in w.tickets;
    assert forall t :: t in w'.performing ==> t in w.performing;
  }

  lemma PerformIssuesOwn(w: World, t: Ticket, stop: Stop)
    ensures NewWork(w, PerformStep(w, t, stop))
  {
    if t in w.performing {
      IssuedStamp(w, t, stop);
      PerformTouches(w, t, stop);
      hide PerformStep, Issued, NoRepeats, MarkReleased, Landing;
      assert forall u :: u in w.performing - multiset{t} ==> u in w.performing;
    } else {
      PerformNothing(w, t, stop);
    }
  }

  lemma PartIssuesOwn(w: World, t: Ticket, part: Part)
    ensures NewWork(w, PerformWriteStep(w, t, part))
  {
    hide SetState, MarkReleased;
    if t in w.performing {
      MarkReleasedTouches(w, t.event);
      SetStateTouches(w, t.vault, Released, Some(w.clock));
      SetStateTouches(w, t.vault, Active, None);
    }
  }

  lemma EventLetterIssuesOwn(w: World, l: nat, upTo: EventStop)
    ensures NewWork(w, ReleaseEventLetterStep(w, l, upTo))
  {
    if EventLetterReady(w, l) {
      EventLetterTouches(w, l, upTo);
      EventLetterStamp(w, l, upTo);
      hide ReleaseEventLetterStep, EventLetterReady;
    } else {
      EventLetterNothing(w, l, upTo);
    }
  }

  lemma EventLetterStamp(w: World, l: nat, upTo: EventStop)
    requires EventLetterReady(w, l)
    ensures forall c :: c in ReleaseEventLetterStep(w, l, upTo).claims ==>
      c in w.claims || (c.event == |w.events| && c.issuedAt == w.clock && !upTo.BeforeEvent?)
  {
    if !upTo.BeforeEvent? {
      var w2 := CreateEvent(w.(letters := w.letters[l := w.letters[l].(eventReleasedAt := Some(w.clock))]),
                            w.letters[l].vault, false, None);
      LetterClaimsStamp(w2, |w.events|, l);
      hide LetterClaims;
    }
  }

  lemma StepNewWork(w: World, s: Step)
    ensures NewWork(w, Apply(w, s))
  {
    hide NewWork, ClaimStep, PerformStep, PerformWriteStep, ReleaseEventLetterStep;
    match s
    case Begin(_, _, _, _) => TimersAreBound(w, s);
    case InsertEvent(_, _, _, _) => TimersAreBound(w, s);
    case Poll => RowsAreBound(w);
    case Claim(t) => ClaimTakesTicket(w, t);
    case Perform(t, stop) => PerformIssuesOwn(w, t, stop);
    case PerformWrite(t, part) => PartIssuesOwn(w, t, part);
    case PerformEnd(_) => LossIsNoWork(w, s);
    case Crash(_, _) => LossIsNoWork(w, s);
    case ReleaseEventLetter(l, upTo) => EventLetterIssuesOwn(w, l, upTo);
    case _ => StepsWithoutWork(w, s);
  }

  lemma StartBound(w: World)
    requires Start(w)
    ensures WorkBound(w)
  {}

  lemma {:induction false} RunKeepsBound(w: World, run: seq<Step>, j: nat)
    requires Start(w) && j <= |run|
    ensures WorkBound(At(w, run, j))
  {
    hide Apply, WorkBound, NewWork, KeepsEvents;
    if j == 0 {
      StartBound(w);
    } else {
      RunKeepsBound(w, run, j - 1);
      StepKeepsEvents(At(w, run, j - 1), run[j - 1]);
      StepNewWork(At(w, run, j - 1), run[j - 1]);
      WorkKept(At(w, run, j - 1), At(w, run, j));
    }
  }

  /** No letter reaches anyone before the deadline of the event it is delivered under, whatever comes
      between the statements of any handler. */
  lemma NoEarlyDelivery(w: World, run: seq<Step>, c: ClaimRow)
    requires Start(w)
    ensures var u := At(w, run, |run|);
      c in u.claims ==>
        c.event < |u.events|
        && (u.events[c.event].deadline.Some? ==> u.events[c.event].deadline.value <= c.issuedAt)
  {
    hide At;
    RunKeepsBound(w, run, |run|);
  }

  // ---- How a release starts ----

  ghost predicate HasClaims(w: World, e: nat) {
    exists c :: c in w.claims && c.event == e
  }

  ghost predicate Delivering(w: World, e: nat) {
    exists t :: t in w.performing && t.event == e
  }

  /** Something has been delivered under the event, or somebody is about to. */
  ghost predicate Started(w: World, e: nat) {
    HasClaims(w, e) || Delivering(w, e)
  }

  /** The step takes a vault from COOLING_OFF to RELEASING on behalf of this event. */
  predicate WinsEvent(w: World, s: Step, e: nat) {
    s.Claim? && Wins(w, s.t) && s.t.event == e
  }

  /** With this step the release ends with nothing issued. */
  ghost predicate Abandons(w: World, s: Step, e: nat) {
    Started(w, e) && !Started(Apply(w, s), e)
  }

  lemma SameClaims(w: World, s: Step)
    requires !s.Perform? && !s.PerformWrite? && !s.ReleaseEventLetter?
    ensures Apply(w, s).claims == w.claims
  {
    hide BeginStep, CancelStep, AggregateStep, DuressEnterStep, ClaimStep, DueTickets, InsertEventStep, MarkCancelled;
    match s
    case Begin(v, drill, cool, completes) => BeginKeepsClaims(w, v, drill, cool, completes);
    case Cancel(v, observed, closes) => CancelTouches(w, v, observed, closes);
    case Aggregate(v, observed, frozen, x, completes) => AggregateKeepsClaims(w, v, observed, frozen, x, completes);
    case DuressEnter(v, observed, completes) => DuressKeepsClaims(w, v, observed, completes);
    case Claim(t) => ClaimTouches(w, t);
    case InsertEvent(v, drill, deadline, timer) => InsertKeepsClaims(w, v, drill, deadline, timer);
    case CloseEvent(e) => MarkCancelledTouches(w, e);
    case _ =>
  }

  lemma ClaimsStay(w: World, s: Step)
    ensures forall c :: c in w.claims ==> c in Apply(w, s).claims
  {
    if s.Perform? {
      PerformKeepsClaims(w, s.t, s.stop);
      hide PerformStep;
    } else if s.ReleaseEventLetter? {
      EventLetterKeepsClaims(w, s.l, s.upTo);
      hide ReleaseEventLetterStep;
    } else if s.PerformWrite? {
      PartKeepsClaims(w, s.t, s.part);
      hide PerformWriteStep;
    } else {
      SameClaims(w, s);
      hide Apply;
    }
  }

  lemma BeginKeepsClaims(w: World, v: nat, drill: bool, cool: int, completes: bool)
    ensures BeginStep(w, v, drill, cool, completes).claims == w.claims
  {}

  lemma AggregateKeepsClaims(w: World, v: nat, observed: VaultState, frozen: bool, x: Evidence, completes: bool)
    ensures AggregateStep(w, v, observed, frozen, x, completes).claims == w.claims
  {
    hide Verdict, InDuress;
  }

  lemma DuressKeepsClaims(w: World, v: nat, observed: VaultState, completes: bool)
    ensures DuressEnterStep(w, v, observed, completes).claims == w.claims
  {}

  lemma InsertKeepsClaims(w: World, v: nat, drill: bool, deadline: Option<int>, timer: bool)
    ensures InsertEventStep(w, v, drill, deadline, timer).claims == w.claims
  {}

  lemma PerformKeepsClaims(w: World, t: Ticket, stop: Stop)
    ensures w.claims <= PerformStep(w, t, stop).claims
  {
    if t in w.performing {
      PerformTouches(w, t, stop);
      hide PerformStep, Issued;
    } else {
      PerformNothing(w, t, stop);
    }
  }

  lemma EventLetterKeepsClaims(w: World, l: nat, upTo: EventStop)
    ensures w.claims <= ReleaseEventLetterStep(w, l, upTo).claims
  {
    hide LetterClaims, Prefix;
  }

  lemma PartKeepsClaims(w: World, t: Ticket, part: Part)
    ensures w.claims <= PerformWriteStep(w, t, part).claims
  {}

  lemma StartedStep(w: World, s: Step, e: nat)
    requires e < |w.events| && Started(Apply(w, s), e)
    ensures Started(w, e) || WinsEvent(w, s, e)
  {
    var w' := Apply(w, s);
    StepNewWork(w, s);
    hide Apply, Wins;
    if Delivering(w', e) {
      var t :| t in w'.performing && t.event == e;
      if t !in w.performing {
        NewPerformer(w, s, t);
      }
    } else {
      var c :| c in w'.claims && c.event == e;
      assert c in w.claims || IssuedBy(w, w', c);
    }
  }

  lemma WinStarts(w: World, s: Step, e: nat)
    requires WinsEvent(w, s, e)
    ensures Started(Apply(w, s), e)
  {
    assert s.t in Apply(w, s).performing;
  }

  lemma ClaimKeepsWork(w: World, t: Ticket)
    ensures forall u :: u in w.performing ==> u in ClaimStep(w, t).performing
  {}

  /** Work at hand ends in a crash or by its own end. */
  lemma WorkEnds(w: World, s: Step, t: Ticket)
    requires t in w.performing && t !in Apply(w, s).performing
    ensures s.Crash? || ((s.Perform? || s.PerformEnd?) && s.t == t)
  {
    if s.Perform? {
      PerformingAfterPerform(w, s.t, s.stop);
      hide PerformStep;
    } else if s.Claim? {
      ClaimKeepsWork(w, s.t);
      hide ClaimStep;
    } else if !s.PerformEnd? && !s.Crash? {
      PerformingElsewhere(w, s);
      hide Apply;
    }
  }

  /** A release that ends with nothing issued was lost in a crash, or its perform_release came to an
      end without a claim. */
  lemma AbandonsHow(w: World, s: Step, e: nat)
    requires Abandons(w, s, e)
    ensures !HasClaims(w, e)
    ensures s.Crash? || s.Perform? || s.PerformEnd?
    ensures exists t :: t in w.performing && t.event == e && (s.Crash? || s.t == t)
  {
    hide Apply;
    ClaimsStay(w, s);
    var t :| t in w.performing && t.event == e;
    assert t !in Apply(w, s).performing;
    WorkEnds(w, s, t);
  }

  // ---- The poll loop ----

  function RowTicket(w: World, e: nat): Ticket
    requires e < |w.events|
  {
    Ticket(w.events[e].vault, e, w.events[e].drill, w.clock)
  }

  lemma {:induction false} DueIsListed(w: World, e: nat, n: nat)
    requires e < n <= |w.events| && Due(w, e)
    ensures RowTicket(w, e) in DueTickets(w, n)
  {
    if e < n - 1 {
      DueIsListed(w, e, n - 1);
    }
  }

  predicate Loses(s: Step, t: Ticket) {
    s.Crash? && t in s.lostTickets
  }

  lemma TicketStays(w: World, s: Step, t: Ticket)
    requires t in w.tickets && s != Claim(t) && !Loses(s, t)
    ensures t in Apply(w, s).tickets && w.clock <= Apply(w, s).clock
  {
    hide BeginStep, CancelStep, AggregateStep, DuressEnterStep, ClaimStep, PerformStep, PerformWriteStep;
    hide ReleaseEventLetterStep, DueTickets, InsertEventStep, MarkCancelled, InState;
    match s
    case Begin(v, drill, cool, completes) => BeginKeepsTickets(w, v, drill, cool, completes);
    case Claim(u) => ClaimKeepsTickets(w, u, t);
    case InsertEvent(v, drill, deadline, timer) => InsertKeepsTickets(w, v, drill, deadline, timer);
    case Cancel(v, observed, closes) => CancelKeepsTickets(w, v, observed, closes);
    case Aggregate(v, observed, frozen, x, completes) => AggregateKeepsTickets(w, v, observed, frozen, x, completes);
    case DuressEnter(v, observed, completes) => DuressKeepsTickets(w, v, observed, completes);
    case Perform(u, stop) => PerformKeepsTickets(w, u, stop);
    case ReleaseEventLetter(l, upTo) => EventLetterKeepsTickets(w, l, upTo);
    case CloseEvent(e) => CloseKeepsTickets(w, e);
    case PerformWrite(u, part) => WriteKeepsTickets(w, u, part);
    case _ =>
  }

  lemma BeginKeepsTickets(w: World, v: nat, drill: bool, cool: int, completes: bool)
    ensures var w' := BeginStep(w, v, drill, cool, completes); w.tickets <= w'.tickets && w'.clock == w.clock
  {}

  lemma ClaimKeepsTickets(w: World, u: Ticket, t: Ticket)
    requires t in w.tickets && u != t
    ensures var w' := ClaimStep(w, u); t in w'.tickets && w'.clock == w.clock
  {}

  lemma InsertKeepsTickets(w: World, v: nat, drill: bool, deadline: Option<int>, timer: bool)
    ensures var w' := InsertEventStep(w, v, drill, deadline, timer); w.tickets <= w'.tickets && w'.clock == w.clock
  {}

  lemma CancelKeepsTickets(w: World, v: nat, observed: VaultState, closes: bool)
    ensures var w' := CancelStep(w, v, observed, closes); w'.tickets == w.tickets && w'.clock == w.clock
  {
    hide NewestOpen;
  }

  lemma AggregateKeepsTickets(w: World, v: nat, observed: VaultState, frozen: bool, x: Evidence, completes: bool)
    ensures var w' := AggregateStep(w, v, observed, frozen, x, completes);
      w'.tickets == w.tickets && w'.clock == w.clock
  {
    hide Verdict, InDuress;
  }

  lemma DuressKeepsTickets(w: World, v: nat, observed: VaultState, completes: bool)
    ensures var w' := DuressEnterStep(w, v, observed, completes); w'.tickets == w.tickets && w'.clock == w.clock
  {}

  lemma PerformKeepsTickets(w: World, t: Ticket, stop: Stop)
    ensures var w' := PerformStep(w, t, stop); w'.tickets == w.tickets && w'.clock == w.clock
  {
    if t in w.performing {
      PerformTouches(w, t, stop);
      hide PerformStep;
    } else {
      PerformNothing(w, t, stop);
    }
  }

  lemma EventLetterKeepsTickets(w: World, l: nat, upTo: EventStop)
    ensures var w' := ReleaseEventLetterStep(w, l, upTo); w'.tickets == w.tickets && w'.clock == w.clock
  {
    if EventLetterReady(w, l) {
      EventLetterTouches(w, l, upTo);
      hide ReleaseEventLetterStep;
    } else {
      EventLetterNothing(w, l, upTo);
    }
  }

  lemma CloseKeepsTickets(w: World, e: nat)
    ensures MarkCancelled(w, e).tickets == w.tickets && MarkCancelled(w, e).clock == w.clock
  {}

  lemma WriteKeepsTickets(w: World, t: Ticket, part: Part)
    ensures var w' := PerformWriteStep(w, t, part); w'.tickets == w.tickets && w'.clock == w.clock
  {}

  lemma ClaimLeavesCooling(w: World, t: Ticket)
    requires t in w.tickets && t.wakeAt <= w.clock
    ensures !Cooling(ClaimStep(w, t), t.vault)
  {}

  /** A row once listed either goes to its claim, or is still on the list. */
  lemma {:induction false} ListedUntilClaimed(w: World, run: seq<Step>, i: nat, k: nat, t: Ticket) returns (m: nat)
    requires i <= k <= |run| && t in At(w, run, i).tickets && t.wakeAt <= At(w, run, i).clock
    requires forall c :: i <= c < k ==> !Loses(run[c], t)
    ensures m <= k
    ensures if m < k then i <= m && run[m] == Claim(t) && !Cooling(At(w, run, m + 1), t.vault)
            else t in At(w, run, k).tickets && t.wakeAt <= At(w, run, k).clock
  {
    hide Apply;
    if i == k {
      m := k;
    } else {
      m := ListedUntilClaimed(w, run, i, k - 1, t);
      if m == k - 1 {
        if run[m] == Claim(t) {
          ClaimLeavesCooling(At(w, run, m), t);
          ApplyClaim(At(w, run, m), t);
        } else {
          TicketStays(At(w, run, m), run[m], t);
          m := k;
        }
      }
    }
  }

  lemma ApplyClaim(w: World, t: Ticket)
    ensures Apply(w, Claim(t)) == ClaimStep(w, t)
  {}

  lemma PollLists(w: World, e: nat)
    requires Due(w, e)
    ensures RowTicket(w, e) in Apply(w, Poll).tickets && Apply(w, Poll).clock == w.clock
  {
    DueIsListed(w, e, |w.events|);
  }

  /** A listed row whose claim comes has its vault out of COOLING_OFF by then. */
  lemma RowSettles(w: World, run: seq<Step>, i: nat, k: nat, t: Ticket) returns (m: nat)
    requires i <= k < |run| && run[k] == Claim(t)
    requires t in At(w, run, i).tickets && t.wakeAt <= At(w, run, i).clock
    requires forall c :: i <= c < k ==> !Loses(run[c], t)
    ensures i <= m <= k && !Cooling(At(w, run, m + 1), t.vault)
  {
    hide Apply, Cooling, At;
    m := ListedUntilClaimed(w, run, i, k, t);
    if m == k {
      ClaimLeavesCooling(At(w, run, k), t);
      ApplyClaim(At(w, run, k), t);
      NextWorld(w, run, k);
    }
  }

  /** Amid any other actors, and whatever fails: an event due at a poll has its vault out of
      COOLING_OFF by the time the poll reaches its row, unless the poller crashed before. */
  lemma PollSettles(w: World, run: seq<Step>, i: nat, k: nat, e: nat) returns (m: nat)
    requires i < k < |run| && run[i] == Poll && Due(At(w, run, i), e)
    requires run[k] == Claim(RowTicket(At(w, run, i), e))
    requires forall c :: i < c < k ==> !Loses(run[c], RowTicket(At(w, run, i), e))
    ensures i < m <= k && !Cooling(At(w, run, m + 1), At(w, run, i).events[e].vault)
  {
    hide Apply, Cooling, At, InState;
    var u := At(w, run, i);
    assert e < |u.events|;
    var t := RowTicket(u, e);
    PollLists(u, e);
    hide Due;
    NextWorld(w, run, i);
    m := RowSettles(w, run, i + 1, k, t);
  }
}
