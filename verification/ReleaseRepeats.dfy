/**
 How often one event delivers the same letter or attachment. Nothing here assumes an orderly run; of
 the event in question deliveries are whole, that is, nobody comes between the statements of its
 perform_release.
 */
module ReleaseRepeats {
  import opened Domain
  import opened ReleaseModel
  import opened Deliveries
  import opened ReleaseSafety
  import opened ReleaseCounting

  /** Two claims for one letter or attachment, both under the event. */
  ghost predicate RepeatsUnder(rows: seq<ClaimRow>, e: nat) {
    exists i, j :: 0 <= i < j < |rows| && rows[i].event == e && SameDelivery(rows[i], rows[j])
  }

  predicate WholeDelivery(s: Step, e: nat) {
    s.PerformWrite? ==> s.t.event != e
  }

  /** The event does not win a release claim once something has been, or is about to be, delivered
      under it. */
  ghost predicate FirstWin(w: World, s: Step, e: nat) {
    WinsEvent(w, s, e) ==> !Started(w, e)
  }

  ghost predicate FirstWins(w: World, run: seq<Step>, e: nat) {
    forall k :: 0 <= k < |run| ==> FirstWin(At(w, run, k), run[k], e) && WholeDelivery(run[k], e)
  }

  // ---- One win, no repeats ----

  /** Nothing is repeated under the event, and whoever is in its perform_release is alone and the first. */
  ghost predicate Once(w: World, e: nat) {
    && !RepeatsUnder(w.claims, e)
    && (forall t :: t in w.performing && t.event == e ==> !HasClaims(w, e) && w.performing[t] == 1)
    && (forall t, u :: t in w.performing && u in w.performing && t.event == e && u.event == e ==> t == u)
  }

  /** New rows of one event `f`: of another one, or of one without claims whose worker is gone. */
  lemma RowsOnce(w: World, w': World, rows: seq<ClaimRow>, f: nat, e: nat)
    requires Once(w, e) && w'.claims == w.claims + rows && w'.performing <= w.performing
    requires NoRepeats(rows) && forall c :: c in rows ==> c.event == f
    requires f == e ==> !HasClaims(w, e) && forall t :: t in w'.performing ==> t.event != e
    ensures Once(w', e)
  {
    NoneRepeated(w, w'.claims, rows, f, e);
    WorkersOnce(w, w', rows, f, e);
  }

  lemma NoneRepeated(w: World, claims: seq<ClaimRow>, rows: seq<ClaimRow>, f: nat, e: nat)
    requires !RepeatsUnder(w.claims, e) && claims == w.claims + rows
    requires NoRepeats(rows) && forall c :: c in rows ==> c.event == f
    requires f == e ==> !HasClaims(w, e)
    ensures !RepeatsUnder(claims, e)
  {
    forall i, j | 0 <= i < j < |claims| && claims[i].event == e
      ensures !SameDelivery(claims[i], claims[j])
    {
      if i < |w.claims| <= j {
        assert claims[i] in w.claims && claims[j] in rows;
      }
    }
  }

  lemma WorkersOnce(w: World, w': World, rows: seq<ClaimRow>, f: nat, e: nat)
    requires Once(w, e) && w'.claims == w.claims + rows && w'.performing <= w.performing
    requires forall c :: c in rows ==> c.event == f
    requires f == e ==> forall t :: t in w'.performing ==> t.event != e
    ensures forall t :: t in w'.performing && t.event == e ==> !HasClaims(w', e) && w'.performing[t] == 1
    ensures forall t, u :: t in w'.performing && u in w'.performing && t.event == e && u.event == e ==> t == u
  {
    hide RepeatsUnder;
    forall t | t in w'.performing
      ensures t in w.performing
      ensures t.event == e ==> !HasClaims(w', e) && w'.performing[t] == 1
    {
      assert 1 <= w'.performing[t] <= w.performing[t];
    }
  }

  lemma PerformOnce(w: World, t: Ticket, stop: Stop, e: nat)
    requires Once(w, e)
    ensures Once(PerformStep(w, t, stop), e)
  {
    hide RepeatsUnder;
    if t in w.performing {
      IssuedStamp(w, t, stop);
      PerformTouches(w, t, stop);
      hide PerformStep, Issued, MarkReleased, Landing, NoRepeats;
      forall u | u in w.performing - multiset{t} && t.event == e
        ensures u.event != e
      {
        assert u in w.performing && (u == t ==> w.performing[t] == 1);
      }
      RowsOnce(w, PerformStep(w, t, stop), Issued(w, t, stop), t.event, e);
    } else {
      PerformNothing(w, t, stop);
    }
  }

  lemma EventLetterRows(w: World, l: nat, upTo: EventStop) returns (rows: seq<ClaimRow>)
    requires EventLetterReady(w, l)
    ensures var w' := ReleaseEventLetterStep(w, l, upTo);
      && w'.claims == w.claims + rows && w'.performing == w.performing
      && NoRepeats(rows) && forall c :: c in rows ==> c.event == |w.events|
  {
    var w2 := CreateEvent(w.(letters := w.letters[l := w.letters[l].(eventReleasedAt := Some(w.clock))]),
                          w.letters[l].vault, false, None);
    LetterClaimsStamp(w2, |w.events|, l);
    LetterClaimsNoRepeats(w2, |w.events|, l);
    hide LetterClaims;
    rows := match upTo case BeforeEvent => [] case Partial(k) => Prefix(LetterClaims(w2, |w.events|, l), k)
                       case Complete => LetterClaims(w2, |w.events|, l);
    if upTo.Partial? {
      PrefixNoRepeats(LetterClaims(w2, |w.events|, l), upTo.issued);
    }
  }

  lemma EventLetterOnceMore(w: World, l: nat, upTo: EventStop, e: nat)
    requires Once(w, e) && WorkBound(w)
    ensures Once(ReleaseEventLetterStep(w, l, upTo), e)
  {
    hide RepeatsUnder;
    if EventLetterReady(w, l) {
      var rows := EventLetterRows(w, l, upTo);
      assert !HasClaims(w, |w.events|) && !Delivering(w, |w.events|);
      hide ReleaseEventLetterStep, NoRepeats, EventLetterReady;
      RowsOnce(w, ReleaseEventLetterStep(w, l, upTo), rows, |w.events|, e);
    } else {
      EventLetterNothing(w, l, upTo);
    }
  }

  lemma PartOnce(w: World, t: Ticket, part: Part, e: nat)
    requires Once(w, e) && t.event != e
    ensures Once(PerformWriteStep(w, t, part), e)
  {
    hide RepeatsUnder, Once, SetState, MarkReleased;
    SetStateTouches(w, t.vault, Released, Some(w.clock));
    SetStateTouches(w, t.vault, Active, None);
    MarkReleasedTouches(w, t.event);
    var rows := if t in w.performing && part.Issue?
                then [ClaimRow(t.event, part.subject, part.recipient, w.clock)] else [];
    RowsOnce(w, PerformWriteStep(w, t, part), rows, t.event, e);
  }

  lemma ClaimOnce(w: World, t: Ticket, e: nat)
    requires Once(w, e) && FirstWin(w, Claim(t), e)
    ensures Once(ClaimStep(w, t), e)
  {
    hide RepeatsUnder;
    var w' := ClaimStep(w, t);
    assert w'.claims == w.claims;
    if Wins(w, t) {
      assert forall u :: u in w'.performing ==> u in w.performing || u == t;
      assert t.event == e ==> t !in w.performing;
    }
  }

  lemma LessWorkOnce(w: World, w': World, e: nat)
    requires Once(w, e) && w'.claims == w.claims && w'.performing <= w.performing
    ensures Once(w', e)
  {
    hide Once;
    RowsOnce(w, w', [], e + 1, e);
  }

  lemma OnceStep(w: World, s: Step, e: nat)
    requires Once(w, e) && WorkBound(w) && FirstWin(w, s, e) && WholeDelivery(s, e)
    ensures Once(Apply(w, s), e)
  {
    hide Once, WorkBound, FirstWin;
    if s.Perform? {
      PerformOnce(w, s.t, s.stop, e);
      hide PerformStep;
    } else if s.ReleaseEventLetter? {
      EventLetterOnceMore(w, s.l, s.upTo, e);
      hide ReleaseEventLetterStep;
    } else if s.PerformWrite? {
      PartOnce(w, s.t, s.part, e);
      hide PerformWriteStep;
    } else if s.Claim? {
      ClaimOnce(w, s.t, e);
      hide ClaimStep;
    } else {
      SameClaims(w, s);
      if !s.PerformEnd? && !s.Crash? {
        PerformingElsewhere(w, s);
        hide Apply;
      }
      LessWorkOnce(w, Apply(w, s), e);
    }
  }

  /** An event that wins no release claim once it has started delivers no letter or attachment twice,
      whatever happens under other events. */
  lemma {:induction false} NoDoubleDelivery(w: World, run: seq<Step>, j: nat, e: nat)
    requires Start(w) && FirstWins(w, run, e) && j <= |run|
    ensures Once(At(w, run, j), e)
  {
    hide Apply, WorkBound, FirstWin, Once;
    if j == 0 {
      StartOnce(w, e);
    } else {
      NoDoubleDelivery(w, run, j - 1, e);
      RunKeepsBound(w, run, j - 1);
      OnceStep(At(w, run, j - 1), run[j - 1], e);
    }
  }

  lemma StartOnce(w: World, e: nat)
    requires Start(w)
    ensures Once(w, e)
  {}

  // ---- What has been claimed stays in its vault ----

  /** The letter a claim is about; for an unknown attachment there is none. */
  function LetterFor(w: World, c: ClaimRow): nat {
    match c.subject
    case LetterOf(l) => l
    case AttachmentOf(a) => if a < |w.attachments| then w.attachments[a].letter else |w.letters|
  }

  /** The claim is about a letter of the vault of its event. */
  predicate Belongs(w: World, c: ClaimRow) {
    && c.event < |w.events| && LetterFor(w, c) < |w.letters|
    && w.letters[LetterFor(w, c)].vault == w.events[c.event].vault
    && (c.subject.AttachmentOf? ==> c.subject.attachment < |w.attachments|)
  }

  ghost predicate Known(w: World, e: nat) {
    e < |w.events| && w.events[e].deadline.Some? ==> forall c :: c in w.claims && c.event == e ==> Belongs(w, c)
  }

  /** Letters stay in their vaults, attachments with their letters. */
  predicate KeepsLetters(w: World, w': World) {
    && |w.letters| <= |w'.letters| && w.attachments <= w'.attachments
    && forall l :: 0 <= l < |w.letters| ==> w'.letters[l].vault == w.letters[l].vault
  }

  lemma AuthoringKeepsLetters(w: World, s: Step)
    requires s.SealLetter? || s.EditLetter?
    ensures KeepsLetters(w, Apply(w, s))
  {}

  lemma EntryKeepsLetters(w: World, s: Step)
    requires s.Begin? || s.Aggregate? || s.DuressEnter? || s.InsertEvent?
    ensures KeepsLetters(w, Apply(w, s))
  {
    hide Verdict, InDuress;
  }

  lemma ReleaseKeepsLetters(w: World, s: Step)
    requires s.Claim? || s.Perform? || s.PerformWrite? || s.ReleaseEventLetter?
    ensures KeepsLetters(w, Apply(w, s))
  {
    hide ClaimStep, PerformStep, ReleaseEventLetterStep, SetState, MarkReleased;
    match s
    case Claim(t) => ClaimTouches(w, t);
    case Perform(t, stop) =>
      if t in w.performing {
        PerformTouches(w, t, stop);
      } else {
        PerformNothing(w, t, stop);
      }
    case PerformWrite(t, _) =>
      SetStateTouches(w, t.vault, Released, Some(w.clock));
      SetStateTouches(w, t.vault, Active, None);
      MarkReleasedTouches(w, t.event);
    case ReleaseEventLetter(l, upTo) =>
      if EventLetterReady(w, l) {
        EventLetterTouches(w, l, upTo);
      } else {
        EventLetterNothing(w, l, upTo);
      }
  }

  lemma StepKeepsLetters(w: World, s: Step)
    ensures KeepsLetters(w, Apply(w, s))
  {
    hide KeepsLetters, MarkCancelled, CancelStep, DueTickets;
    match s
    case SealLetter(_, _, _, _) => AuthoringKeepsLetters(w, s);
    case EditLetter(_, _, _) => AuthoringKeepsLetters(w, s);
    case Begin(_, _, _, _) => EntryKeepsLetters(w, s);
    case Aggregate(_, _, _, _, _) => EntryKeepsLetters(w, s);
    case DuressEnter(_, _, _) => EntryKeepsLetters(w, s);
    case InsertEvent(_, _, _, _) => EntryKeepsLetters(w, s);
    case Claim(_) => ReleaseKeepsLetters(w, s);
    case Perform(_, _) => ReleaseKeepsLetters(w, s);
    case PerformWrite(_, _) => ReleaseKeepsLetters(w, s);
    case ReleaseEventLetter(_, _) => ReleaseKeepsLetters(w, s);
    case Cancel(v, observed, closes) =>
      CancelTouches(w, v, observed, closes);
      SameLetters(w, Apply(w, s));
    case CloseEvent(e) =>
      MarkCancelledTouches(w, e);
      SameLetters(w, Apply(w, s));
    case _ => SameLetters(w, Apply(w, s));
  }

  lemma SameLetters(w: World, w': World)
    requires w'.letters == w.letters && w'.attachments == w.attachments
    ensures KeepsLetters(w, w')
  {}

  /** Where a new claim comes from: a whole delivery owes it, or a statement of one issues it, or an
      event letter has fired, under an event without a deadline. */
  lemma NewClaim(w: World, s: Step, c: ClaimRow)
    requires c in Apply(w, s).claims && c !in w.claims
    ensures s.Perform? || s.PerformWrite? || s.ReleaseEventLetter?
    ensures s.Perform? ==> s.t in w.performing && Owed(w, s.t.event, s.t.vault, c)
    ensures s.PerformWrite? ==> c.event == s.t.event
    ensures s.ReleaseEventLetter? ==>
      c.event == |w.events| < |Apply(w, s).events| && Apply(w, s).events[c.event].deadline.None?
  {
    if s.Perform? {
      PerformNewClaim(w, s.t, s.stop, c);
      hide PerformStep, Owed;
    } else if s.PerformWrite? {
      PartNewClaim(w, s.t, s.part, c);
      hide PerformWriteStep;
    } else if s.ReleaseEventLetter? {
      EventLetterNewClaim(w, s.l, s.upTo, c);
      hide ReleaseEventLetterStep;
    } else {
      SameClaims(w, s);
      hide Apply;
    }
  }

  lemma PerformNewClaim(w: World, t: Ticket, stop: Stop, c: ClaimRow)
    requires c in PerformStep(w, t, stop).claims && c !in w.claims
    ensures t in w.performing && Owed(w, t.event, t.vault, c)
  {
    hide Owed;
    if t in w.performing {
      PerformTouches(w, t, stop);
      DeliveryExact(w, t.event, t.vault);
      hide PerformStep, MarkReleased, NoRepeats, Delivery;
      assert c in Issued(w, t, stop);
      if stop.DeliveryFails? {
        PrefixNoRepeats(Delivery(w, t.event, t.vault, |w.letters|), stop.issued);
      }
    } else {
      PerformNothing(w, t, stop);
    }
  }

  lemma PartNewClaim(w: World, t: Ticket, part: Part, c: ClaimRow)
    requires c in PerformWriteStep(w, t, part).claims && c !in w.claims
    ensures c.event == t.event
  {}

  lemma EventLetterNewClaim(w: World, l: nat, upTo: EventStop, c: ClaimRow)
    requires c in ReleaseEventLetterStep(w, l, upTo).claims && c !in w.claims
    ensures var w' := ReleaseEventLetterStep(w, l, upTo);
      c.event == |w.events| < |w'.events| && w'.events[c.event].deadline.None?
  {
    if EventLetterReady(w, l) {
      EventLetterTouches(w, l, upTo);
      EventLetterStamp(w, l, upTo);
      hide ReleaseEventLetterStep, EventLetterReady;
    } else {
      EventLetterNothing(w, l, upTo);
    }
  }

  lemma BelongsKept(w: World, w': World, c: ClaimRow)
    requires Belongs(w, c) && KeepsLetters(w, w') && KeepsEvents(w.events, w'.events)
    ensures Belongs(w', c)
  {
    assert KeepsEvent(w.events[c.event], w'.events[c.event]);
  }

  lemma OwedBelongs(w: World, t: Ticket, c: ClaimRow)
    requires Bound(w.events, t) && Owed(w, t.event, t.vault, c)
    ensures Belongs(w, c)
  {}

  lemma KnownStep(w: World, s: Step, e: nat)
    requires WorkBound(w) && Known(w, e) && WholeDelivery(s, e)
    ensures Known(Apply(w, s), e)
  {
    var w' := Apply(w, s);
    StepKeepsLetters(w, s);
    StepKeepsEvents(w, s);
    hide Apply, KeepsLetters, Belongs, Owed;
    forall c | c in w'.claims && c.event == e && e < |w'.events| && w'.events[e].deadline.Some?
      ensures Belongs(w', c)
    {
      if c in w.claims {
        assert KeepsEvent(w.events[e], w'.events[e]);
        BelongsKept(w, w', c);
      } else {
        NewClaim(w, s, c);
        if s.Perform? {
          OwedBelongs(w, s.t, c);
          BelongsKept(w, w', c);
        }
      }
    }
  }

  lemma {:induction false} RunKeepsKnown(w: World, run: seq<Step>, j: nat, e: nat)
    requires Start(w) && j <= |run| && forall k :: 0 <= k < |run| ==> WholeDelivery(run[k], e)
    ensures Known(At(w, run, j), e)
  {
    hide Apply, WorkBound;
    if j > 0 {
      RunKeepsKnown(w, run, j - 1, e);
      RunKeepsBound(w, run, j - 1);
      hide Known;
      KnownStep(At(w, run, j - 1), run[j - 1], e);
    }
  }

  // ---- A second win repeats ----

  /** Without a further win of the event, and with its deliveries whole, the run ends with a letter or
      attachment claimed twice under it. */
  ghost predicate Repeats(w: World, run: seq<Step>, e: nat, whole: bool) {
    && (forall j :: 0 <= j < |run| ==>
          !WinsEvent(At(w, run, j), run[j], e) && WholeDelivery(run[j], e) && (whole ==> !HalfHandler(run[j])))
    && RepeatsUnder(At(w, run, |run|).claims, e)
  }

  /** With `whole`, by handlers nobody interrupts. */
  ghost predicate CanRepeat(w: World, e: nat, whole: bool) {
    exists run :: Repeats(w, run, e, whole)
  }

  lemma {:induction false} NoRepeatFollows(w: World, run: seq<Step>, e: nat, j: nat)
    requires WorkBound(w) && Once(w, e) && j <= |run|
    requires forall k :: 0 <= k < |run| ==> !WinsEvent(At(w, run, k), run[k], e) && WholeDelivery(run[k], e)
    ensures WorkBound(At(w, run, j)) && Once(At(w, run, j), e)
  {
    hide Apply, WorkBound, Once, NewWork, KeepsEvents, WinsEvent;
    if j > 0 {
      var u, s := At(w, run, j - 1), run[j - 1];
      NoRepeatFollows(w, run, e, j - 1);
      StepKeepsEvents(u, s);
      StepNewWork(u, s);
      WorkKept(u, Apply(u, s));
      OnceStep(u, s, e);
    }
  }

  lemma OnceCannotRepeat(w: World, e: nat, whole: bool)
    requires WorkBound(w) && Once(w, e)
    ensures !CanRepeat(w, e, whole)
  {
    forall run: seq<Step>
      ensures !Repeats(w, run, e, whole)
    {
      if forall k :: 0 <= k < |run| ==> !WinsEvent(At(w, run, k), run[k], e) && WholeDelivery(run[k], e) {
        NoRepeatFollows(w, run, e, |run|);
      }
    }
  }

  /** Whoever delivers, with a claim of the letter or attachment out already, claims it again. */
  lemma DeliversAgain(w: World, t: Ticket, c: ClaimRow, l: nat)
    requires t in w.performing && c in w.claims && c.event == t.event && FiresIn(w, t.vault, l)
    requires LetterFor(w, c) == l
    requires c.subject.AttachmentOf? ==> c.subject.attachment < |w.attachments|
    ensures RepeatsUnder(PerformStep(w, t, Done).claims, t.event)
  {
    var d := ClaimRow(t.event, c.subject, w.letters[l].recipient, w.clock);
    assert Owed(w, t.event, t.vault, d);
    PerformDelivers(w, t, Done);
    hide PerformStep, Owed, NoRepeats;
    var rows := PerformStep(w, t, Done).claims;
    var i :| 0 <= i < |w.claims| && w.claims[i] == c;
    var j :| 0 <= j < |rows| - |w.claims| && rows[|w.claims|..][j] == d;
    assert SameDelivery(rows[i], rows[|w.claims| + j]);
  }

  /** A claim is out: its letter, edited to fire on a signal if it does not, goes out once more. */
  lemma ClaimedRepeats(w: World, t: Ticket, c: ClaimRow, whole: bool)
    requires t in w.performing && c in w.claims && c.event == t.event && Belongs(w, c)
    requires Bound(w.events, t)
    ensures CanRepeat(w, t.event, whole)
  {
    hide PerformStep, RepeatsUnder, CanRepeat;
    var l := LetterFor(w, c);
    var edit := EditLetter(l, SignalOnly, "");
    var w1 := Apply(w, edit);
    assert w1 == w.(letters := w.letters[l := w.letters[l].(mode := SignalOnly, recipient := "")]);
    DeliversAgain(w1, t, c, l);
    PerformApplies(w1, t);
    hide Apply, Belongs, LetterFor;
    TwoSteps(w, edit, Perform(t, Done), t.event, whole);
  }

  lemma TwoSteps(w: World, a: Step, b: Step, e: nat, whole: bool)
    requires !a.Claim? && !b.Claim? && !HalfHandler(a) && !HalfHandler(b)
    requires RepeatsUnder(Apply(Apply(w, a), b).claims, e)
    ensures CanRepeat(w, e, whole)
  {
    hide Apply, RepeatsUnder, Wins;
    var run := [a, b];
    assert At(w, run, 1) == Apply(w, a);
    assert At(w, run, 2) == Apply(Apply(w, a), b);
    assert Repeats(w, run, e, whole);
  }

  lemma PerformApplies(w: World, t: Ticket)
    ensures Apply(w, Perform(t, Done)) == PerformStep(w, t, Done)
  {
    hide PerformStep;
  }

  /** Two are delivering: a letter sealed after a cancel that comes too late goes out twice. */
  lemma TwoDeliverRepeats(w: World, t: Ticket, u: Ticket, whole: bool)
    requires t in w.performing && u in w.performing - multiset{t} && u.event == t.event && u.vault == t.vault
    requires t.vault < |w.vaults|
    ensures CanRepeat(w, t.event, whole)
  {
    hide Apply, PerformStep, RepeatsUnder, FiresIn, CanRepeat, InState;
    var v, l: nat := t.vault, |w.letters|;
    var cancel, seal := Cancel(v, CoolingOff, false), SealLetter(v, SignalOnly, "", 0);
    var w2 := Apply(Apply(w, cancel), seal);
    var w3 := PerformStep(w2, u, Done);
    ReopenAndSeal(w, v);
    PerformApplies(w2, u);
    PerformApplies(w3, t);
    TwoAtWork(w.performing, t, u);
    FirstDelivers(w2, u, t, l);
    SameFires(w2, w3, v, l);
    DeliversAgain(w3, t, ClaimRow(t.event, LetterOf(l), "", w.clock), l);
    FourSteps(w, cancel, seal, Perform(u, Done), Perform(t, Done), t.event, whole);
  }

  lemma TwoAtWork(ps: multiset<Ticket>, t: Ticket, u: Ticket)
    requires t in ps && u in ps - multiset{t}
    ensures u in ps && t in ps - multiset{u}
  {}

  lemma SameFires(w: World, w': World, v: nat, l: nat)
    requires FiresIn(w, v, l) && w'.letters == w.letters
    ensures FiresIn(w', v, l)
  {}

  lemma FourSteps(w: World, a: Step, b: Step, c: Step, d: Step, e: nat, whole: bool)
    requires !a.Claim? && !b.Claim? && !c.Claim? && !d.Claim?
    requires !HalfHandler(a) && !HalfHandler(b) && !HalfHandler(c) && !HalfHandler(d)
    requires RepeatsUnder(Apply(Apply(Apply(Apply(w, a), b), c), d).claims, e)
    ensures CanRepeat(w, e, whole)
  {
    hide Apply, RepeatsUnder, Wins;
    var run := [a, b, c, d];
    assert At(w, run, 1) == Apply(w, a);
    assert At(w, run, 2) == Apply(Apply(w, a), b);
    assert At(w, run, 3) == Apply(Apply(Apply(w, a), b), c);
    assert At(w, run, 4) == Apply(Apply(Apply(Apply(w, a), b), c), d);
    assert Repeats(w, run, e, whole);
  }

  lemma ReopenAndSeal(w: World, v: nat)
    requires v < |w.vaults|
    ensures var w2 := Apply(Apply(w, Cancel(v, CoolingOff, false)), SealLetter(v, SignalOnly, "", 0));
      && w2.performing == w.performing && w2.clock == w.clock && |w2.letters| == |w.letters| + 1
      && FiresIn(w2, v, |w.letters|) && w2.letters[|w.letters|].recipient == ""
  {
    hide NewestOpen;
  }

  lemma FirstDelivers(w: World, u: Ticket, t: Ticket, l: nat)
    requires u in w.performing && t in w.performing - multiset{u} && FiresIn(w, u.vault, l)
    requires w.letters[l].recipient == ""
    ensures var w' := PerformStep(w, u, Done);
      && t in w'.performing && w'.letters == w.letters && w'.clock == w.clock
      && ClaimRow(u.event, LetterOf(l), "", w.clock) in w'.claims
  {
    var d := ClaimRow(u.event, LetterOf(l), "", w.clock);
    assert Owed(w, u.event, u.vault, d);
    PerformDelivers(w, u, Done);
    PerformTouches(w, u, Done);
    hide PerformStep, Owed, NoRepeats, Issued, MarkReleased;
    assert d in PerformStep(w, u, Done).claims[|w.claims|..];
  }

  lemma StartedRepeats(w: World, t: Ticket, whole: bool)
    requires WorkBound(w) && Known(w, t.event) && Wins(w, t) && Started(w, t.event)
    ensures CanRepeat(ClaimStep(w, t), t.event, whole)
  {
    var u := ClaimStep(w, t);
    WinnerWorks(w, t);
    hide CanRepeat;
    if HasClaims(w, t.event) {
      var c :| c in w.claims && c.event == t.event;
      ClaimedRepeats(u, t, c, whole);
    } else {
      var x :| x in w.performing && x.event == t.event;
      assert Bound(w.events, x);
      hide ClaimStep, Wins;
      TwoDeliverRepeats(u, t, x, whole);
    }
  }

  lemma WinnerWorks(w: World, t: Ticket)
    requires WorkBound(w) && Wins(w, t)
    ensures var u := ClaimStep(w, t);
      && u.performing == w.performing + multiset{t} && u.claims == w.claims && u.events == w.events
      && u.letters == w.letters && u.attachments == w.attachments
      && t.vault < |w.vaults| == |u.vaults| && Bound(w.events, t)
  {}

  lemma FirstWinOnce(w: World, t: Ticket)
    requires WorkBound(w) && Once(w, t.event) && Wins(w, t) && !Started(w, t.event)
    ensures WorkBound(ClaimStep(w, t)) && Once(ClaimStep(w, t), t.event)
  {
    ClaimOnce(w, t, t.event);
    ClaimTakesTicket(w, t);
    ClaimTouches(w, t);
    hide ClaimStep, WorkBound, Once, NewWork;
    PrefixKeeps(w.events, w.events);
    WorkKept(w, ClaimStep(w, t));
  }

  /** When one event delivers twice. In a run in which it won no release claim once it had started, it
      now wins one: without a further win, some continuation claims a letter or attachment twice under
      it if and only if it had started. */
  lemma SecondWinRepeatsIff(w: World, run: seq<Step>, t: Ticket, whole: bool)
    requires Start(w) && FirstWins(w, run, t.event) && Wins(At(w, run, |run|), t)
    ensures CanRepeat(ClaimStep(At(w, run, |run|), t), t.event, whole) <==> Started(At(w, run, |run|), t.event)
  {
    RunKeepsKnown(w, run, |run|, t.event) by { hide FirstWin; }
    NoDoubleDelivery(w, run, |run|, t.event);
    RunKeepsBound(w, run, |run|);
    hide At, FirstWins, Known, WorkBound, Once, Started, CanRepeat, ClaimStep, Wins;
    var u := At(w, run, |run|);
    if Started(u, t.event) {
      StartedRepeats(u, t, whole);
    } else {
      FirstWinOnce(u, t);
      OnceCannotRepeat(ClaimStep(u, t), t.event, whole);
    }
  }
}
