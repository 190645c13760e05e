/**
 The hold on a change of recipient (crates/beacon-db/src/lib.rs:1144-1252). A change may be applied
 by the applier tick or by an event trigger, and cancelled by any co-steward, while the principal
 may edit the letter at any time; one SQL statement is a step, and any number of appliers, triggers,
 cancels and edits interleave and crash. Applying does not look at the clock: both callers do, some
 time before.
 */
module RecipientChanges {
  import opened Domain

  datatype Letter = Letter(email: string, firedAt: Option<int>)

  datatype Change = Change(
    letter: nat, newEmail: string, requestedAt: int, effectiveAt: int,
    appliedAt: Option<int>, cancelledAt: Option<int>)

  /** Change ids an applier tick has listed, or the one a trigger has fetched, still to be applied. */
  type Agent = set<nat>

  datatype World = World(clock: int, letters: map<nat, Letter>, changes: map<nat, Change>, agents: map<nat, Agent>)

  /** Callers read their own clock (`now`) before the statement they use it in. */
  datatype Step =
    | Elapse(seconds: nat)
    | Request(id: nat, letter: nat, newEmail: string, now: int, hold: int)
    | ListDue(agent: nat, now: int)
    | FetchPending(agent: nat, letter: nat, latest: nat, now: int)
    | ApplyOne(agent: nat, id: nat)
    | Cancel(id: nat)
    | EditLetter(letter: nat, email: string)
    | Fire(letter: nat)
    | Crash(agent: nat)

  predicate Pending(c: Change) {
    c.appliedAt.None? && c.cancelledAt.None?
  }

  function PendingOf(changes: map<nat, Change>, letter: nat): set<nat> {
    set id | id in changes && changes[id].letter == letter && Pending(changes[id])
  }

  function DueAt(changes: map<nat, Change>, now: int): set<nat> {
    set id | id in changes && Pending(changes[id]) && changes[id].effectiveAt <= now
  }

  /** ORDER BY requested_at DESC LIMIT 1. */
  predicate IsLatest(changes: map<nat, Change>, letter: nat, id: nat) {
    id in PendingOf(changes, letter)
    && forall k :: k in PendingOf(changes, letter) ==> changes[k].requestedAt <= changes[id].requestedAt
  }

  function Applied(clock: int, changes: map<nat, Change>, id: nat): map<nat, Change> {
    if id in changes && Pending(changes[id]) then changes[id := changes[id].(appliedAt := Some(clock))] else changes
  }

  function Redirected(letters: map<nat, Letter>, changes: map<nat, Change>, id: nat): map<nat, Letter> {
    if id in changes && Pending(changes[id]) && changes[id].letter in letters
    then letters[changes[id].letter := letters[changes[id].letter].(email := changes[id].newEmail)]
    else letters
  }

  function Cancelled(clock: int, changes: map<nat, Change>, id: nat): map<nat, Change> {
    if id in changes && Pending(changes[id]) then changes[id := changes[id].(cancelledAt := Some(clock))] else changes
  }

  function Requested(clock: int, changes: map<nat, Change>, id: nat, letter: nat, newEmail: string,
                     now: int, hold: int): map<nat, Change>
  {
    changes[id := Change(letter, newEmail, clock, now + Max(hold, 0), None, None)]
  }

  function Apply(w: World, s: Step): World {
    match s
    case Elapse(seconds) => w.(clock := w.clock + seconds)
    case Request(id, letter, newEmail, now, hold) =>
      if id !in w.changes && letter in w.letters
      then w.(changes := Requested(w.clock, w.changes, id, letter, newEmail, now, hold)) else w
    case ListDue(agent, now) =>
      if now <= w.clock then w.(agents := w.agents[agent := DueAt(w.changes, now)]) else w
    case FetchPending(agent, letter, latest, now) =>
      if now <= w.clock && IsLatest(w.changes, letter, latest)
      then w.(agents := w.agents[agent := if w.changes[latest].effectiveAt <= now then {latest} else {}]) else w
    case ApplyOne(agent, id) =>
      if agent in w.agents && id in w.agents[agent] then
        w.(agents := w.agents[agent := w.agents[agent] - {id}],
           changes := Applied(w.clock, w.changes, id),
           letters := Redirected(w.letters, w.changes, id))
      else w
    case Cancel(id) => w.(changes := Cancelled(w.clock, w.changes, id))
    case EditLetter(letter, email) =>
      if letter in w.letters
      then w.(letters := w.letters[letter := w.letters[letter].(email := email)]) else w
    case Fire(letter) =>
      if letter in w.letters && w.letters[letter].firedAt.None?
      then w.(letters := w.letters[letter := w.letters[letter].(firedAt := Some(w.clock))]) else w
    case Crash(agent) => w.(agents := w.agents - {agent})
  }

  function After(w: World, run: seq<Step>): World {
    if run == [] then w else Apply(After(w, run[..|run| - 1]), run[|run| - 1])
  }

  // ---- Decided at most once ----

  /** The step writes change `id`'s address, or its cancellation. */
  predicate Applies(w: World, s: Step, id: nat) {
    s.ApplyOne? && s.id == id && s.agent in w.agents && id in w.agents[s.agent]
    && id in w.changes && Pending(w.changes[id])
  }

  predicate Cancels(w: World, s: Step, id: nat) {
    s == Cancel(id) && id in w.changes && Pending(w.changes[id])
  }

  function Count(w: World, run: seq<Step>, id: nat): (nat, nat) {
    if run == [] then (0, 0) else
      var init, s := run[..|run| - 1], run[|run| - 1];
      var (a, c) := Count(w, init, id);
      (a + if Applies(After(w, init), s, id) then 1 else 0, c + if Cancels(After(w, init), s, id) then 1 else 0)
  }

  function One(o: Option<int>): nat {
    if o.Some? then 1 else 0
  }

  function AppliedMark(w: World, id: nat): nat {
    if id in w.changes then One(w.changes[id].appliedAt) else 0
  }

  function CancelledMark(w: World, id: nat): nat {
    if id in w.changes then One(w.changes[id].cancelledAt) else 0
  }

  lemma MarksStep(w: World, s: Step, id: nat)
    ensures AppliedMark(Apply(w, s), id) == AppliedMark(w, id) + if Applies(w, s, id) then 1 else 0
    ensures CancelledMark(Apply(w, s), id) == CancelledMark(w, id) + if Cancels(w, s, id) then 1 else 0
    ensures AppliedMark(w, id) + CancelledMark(w, id) <= 1 ==>
      AppliedMark(Apply(w, s), id) + CancelledMark(Apply(w, s), id) <= 1
  {}

  /** Over any run a change is applied at most once, cancelled at most once, and never both. */
  lemma {:induction false} DecidedAtMostOnce(w: World, run: seq<Step>, id: nat)
    requires AppliedMark(w, id) + CancelledMark(w, id) <= 1
    ensures AppliedMark(w, id) + Count(w, run, id).0 == AppliedMark(After(w, run), id)
    ensures CancelledMark(w, id) + Count(w, run, id).1 == CancelledMark(After(w, run), id)
    ensures AppliedMark(w, id) + CancelledMark(w, id) + Count(w, run, id).0 + Count(w, run, id).1 <= 1
  {
    if run != [] {
      hide Apply, AppliedMark, CancelledMark, Applies, Cancels;
      var init := run[..|run| - 1];
      DecidedAtMostOnce(w, init, id);
      MarksStep(After(w, init), run[|run| - 1], id);
    }
  }

  /** A decision is final, and what was asked for never changes. */
  predicate SameChange(c: Change, c1: Change) {
    && c1.letter == c.letter && c1.newEmail == c.newEmail
    && c1.requestedAt == c.requestedAt && c1.effectiveAt == c.effectiveAt
    && (!Pending(c) ==> c1 == c)
  }

  lemma {:induction false} DecisionIsFinal(w: World, run: seq<Step>, id: nat)
    requires id in w.changes
    ensures id in After(w, run).changes && SameChange(w.changes[id], After(w, run).changes[id])
  {
    if run != [] {
      hide Apply;
      DecisionIsFinal(w, run[..|run| - 1], id);
      ChangeStep(After(w, run[..|run| - 1]), run[|run| - 1], id);
    }
  }

  lemma ChangeStep(w: World, s: Step, id: nat)
    requires id in w.changes
    ensures id in Apply(w, s).changes && SameChange(w.changes[id], Apply(w, s).changes[id])
  {}

  // ---- Never before its time ----

  predicate ChangeGood(c: Change) {
    && (c.appliedAt.Some? ==> c.effectiveAt <= c.appliedAt.value)
    && !(c.appliedAt.Some? && c.cancelledAt.Some?)
  }

  predicate ChangesGood(w: World) {
    forall id :: id in w.changes ==> ChangeGood(w.changes[id])
  }

  /** What an agent holds was due when it looked. */
  predicate AgentsGood(w: World) {
    forall a, id :: a in w.agents && id in w.agents[a] ==> id in w.changes && w.changes[id].effectiveAt <= w.clock
  }

  lemma StepKeepsGood(w: World, s: Step)
    requires ChangesGood(w) && AgentsGood(w)
    ensures ChangesGood(Apply(w, s)) && AgentsGood(Apply(w, s))
  {
    hide IsLatest;
    match s
    case FetchPending(agent, letter, latest, now) => FetchKeepsGood(w, agent, letter, latest, now);
    case _ =>
  }

  lemma FetchKeepsGood(w: World, agent: nat, letter: nat, latest: nat, now: int)
    requires AgentsGood(w)
    ensures AgentsGood(Apply(w, FetchPending(agent, letter, latest, now)))
  {}

  /** Whoever applies it, and however late its clock reading, no change takes effect before the end
      of its hold. */
  lemma {:induction false} NeverEarly(w: World, run: seq<Step>)
    requires ChangesGood(w) && AgentsGood(w)
    ensures ChangesGood(After(w, run)) && AgentsGood(After(w, run))
  {
    if run != [] {
      hide Apply, ChangesGood, AgentsGood;
      NeverEarly(w, run[..|run| - 1]);
      StepKeepsGood(After(w, run[..|run| - 1]), run[|run| - 1]);
    }
  }

  lemma {:induction false} AfterSplit(w: World, run: seq<Step>, k: nat)
    requires k <= |run|
    ensures After(w, run) == After(After(w, run[..k]), run[k..])
  {
    if k == |run| {
      assert run[..k] == run;
    } else {
      hide Apply;
      var init := run[..|run| - 1];
      AfterSplit(w, init, k);
      assert init[..k] == run[..k] && init[k..] == run[k..][..|run[k..]| - 1];
    }
  }

  /** A change requested with a hold is applied no earlier than the hold after the request's own
      clock reading, whatever happens in between. */
  lemma HoldKept(w: World, run: seq<Step>, k: nat)
    requires ChangesGood(w) && AgentsGood(w) && k < |run| && run[k].Request?
    requires var u := After(w, run[..k]); run[k].id !in u.changes && run[k].letter in u.letters
    ensures var c := After(w, run).changes;
      && run[k].id in c
      && (c[run[k].id].appliedAt.Some? ==> c[run[k].id].appliedAt.value >= run[k].now + Max(run[k].hold, 0))
  {
    var u1 := After(w, run[..k + 1]);
    assert run[..k + 1][..k] == run[..k];
    assert u1.changes[run[k].id].effectiveAt == run[k].now + Max(run[k].hold, 0);
    AfterSplit(w, run, k + 1);
    DecisionIsFinal(u1, run[k + 1..], run[k].id);
    NeverEarly(w, run);
    hide After, Apply;
    assert ChangeGood(After(w, run).changes[run[k].id]);
  }

  // ---- Where an address comes from ----

  /** The step gives the letter this address: an edit by the principal, or a change being applied. */
  predicate Addresses(w: World, s: Step, letter: nat, email: string) {
    || (s == EditLetter(letter, email) && letter in w.letters)
    || (s.ApplyOne? && Applies(w, s, s.id) && w.changes[s.id].letter == letter && w.changes[s.id].newEmail == email)
  }

  ghost predicate LeavesAddress(w: World, s: Step, letter: nat) {
    forall email :: !Addresses(w, s, letter, email)
  }

  lemma AddressStep(w: World, s: Step, letter: nat)
    requires letter in w.letters
    ensures letter in Apply(w, s).letters
    ensures var email := Apply(w, s).letters[letter].email;
      Addresses(w, s, letter, email) || (LeavesAddress(w, s, letter) && email == w.letters[letter].email)
  {
    hide IsLatest;
    match s
    case EditLetter(l, e) => assert l == letter ==> Addresses(w, s, letter, e);
    case ApplyOne(agent, id) =>
      if Applies(w, s, id) && w.changes[id].letter == letter {
        assert Addresses(w, s, letter, w.changes[id].newEmail);
      }
    case _ =>
  }

  lemma AppliesMarks(w: World, s: Step)
    requires s.ApplyOne? && Applies(w, s, s.id)
    ensures s.id in Apply(w, s).changes && Apply(w, s).changes[s.id].appliedAt.Some?
  {}

  /** Over any run a letter's address is the one last given to it by an edit of the principal's or by
      a change applied then and recorded as applied ever after; its original one if there was no
      such step. No pending or cancelled change ever redirects it. */
  lemma {:induction false} AddressGrounded(w: World, run: seq<Step>, letter: nat) returns (k: Option<nat>)
    requires letter in w.letters
    ensures letter in After(w, run).letters
    ensures k.None? ==> After(w, run).letters[letter].email == w.letters[letter].email
    ensures k.Some? ==>
      k.value < |run|
      && Addresses(After(w, run[..k.value]), run[k.value], letter, After(w, run).letters[letter].email)
    ensures k.Some? && run[k.value].ApplyOne? ==>
      run[k.value].id in After(w, run).changes && After(w, run).changes[run[k.value].id].appliedAt.Some?
    ensures forall j :: (if k.Some? then k.value + 1 else 0) <= j < |run| ==>
      LeavesAddress(After(w, run[..j]), run[j], letter)
  {
    k := None;
    if run != [] {
      hide Apply, Addresses, LeavesAddress;
      var n := |run| - 1;
      var u := After(w, run[..n]);
      k := AddressGrounded(w, run[..n], letter);
      assert forall j :: 0 <= j <= n ==> run[..n][..j] == run[..j];
      AddressStep(u, run[n], letter);
      if !LeavesAddress(u, run[n], letter) {
        k := Some(n);
        MarkedNow(u, run[n], letter);
      } else if k.Some? && run[k.value].ApplyOne? {
        ChangeStep(u, run[n], run[k.value].id);
      }
    }
  }

  lemma MarkedNow(w: World, s: Step, letter: nat)
    requires !LeavesAddress(w, s, letter)
    ensures s.ApplyOne? ==> s.id in Apply(w, s).changes && Apply(w, s).changes[s.id].appliedAt.Some?
  {
    if s.ApplyOne? {
      AppliesMarks(w, s);
    }
  }

  // ---- After delivery ----

  /** Nobody asks for a change of the letter any more, and its principal does not edit it. */
  predicate HandsOff(run: seq<Step>, letter: nat) {
    forall i :: 0 <= i < |run| ==>
      !(run[i].Request? && run[i].letter == letter) && !(run[i].EditLetter? && run[i].letter == letter)
  }

  /** Whatever is pending for the letter would leave its address as it is. */
  predicate Settled(w: World, letter: nat)
    requires letter in w.letters
  {
    forall id :: id in w.changes && w.changes[id].letter == letter && Pending(w.changes[id]) ==>
      w.changes[id].newEmail == w.letters[letter].email
  }

  lemma SettledStep(w: World, s: Step, letter: nat)
    requires letter in w.letters && Settled(w, letter)
    requires !(s.Request? && s.letter == letter) && !(s.EditLetter? && s.letter == letter)
    ensures letter in Apply(w, s).letters && Settled(Apply(w, s), letter)
    ensures Apply(w, s).letters[letter].email == w.letters[letter].email
  {
    hide IsLatest;
  }

  lemma {:induction false} SettledRun(w: World, run: seq<Step>, letter: nat)
    requires letter in w.letters && Settled(w, letter) && HandsOff(run, letter)
    ensures letter in After(w, run).letters && Settled(After(w, run), letter)
    ensures After(w, run).letters[letter].email == w.letters[letter].email
  {
    if run != [] {
      hide Apply;
      var init := run[..|run| - 1];
      SettledRun(w, init, letter);
      SettledStep(After(w, init), run[|run| - 1], letter);
    }
  }

  /** Wait, list, apply. */
  lemma PendingWillApply(w: World, letter: nat, id: nat) returns (run: seq<Step>)
    requires letter in w.letters && id in w.changes && w.changes[id].letter == letter && Pending(w.changes[id])
    ensures HandsOff(run, letter)
    ensures letter in After(w, run).letters && After(w, run).letters[letter].email == w.changes[id].newEmail
  {
    var wait: nat := if w.changes[id].effectiveAt <= w.clock then 0 else w.changes[id].effectiveAt - w.clock;
    var now := w.clock + wait;
    run := [Elapse(wait), ListDue(0, now), ApplyOne(0, id)];
    var w1 := w.(clock := now);
    var w2 := w1.(agents := w1.agents[0 := DueAt(w.changes, now)]);
    assert Apply(w, run[0]) == w1 && Apply(w1, run[1]) == w2;
    assert Apply(w2, run[2]).letters == Redirected(w.letters, w.changes, id);
    hide Apply;
    Unfold(w, run, 0, w, w1);
    Unfold(w, run, 1, w1, w2);
    Unfold(w, run, 2, w2, Apply(w2, run[2]));
    assert run[..3] == run;
  }

  ghost predicate AddressStays(w: World, run: seq<Step>, letter: nat)
    requires letter in w.letters
  {
    HandsOff(run, letter) ==>
      letter in After(w, run).letters && After(w, run).letters[letter].email == w.letters[letter].email
  }

  /** From any moment on, its firing for one, a letter's address stays what it is in every
      continuation without new requests and edits if and only if no change to another address is
      pending for it at that moment. */
  lemma AddressFixedIff(w: World, letter: nat)
    requires letter in w.letters
    ensures (forall run :: AddressStays(w, run, letter)) <==> Settled(w, letter)
  {
    if Settled(w, letter) {
      forall run: seq<Step>
        ensures AddressStays(w, run, letter)
      {
        if HandsOff(run, letter) {
          SettledRun(w, run, letter);
        }
      }
    } else {
      var id :| id in w.changes && w.changes[id].letter == letter && Pending(w.changes[id])
                && w.changes[id].newEmail != w.letters[letter].email;
      var run := PendingWillApply(w, letter, id);
      assert !AddressStays(w, run, letter);
    }
  }

  // ---- Letters fire once, and changes are asked for letters there are ----

  lemma FiredStep(w: World, s: Step, l: nat)
    requires l in w.letters
    ensures l in Apply(w, s).letters
    ensures Apply(w, s).letters[l].firedAt
            == if s == Fire(l) && w.letters[l].firedAt == None then Some(w.clock) else w.letters[l].firedAt
  {}

  /** A letter keeps the time it fired at, whatever fires, changes or edits it later. */
  lemma {:induction false} FiredForGood(w: World, run: seq<Step>, l: nat)
    requires l in w.letters && w.letters[l].firedAt.Some?
    ensures l in After(w, run).letters && After(w, run).letters[l].firedAt == w.letters[l].firedAt
  {
    hide Apply;
    if run != [] {
      var n := |run| - 1;
      FiredForGood(w, run[..n], l);
      FiredStep(After(w, run[..n]), run[n], l);
    }
  }

  predicate LettersKnown(w: World) {
    forall id :: id in w.changes ==> w.changes[id].letter in w.letters
  }

  lemma {:induction false} ChangesOfLetters(w: World, run: seq<Step>)
    requires LettersKnown(w)
    ensures LettersKnown(After(w, run))
  {
    if run != [] {
      var n := |run| - 1;
      ChangesOfLetters(w, run[..n]);
      KnownStep(After(w, run[..n]), run[n]);
    }
  }

  lemma KnownStep(w: World, s: Step)
    requires LettersKnown(w)
    ensures LettersKnown(Apply(w, s))
  {}

  // ---- What the trigger misses ----

  /** Neither applied nor cancelled. */
  predicate Undecided(c: Change) {
    c.appliedAt == None && c.cancelledAt == None
  }

  /** Asked for, for this letter, and not decided. */
  predicate AwaitedFor(changes: map<nat, Change>, letter: nat, id: nat) {
    id in changes && changes[id].letter == letter && Undecided(changes[id])
  }

  /** A trigger looks at the latest request only. It takes that if it is due; else it leaves a due change
      unapplied exactly when one was requested before, or with, the latest, itself not yet due. */
  lemma TriggerMissesIff(w: World, agent: nat, letter: nat, latest: nat, now: int)
    requires now <= w.clock && AwaitedFor(w.changes, letter, latest)
    requires forall id :: AwaitedFor(w.changes, letter, id) ==>
      w.changes[id].requestedAt <= w.changes[latest].requestedAt
    ensures var w1 := Apply(w, FetchPending(agent, letter, latest, now));
      && w1 == w.(agents := w1.agents) && agent in w1.agents
      && (w.changes[latest].effectiveAt <= now ==> w1.agents[agent] == {latest})
      && ((w1.agents[agent] == {} && exists id :: AwaitedFor(w.changes, letter, id) && w.changes[id].effectiveAt <= now)
          <==> (w.changes[latest].effectiveAt > now
                && exists id :: AwaitedFor(w.changes, letter, id) && id != latest && w.changes[id].effectiveAt <= now
                                && w.changes[id].requestedAt <= w.changes[latest].requestedAt))
  {
    assert forall id :: id in PendingOf(w.changes, letter) <==> AwaitedFor(w.changes, letter, id);
    assert latest in {latest};
  }

  /** And no other request is looked at. */
  lemma TriggerLooksAtLatest(w: World, agent: nat, letter: nat, id: nat, other: nat, now: int)
    requires AwaitedFor(w.changes, letter, other) && id in w.changes
    requires w.changes[other].requestedAt > w.changes[id].requestedAt
    ensures Apply(w, FetchPending(agent, letter, id, now)) == w
  {
    assert other in PendingOf(w.changes, letter);
  }

  /** Nothing looks at the letter again when the hold is over: a change requested before the letter
      fired is applied to it afterwards. */
  lemma AppliedAfterFiring()
    ensures var run := [Request(1, 0, "new@example.org", 0, 60), Fire(0), Elapse(60), ListDue(5, 60), ApplyOne(5, 1)];
      After(Fired(0), run).letters == map[0 := Letter("new@example.org", Some(0))]
  {
    var run := [Request(1, 0, "new@example.org", 0, 60), Fire(0), Elapse(60), ListDue(5, 60), ApplyOne(5, 1)];
    FiringSteps();
    hide Apply;
    Unfold(Fired(0), run, 0, Fired(0), Fired(1));
    Unfold(Fired(0), run, 1, Fired(1), Fired(2));
    Unfold(Fired(0), run, 2, Fired(2), Fired(3));
    Unfold(Fired(0), run, 3, Fired(3), Fired(4));
    Unfold(Fired(0), run, 4, Fired(4), Apply(Fired(4), run[4]));
    assert run[..5] == run;
  }

  /** The worlds on the way. */
  function Fired(k: nat): World {
    World(if k < 3 then 0 else 60,
          map[0 := Letter("old@example.org", if k < 2 then None else Some(0))],
          if k < 1 then map[] else map[1 := Change(0, "new@example.org", 0, 60, None, None)],
          if k < 4 then map[] else map[5 := {1}])
  }

  lemma FiringSteps()
    ensures Apply(Fired(0), Request(1, 0, "new@example.org", 0, 60)) == Fired(1)
    ensures Apply(Fired(1), Fire(0)) == Fired(2) && Apply(Fired(2), Elapse(60)) == Fired(3)
    ensures Apply(Fired(3), ListDue(5, 60)) == Fired(4)
    ensures Apply(Fired(4), ApplyOne(5, 1)).letters == map[0 := Letter("new@example.org", Some(0))]
  {
    assert DueAt(Fired(3).changes, 60) == {1};
  }

  lemma Unfold(w: World, run: seq<Step>, k: nat, wk: World, wk1: World)
    requires k < |run| && (k == 0 ==> wk == w) && (k > 0 ==> After(w, run[..k]) == wk) && Apply(wk, run[k]) == wk1
    ensures After(w, run[..k + 1]) == wk1
  {
    hide Apply;
    assert run[..k + 1][..k] == run[..k];
  }

  // ---- The code ----

  class Desk {
    var clock: int
    var letters: map<nat, Letter>
    var changes: map<nat, Change>

    /** The world with this applier's list of due changes, if it has one. */
    ghost function W(agents: map<nat, Agent>): World
      reads this
    {
      World(clock, letters, changes, agents)
    }

    constructor ()
      ensures letters == map[] && changes == map[]
    {
      clock, letters, changes := 0, map[], map[];
    }

    method RequestRecipientChange(id: nat, letter: nat, newEmail: string, now: int, hold: int)
      requires id !in changes && letter in letters
      modifies `changes
      ensures changes == Requested(clock, old(changes), id, letter, newEmail, now, hold)
      ensures changes.Keys == old(changes).Keys + {id}
      ensures forall k :: k in old(changes) ==> changes[k] == old(changes)[k]
      ensures Undecided(changes[id]) && changes[id].letter == letter && changes[id].newEmail == newEmail
      ensures changes[id].requestedAt == clock && changes[id].effectiveAt == if hold <= 0 then now else now + hold
    {
      var held := if hold < 0 then 0 else hold;
      changes := changes[id := Change(letter, newEmail, clock, now + held, None, None)];
    }

    method CancelRecipientChange(id: nat) returns (cancelled: bool)
      modifies `changes
      ensures cancelled <==> id in old(changes) && Undecided(old(changes)[id])
      ensures changes == Cancelled(clock, old(changes), id)
      ensures changes == if cancelled then old(changes)[id := old(changes)[id].(cancelledAt := Some(clock))]
                         else old(changes)
    {
      cancelled := id in changes && changes[id].appliedAt.None? && changes[id].cancelledAt.None?;
      if cancelled {
        changes := changes[id := changes[id].(cancelledAt := Some(clock))];
      }
    }

    method ApplyRecipientChange(id: nat) returns (applied: Option<(nat, string)>)
      modifies `changes, `letters
      ensures changes == Applied(clock, old(changes), id) && letters == Redirected(old(letters), old(changes), id)
      ensures applied.Some? <==> id in old(changes) && Undecided(old(changes)[id]) && old(changes)[id].letter in letters
      ensures applied.Some? ==> applied.value == (old(changes)[id].letter, old(changes)[id].newEmail)
      ensures changes == if id in old(changes) && Undecided(old(changes)[id])
                         then old(changes)[id := old(changes)[id].(appliedAt := Some(clock))] else old(changes)
      ensures letters == if applied.Some?
                         then old(letters)[applied.value.0 := old(letters)[applied.value.0].(email := applied.value.1)]
                         else old(letters)
    {
      applied := None;
      if id in changes && changes[id].appliedAt.None? && changes[id].cancelledAt.None? {
        var c := changes[id];
        changes := changes[id := c.(appliedAt := Some(clock))];
        if c.letter in letters {
          letters := letters[c.letter := letters[c.letter].(email := c.newEmail)];
          applied := Some((c.letter, c.newEmail));
        }
      }
    }

    /** Lists the due changes and applies them one by one. */
    method ApplyDue() returns (ghost run: seq<Step>)
      modifies `changes, `letters
      ensures After(old(W(map[])), run) == W(map[0 := {}])
      ensures changes == Stamped(old(changes), DueAt(old(changes), clock), clock)
      ensures DeliversAll(old(letters), letters, old(changes), DueAt(old(changes), clock))
    {
      hide DeliversAll, After, Apply, Stamped, Applied, Redirected;
      ghost var start := W(map[]);
      var due := DueAt(changes, clock);
      var todo := due;
      ListApplies(start);
      run := [] + [ListDue(0, clock)];
      StampedNone(letters, changes, clock);
      assert due - todo == {};
      while todo != {}
        invariant todo <= due && After(start, run) == W(map[0 := todo])
        invariant changes == Stamped(old(changes), due - todo, clock)
        invariant DeliversAll(old(letters), letters, old(changes), due - todo)
        decreases |todo|
      {
        var id :| id in todo;
        StampedOne(old(letters), letters, old(changes), due - todo, id, clock);
        ApplyOneApplies(W(map[0 := todo]), id);
        AfterSnoc(start, run, ApplyOne(0, id));
        run := run + [ApplyOne(0, id)];
        var applied := ApplyRecipientChange(id);
        assert due - (todo - {id}) == (due - todo) + {id};
        todo := todo - {id};
      }
      assert due - todo == due;
    }

    /** One tick applies exactly the pending changes whose hold is over. Of several for one letter
        any may come last, and that one's address stands. */
    method RecipientChangeTick() returns (ghost run: seq<Step>)
      modifies `changes, `letters
      ensures After(old(W(map[])), run) == W(map[0 := {}])
      ensures changes.Keys == old(changes).Keys && letters.Keys == old(letters).Keys
      ensures forall id :: id in changes ==>
        changes[id] == if HoldOver(old(changes)[id], clock) then old(changes)[id].(appliedAt := Some(clock))
                       else old(changes)[id]
      ensures forall l :: l in letters ==> letters[l].firedAt == old(letters)[l].firedAt
      ensures forall l :: l in letters ==>
        if exists id :: id in changes && HoldOver(old(changes)[id], clock) && changes[id].letter == l
        then exists id :: id in changes && HoldOver(old(changes)[id], clock) && changes[id].letter == l
                          && letters[l].email == changes[id].newEmail
        else letters[l] == old(letters)[l]
    {
      hide DeliversAll, After, Stamped, DueAt, HoldOver;
      run := ApplyDue();
      TickMeans(old(letters), letters, old(changes), clock);
    }
  }

  /** Pending, and its hold over. */
  predicate HoldOver(c: Change, clock: int) {
    Undecided(c) && c.effectiveAt <= clock
  }

  lemma TickMeans(letters: map<nat, Letter>, letters1: map<nat, Letter>, changes: map<nat, Change>, clock: int)
    requires DeliversAll(letters, letters1, changes, DueAt(changes, clock))
    ensures var changes1 := Stamped(changes, DueAt(changes, clock), clock);
      && changes1.Keys == changes.Keys && letters1.Keys == letters.Keys
      && (forall id :: id in changes ==>
            changes1[id] == if HoldOver(changes[id], clock) then changes[id].(appliedAt := Some(clock))
                            else changes[id])
      && (forall l :: l in letters ==> letters1[l].firedAt == letters[l].firedAt)
      && (forall l :: l in letters ==>
            if exists id :: id in changes1 && HoldOver(changes[id], clock) && changes1[id].letter == l
            then exists id :: id in changes1 && HoldOver(changes[id], clock) && changes1[id].letter == l
                              && letters1[l].email == changes1[id].newEmail
            else letters1[l] == letters[l])
  {
    assert forall id :: id in DueAt(changes, clock) <==> id in changes && HoldOver(changes[id], clock);
    hide DueAt;
    forall l | l in letters
      ensures Delivers(letters[l], letters1[l], changes, DueAt(changes, clock), l)
    {}
  }

  /** Every letter ends with the address of one of the changes `done` to it, if any. */
  ghost predicate DeliversAll(letters: map<nat, Letter>, letters1: map<nat, Letter>,
                              changes: map<nat, Change>, done: set<nat>)
  {
    letters1.Keys == letters.Keys
    && forall l :: l in letters ==> Delivers(letters[l], letters1[l], changes, done, l)
  }

  lemma StampedNone(letters: map<nat, Letter>, changes: map<nat, Change>, clock: int)
    ensures Stamped(changes, {}, clock) == changes && DeliversAll(letters, letters, changes, {})
  {
    hide Delivers;
    forall l | l in letters
      ensures Delivers(letters[l], letters[l], changes, {}, l)
    {
      DeliversNone(letters[l], changes, l);
    }
  }

  /** One more pending change applied. */
  lemma StampedOne(letters: map<nat, Letter>, letters1: map<nat, Letter>, changes: map<nat, Change>,
                   done: set<nat>, id: nat, clock: int)
    requires id in changes && Pending(changes[id]) && id !in done && DeliversAll(letters, letters1, changes, done)
    ensures Applied(clock, Stamped(changes, done, clock), id) == Stamped(changes, done + {id}, clock)
    ensures DeliversAll(letters, Redirected(letters1, Stamped(changes, done, clock), id), changes, done + {id})
  {
    hide Delivers;
    var letters2 := Redirected(letters1, Stamped(changes, done, clock), id);
    forall l | l in letters
      ensures Delivers(letters[l], letters2[l], changes, done + {id}, l)
    {
      DeliversMore(letters[l], letters1[l], letters2[l], changes, done, id, l);
    }
  }

  lemma AfterSnoc(w: World, run: seq<Step>, s: Step)
    ensures After(w, run + [s]) == Apply(After(w, run), s)
  {
    hide Apply;
    assert (run + [s])[..|run|] == run;
  }

  lemma ListApplies(w: World)
    requires w.agents == map[]
    ensures After(w, [] + [ListDue(0, w.clock)]) == w.(agents := map[0 := DueAt(w.changes, w.clock)])
  {
    AfterSnoc(w, [], ListDue(0, w.clock));
  }

  lemma ApplyOneApplies(w: World, id: nat)
    requires w.agents.Keys == {0} && id in w.agents[0]
    ensures Apply(w, ApplyOne(0, id)) == World(w.clock, Redirected(w.letters, w.changes, id),
                                              Applied(w.clock, w.changes, id), map[0 := w.agents[0] - {id}])
  {}

  function Stamped(changes: map<nat, Change>, ids: set<nat>, clock: int): map<nat, Change> {
    map id | id in changes :: if id in ids then changes[id].(appliedAt := Some(clock)) else changes[id]
  }

  lemma DeliversNone(l: Letter, changes: map<nat, Change>, letter: nat)
    ensures Delivers(l, l, changes, {}, letter)
  {}

  lemma DeliversMore(first: Letter, l: Letter, l1: Letter, changes: map<nat, Change>, done: set<nat>,
                     id: nat, letter: nat)
    requires Delivers(first, l, changes, done, letter) && id in changes
    requires l1 == if changes[id].letter == letter then l.(email := changes[id].newEmail) else l
    ensures Delivers(first, l1, changes, done + {id}, letter)
  {
    if changes[id].letter == letter {
      assert id in done + {id};
    } else if exists k :: k in done && k in changes && changes[k].letter == letter {
      var k :| k in done && k in changes && changes[k].letter == letter && l.email == changes[k].newEmail;
      assert k in done + {id};
    }
  }

  /** From `l` to `l1` the address is that of one of the changes `done` to the letter, if any. */
  ghost predicate Delivers(l: Letter, l1: Letter, changes: map<nat, Change>, done: set<nat>, letter: nat) {
    && l1.firedAt == l.firedAt
    && (if exists id :: id in done && id in changes && changes[id].letter == letter
        then exists id ::
               id in done && id in changes && changes[id].letter == letter && l1.email == changes[id].newEmail
        else l1 == l)
  }
}
