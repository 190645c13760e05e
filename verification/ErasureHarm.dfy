/**
 What `HarmlessStep` means outside the invariant. A seal whose check is long past inserts a letter or
 a file: that does harm exactly if the worker, with no help from anybody, can report the principal
 erased while the late row is still there.
 */
module ErasureHarm {
  import opened Domain
  import opened Erasure
  import opened ErasureLaws

  /** A row inserted by an interrupted seal. */
  datatype Late = LateFile(id: nat, letter: nat) | LateLetter(id: nat, content: Letter)

  predicate Inserts(w: World, s: Step) {
    match s
    case Attach(l) => l in w.d.letters
    case InsertLetter(content) => content.vault in w.d.vaults && content != Blanked(content)
    case _ => false
  }

  function LateRow(w: World, s: Step): Late
    requires Inserts(w, s)
  {
    if s.Attach? then LateFile(w.next, s.letter) else LateLetter(w.next, s.content)
  }

  function LetterOf(late: Late): nat {
    if late.LateFile? then late.letter else late.id
  }

  /** The row is still there, with what was put into it. */
  predicate There(d: Data, late: Late) {
    match late
    case LateFile(a, l) => a in d.attachments && d.attachments[a] == l
    case LateLetter(l, content) => l in d.letters && d.letters[l] == content
  }

  /** The promise counts as kept, for this letter: the subscription is DELETED, or the account is
      anonymised and had the letter when the sweep took it. */
  predicate ReportedErased(w: World, l: nat, g: Promise) {
    match g.sweep
    case Retention => SubIn(w.subs, g.principal, Deleted)
    case AccountDeletion =>
      g.principal in w.accounts && w.accounts[g.principal].erasedUpTo.Some?
      && l < w.accounts[g.principal].erasedUpTo.value
  }

  predicate OnlyWorker(run: seq<Step>) {
    forall i :: 0 <= i < |run| ==> WorkerStep(run[i])
  }

  /** The worker can come to report the promise kept with the row still there. */
  ghost predicate CanSurvive(w: World, late: Late, g: Promise) {
    exists run: seq<Step> :: Survives(w, late, run, g)
  }

  ghost predicate Survives(w: World, late: Late, run: seq<Step>, g: Promise) {
    var w1 := After(w, run);
    && OnlyWorker(run) && Owns(w1.d, g.principal, LetterOf(late)) && There(w1.d, late)
    && ReportedErased(w1, LetterOf(late), g)
  }

  // ---- A harmless row is found ----

  lemma ThereIsNotErased(d: Data, late: Late)
    requires There(d, late) && (late.LateLetter? ==> late.content != Blanked(late.content))
    requires LetterOf(late) in d.letters
    ensures !Erased(d, LetterOf(late))
  {}

  lemma ReportedIsErased(w: World, l: nat, g: Promise)
    requires Inv(w, g) && Owns(w.d, g.principal, l) && ReportedErased(w, l, g)
    ensures Erased(w.d, l)
  {
    hide JobsGood, IdsGood, Erased;
    if g.sweep == Retention {
      assert FullyErased(w.d, g.principal);
    } else {
      var bound := w.accounts[g.principal].erasedUpTo.value;
      assert AnonymisedUpTo(w.accounts, g.principal, bound);
      assert ErasedBelow(w.d, g.principal, bound);
    }
  }

  lemma InvIsFound(w: World, late: Late, g: Promise)
    requires Inv(w, g) && (late.LateLetter? ==> late.content != Blanked(late.content))
    ensures !CanSurvive(w, late, g)
  {
    assert IdsGood(w.d, w.next);
    hide Inv, IdsGood, After, Careful, There, Erased, ReportedErased;
    forall run: seq<Step>
      ensures !Survives(w, late, run, g)
    {
      if OnlyWorker(run) && Owns(After(w, run).d, g.principal, LetterOf(late)) && There(After(w, run).d, late)
         && ReportedErased(After(w, run), LetterOf(late), g) {
        WholeSealsAreCareful(w, run, g);
        RunKeepsInv(w, run, g);
        ReportedIsErased(After(w, run), LetterOf(late), g);
        ThereIsNotErased(After(w, run).d, late);
        assert false;
      }
    }
  }

  // ---- A harmful row is missed ----

  /** The walk is past the letter, and does not hold the row. */
  predicate Missed(w: World, late: Late) {
    && Walk(w) && There(w.d, late) && LetterOf(late) in w.d.letters
    && !StillAhead(w.d, w.worker.job.value.stage, LetterOf(late))
    && var hand := w.worker.job.value.stage.hand;
       hand.Some? ==> if late.LateFile? then late.id !in hand.value.attachments else late.id != hand.value.letter
  }

  /** Nothing but the walk and the rows it purges. */
  predicate SameBut(w: World, w': World) {
    && Walk(w) && Walk(w') && w'.subs == w.subs && w'.accounts == w.accounts && w'.d.vaults == w.d.vaults
    && w'.next == w.next && w'.worker.kind == w.worker.kind
    && w'.worker.job.value.principal == w.worker.job.value.principal
    && w'.worker.job.value.born == w.worker.job.value.born
    && (forall l :: l in w.d.letters ==> l in w'.d.letters && w'.d.letters[l].vault == w.d.letters[l].vault)
  }

  /** The walk's next step, whichever rows it takes first. */
  predicate NextStep(w: World, s: Step)
    requires Walk(w)
  {
    var st := w.worker.job.value.stage;
    if st.hand.Some? then
      if st.hand.value.attachments == {} then s == PurgeLetter
      else s.PurgeAttachment? && s.attachment in st.hand.value.attachments
    else if st.letters != {} then s.PickLetter? && s.letter in st.letters
    else s.PickVault? && s.vault in st.vaults
  }

  lemma MissedStep(w: World, s: Step, late: Late)
    requires Missed(w, late) && NextStep(w, s)
    ensures Missed(Apply(w, s), late) && SameBut(w, Apply(w, s))
  {
    if s.PickVault? {
      PickVaultMisses(w, s.vault, late);
    } else if s.PickLetter? {
      PickLetterMisses(w, s.letter, late);
    } else {
      hide VaultsOf, LettersOf, AttachmentsOf;
    }
  }

  lemma PickVaultMisses(w: World, v: nat, late: Late)
    requires Missed(w, late) && NextStep(w, PickVault(v))
    ensures Missed(PickVaultStep(w, v), late) && SameBut(w, PickVaultStep(w, v))
  {}

  lemma PickLetterMisses(w: World, l: nat, late: Late)
    requires Missed(w, late) && NextStep(w, PickLetter(l))
    ensures Missed(PickLetterStep(w, l), late) && SameBut(w, PickLetterStep(w, l))
  {}

  lemma SameButTrans(w: World, w1: World, w2: World)
    requires SameBut(w, w1) && SameBut(w1, w2)
    ensures SameBut(w, w2)
  {}

  lemma AfterCons(w: World, s: Step, run: seq<Step>)
    ensures After(w, [s] + run) == After(Apply(w, s), run)
  {
    AfterSplit(w, [s] + run, 1);
    assert ([s] + run)[..1] == [s] && ([s] + run)[1..] == run;
    OneStep(w, s);
    hide Apply, After;
  }

  lemma OneStep(w: World, s: Step)
    ensures After(w, [s]) == Apply(w, s)
  {
    hide Apply;
    assert [s][..0] == [];
    assert After(w, []) == w;
  }

  function Left(w: World): (nat, nat, nat, nat)
    requires Walk(w)
  {
    var st := w.worker.job.value.stage;
    (|st.vaults|, |st.letters|, if st.hand.Some? then 1 else 0,
     if st.hand.Some? then |st.hand.value.attachments| else 0)
  }

  predicate Smaller(a: (nat, nat, nat, nat), b: (nat, nat, nat, nat)) {
    || a.0 < b.0
    || (a.0 == b.0 && a.1 < b.1)
    || (a.0 == b.0 && a.1 == b.1 && a.2 < b.2)
    || (a.0 == b.0 && a.1 == b.1 && a.2 == b.2 && a.3 < b.3)
  }

  lemma StepShrinks(w: World, s: Step)
    requires Walk(w) && NextStep(w, s)
    ensures Walk(Apply(w, s)) && Smaller(Left(Apply(w, s)), Left(w))
  {
    if s.PickVault? {
      PickVaultShrinks(w, s.vault);
    } else if s.PickLetter? {
      PickLetterShrinks(w, s.letter);
    } else {
      PurgeShrinks(w, s);
    }
  }

  lemma PickVaultShrinks(w: World, v: nat)
    requires Walk(w) && NextStep(w, PickVault(v))
    ensures var w1 := PickVaultStep(w, v); Walk(w1) && Left(w1).0 < Left(w).0
  {
    hide LettersOf;
  }

  lemma PickLetterShrinks(w: World, l: nat)
    requires Walk(w) && NextStep(w, PickLetter(l))
    ensures var w1 := PickLetterStep(w, l); Walk(w1) && Left(w1).0 == Left(w).0 && Left(w1).1 < Left(w).1
  {
    hide AttachmentsOf;
  }

  lemma PurgeShrinks(w: World, s: Step)
    requires Walk(w) && NextStep(w, s) && (s.PurgeAttachment? || s.PurgeLetter?)
    ensures var w1 := Apply(w, s);
      && Walk(w1) && Left(w1).0 == Left(w).0 && Left(w1).1 == Left(w).1
      && (Left(w1).2 < Left(w).2 || (Left(w1).2 == Left(w).2 && Left(w1).3 < Left(w).3))
  {
    hide WithBlanked;
  }

  /** The walk comes to its end, and the row is still there. */
  lemma WalkEnds(w: World, late: Late) returns (run: seq<Step>)
    requires Missed(w, late)
    ensures OnlyWorker(run)
    ensures var w1 := After(w, run);
      Missed(w1, late) && SameBut(w, w1) && w1.worker.job.value.stage == Walking({}, {}, None)
    decreases Left(w).0, Left(w).1, Left(w).2, Left(w).3
  {
    assert Walk(w);
    hide Apply, Missed, SameBut, Walk, Left, NextStep;
    var st := w.worker.job.value.stage;
    if st == Walking({}, {}, None) {
      run := [];
    } else {
      var s := ChooseNext(w);
      MissedStep(w, s, late);
      StepShrinks(w, s);
      var rest := WalkEnds(Apply(w, s), late);
      run := [s] + rest;
      AfterCons(w, s, rest);
      SameButTrans(w, Apply(w, s), After(w, run));
    }
  }

  lemma ChooseNext(w: World) returns (s: Step)
    requires Walk(w) && w.worker.job.value.stage != Walking({}, {}, None)
    ensures NextStep(w, s) && WorkerStep(s)
  {
    var st := w.worker.job.value.stage;
    if st.hand.Some? {
      if st.hand.value.attachments == {} {
        s := PurgeLetter;
      } else {
        var a :| a in st.hand.value.attachments;
        s := PurgeAttachment(a);
      }
    } else if st.letters != {} {
      var l :| l in st.letters;
      s := PickLetter(l);
    } else {
      var v :| v in st.vaults;
      s := PickVault(v);
    }
  }

  /** With that the promise is reported kept. */
  lemma DoneReports(w: World, late: Late, g: Promise)
    requires Missed(w, late) && w.worker.job.value.stage == Walking({}, {}, None) && LetterOf(late) < Reach(w, g)
    requires w.worker.kind == AccountDeletion ==> w.worker.job.value.principal in w.accounts
    ensures var w1 := Apply(w, Done);
      ReportedErased(w1, LetterOf(late), g) && w1.d == w.d
  {}

  lemma MissedSurvives(w: World, late: Late, g: Promise)
    requires Missed(w, late) && Owns(w.d, g.principal, LetterOf(late)) && LetterOf(late) < Reach(w, g)
    requires w.worker.kind == AccountDeletion ==> g.principal in w.accounts
    ensures CanSurvive(w, late, g)
  {
    var run := WalkEnds(w, late);
    var w1 := After(w, run);
    assert Owns(w1.d, g.principal, LetterOf(late)) && Reach(w1, g) == Reach(w, g);
    DoneReports(w1, late, g);
    Snoc(w, run, Done, Apply(w1, Done));
    assert There(w1.d, late);
    hide After, Apply, Missed, There, ReportedErased;
    assert OnlyWorker(run + [Done]);
    assert Survives(w, late, run + [Done], g);
  }

  lemma ReportedSurvives(w: World, late: Late, g: Promise)
    requires There(w.d, late) && Owns(w.d, g.principal, LetterOf(late)) && ReportedErased(w, LetterOf(late), g)
    ensures CanSurvive(w, late, g)
  {
    assert After(w, []) == w;
    assert Survives(w, late, [], g);
  }

  // ---- Exactly when ----

  lemma LateFileSurvivesIf(w: World, l: nat, g: Promise)
    requires Inv(w, g) && l in w.d.letters && !AttachHarmless(w, l, g)
    ensures CanSurvive(AttachStep(w, l), LateFile(w.next, l), g)
  {
    var w1, late := AttachStep(w, l), LateFile(w.next, l);
    assert There(w1.d, late) && Owns(w1.d, g.principal, l);
    if ReportedErased(w, l, g) {
      ReportedSurvives(w1, late, g);
    } else {
      FileMissed(w, l, g);
      MissedSurvives(w1, late, g);
    }
  }

  lemma FileMissed(w: World, l: nat, g: Promise)
    requires Inv(w, g) && l in w.d.letters
    requires Working(w) && l < Reach(w, g) && !StillAhead(w.d, w.worker.job.value.stage, l)
    ensures Missed(AttachStep(w, l), LateFile(w.next, l)) && l < Reach(AttachStep(w, l), g)
  {
    hide DeletedErased, AnonymisedErased, Coverage;
    var hand := w.worker.job.value.stage.hand;
    assert hand.Some? && w.next in hand.value.attachments ==>
        AttachmentInScope(w.d, w.next, hand.value.letter, w.next);
  }

  lemma LateLetterSurvivesIf(w: World, content: Letter, g: Promise)
    requires Inv(w, g) && content.vault in w.d.vaults && content != Blanked(content) && !InsertHarmless(w, content, g)
    ensures CanSurvive(InsertStep(w, content), LateLetter(w.next, content), g)
  {
    var w1, late := InsertStep(w, content), LateLetter(w.next, content);
    assert There(w1.d, late) && Owns(w1.d, g.principal, w.next);
    if SubIn(w.subs, g.principal, Deleted) {
      ReportedSurvives(w1, late, g);
    } else {
      LetterMissed(w, content, g);
      MissedSurvives(w1, late, g);
    }
  }

  lemma LetterMissed(w: World, content: Letter, g: Promise)
    requires Inv(w, g) && content.vault in w.d.vaults
    requires g == Promise(w.d.vaults[content.vault], Retention) && PurgesExpired(w, g.principal)
    requires var s := w.worker.job.value.stage; !s.Fresh? && content.vault !in s.vaults
    ensures Missed(InsertStep(w, content), LateLetter(w.next, content)) && w.next < Reach(InsertStep(w, content), g)
  {
    hide DeletedErased, AnonymisedErased, Coverage;
    var j := w.worker.job.value;
    assert w.next in j.stage.letters ==> LetterInScope(w.d, w.next, j.principal, w.next);
    assert j.stage.hand.Some? ==> LetterInScope(w.d, w.next, j.principal, j.stage.hand.value.letter);
  }

  /** Where the invariant holds, an interrupted seal's insert does harm exactly if it is not harmless. */
  lemma SurvivesIff(w: World, s: Step, g: Promise)
    requires Inv(w, g) && Inserts(w, s)
    ensures CanSurvive(Apply(w, s), LateRow(w, s), g) <==> !HarmlessStep(w, s, g)
  {
    assert IdsGood(w.d, w.next);
    hide Inv, CanSurvive, InsertHarmless, AttachHarmless, IdsGood;
    if HarmlessStep(w, s, g) {
      StepKeepsInv(w, s, g);
      hide Apply;
      InvIsFound(Apply(w, s), LateRow(w, s), g);
    } else if s.Attach? {
      LateFileSurvivesIf(w, s.letter, g);
    } else {
      LateLetterSurvivesIf(w, s.content, g);
    }
  }

  /** In any run without an insert so far that harms the promise of one sweep to one principal: a letter
      or file of the principal's inserted now by an interrupted seal can outlive that sweep, by steps of
      the worker alone, if and only if the step is not harmless. */
  lemma LateInsertHarmsIff(w: World, run: seq<Step>, s: Step, g: Promise)
    requires Start(w) && Careful(w, run, g) && Inserts(After(w, run), s)
    ensures IdsGood(After(w, run).d, After(w, run).next)
    ensures CanSurvive(Apply(After(w, run), s), LateRow(After(w, run), s), g) <==> !HarmlessStep(After(w, run), s, g)
  {
    StartInv(w, g);
    RunKeepsInv(w, run, g);
    assert IdsGood(After(w, run).d, After(w, run).next);
    hide Inv, After, Apply, CanSurvive, HarmlessStep, Careful;
    SurvivesIff(After(w, run), s, g);
  }
}
