/**
 What the erasure sweeps guarantee over whole runs, and where they do not.
 */
module ErasureLaws {
  import opened Domain
  import opened Erasure

  /** A database in which no sweep has finished yet, and the worker asleep. */
  ghost predicate Start(w: World)
    ensures Start(w) ==> IdsGood(w.d, w.next)
  {
    && w.worker.Asleep? && IdsGood(w.d, w.next)
    && (forall p :: p in w.subs ==> w.subs[p].state != Deleted)
    && (forall p :: p in w.accounts ==> w.accounts[p].erasedUpTo.None?)
  }

  lemma StartInv(w: World, g: Promise)
    requires Start(w)
    ensures Inv(w, g)
  {}

  lemma StartOrdered(w: World)
    requires Start(w)
    ensures Ordered(w)
  {}

  // ---- Ids and rows, over any run ----

  /** From `d` to `d1` rows below `bound` neither appear nor move, and letters are only ever blanked. */
  ghost predicate RowsKept(d: Data, d1: Data, bound: nat) {
    && (forall v :: v in d.vaults ==> v in d1.vaults && d1.vaults[v] == d.vaults[v])
    && (forall l :: l in d1.letters && l < bound ==>
          l in d.letters && (d1.letters[l] == d.letters[l] || d1.letters[l] == Blanked(d.letters[l])))
  }

  lemma StepKeepsRows(w: World, s: Step)
    requires IdsGood(w.d, w.next)
    ensures var w1 := Apply(w, s); IdsGood(w1.d, w1.next) && w.next <= w1.next && RowsKept(w.d, w1.d, w.next)
  {
    if s.Seal? {
      SealShape(w, s.content, s.files);
      hide IdsGood;
    } else if s.DeleteLetter? {
      DeleteKeepsRows(w, s.letter);
    } else if s.PurgeAttachment? || s.PurgeLetter? {
      PurgeKeepsRows(w, s);
    } else if s.CreateVault? || s.InsertLetter? || s.Attach? {
      InsertKeepsRows(w, s);
    } else {
      hide Apply;
      SameData(w, s);
    }
  }

  lemma DeleteKeepsRows(w: World, l: nat)
    requires IdsGood(w.d, w.next)
    ensures var w1 := Apply(w, DeleteLetter(l)); IdsGood(w1.d, w1.next) && RowsKept(w.d, w1.d, w.next)
  {}

  lemma PurgeKeepsRows(w: World, s: Step)
    requires IdsGood(w.d, w.next) && (s.PurgeAttachment? || s.PurgeLetter?)
    ensures var w1 := Apply(w, s); w1.next == w.next && IdsGood(w1.d, w1.next) && RowsKept(w.d, w1.d, w.next)
  {
    hide IdsGood;
    LessKept(w.d, w.next, Apply(w, s).d);
  }

  lemma InsertKeepsRows(w: World, s: Step)
    requires IdsGood(w.d, w.next) && (s.CreateVault? || s.InsertLetter? || s.Attach?)
    ensures var w1 := Apply(w, s); w.next <= w1.next && IdsGood(w1.d, w1.next) && RowsKept(w.d, w1.d, w.next)
  {
    hide VaultsOf, LettersOf, AttachmentsOf, PastRetention, DueDeletions;
  }

  lemma SameData(w: World, s: Step)
    requires !s.CreateVault? && !s.Seal? && !s.InsertLetter? && !s.Attach? && !s.DeleteLetter?
    requires !s.PurgeAttachment? && !s.PurgeLetter?
    ensures Apply(w, s).d == w.d && Apply(w, s).next == w.next
  {
    hide VaultsOf, LettersOf, AttachmentsOf, PastRetention, DueDeletions;
  }

  lemma {:induction false} RunKeepsRows(w: World, run: seq<Step>)
    requires IdsGood(w.d, w.next)
    ensures var w1 := After(w, run); IdsGood(w1.d, w1.next) && w.next <= w1.next && RowsKept(w.d, w1.d, w.next)
  {
    if run != [] {
      hide IdsGood, Apply, RowsKept;
      var init, s := run[..|run| - 1], run[|run| - 1];
      RunKeepsRows(w, init);
      StepKeepsRows(After(w, init), s);
      RowsTrans(w.d, After(w, init).d, After(w, run).d, w.next, After(w, init).next);
    }
  }

  lemma RowsTrans(d: Data, d1: Data, d2: Data, bound: nat, bound1: nat)
    requires RowsKept(d, d1, bound) && RowsKept(d1, d2, bound1) && bound <= bound1
    ensures RowsKept(d, d2, bound)
  {}

  lemma OwnerStays(w: World, run: seq<Step>, p: nat, l: nat)
    requires IdsGood(w.d, w.next) && Owns(w.d, p, l) && l in After(w, run).d.letters
    ensures Owns(After(w, run).d, p, l)
  {
    RunKeepsRows(w, run);
    hide After;
  }

  /** Seals that nobody interrupts are careful, whatever the promise. */
  lemma WholeSealsAreCareful(w: World, run: seq<Step>, g: Promise)
    requires IdsGood(w.d, w.next) && forall i :: 0 <= i < |run| ==> !run[i].InsertLetter? && !run[i].Attach?
    ensures Careful(w, run, g)
  {
    hide IdsGood, After;
    forall i | 0 <= i < |run|
      ensures var w1 := After(w, run[..i]); IdsGood(w1.d, w1.next) && HarmlessStep(w1, run[i], g)
    {
      RunKeepsRows(w, run[..i]);
    }
  }

  // ---- Subscription erasure ----

  /** A subscription is DELETED only when every letter of the principal has empty main and drill
      ciphertext and no attachment row is left, however authoring interleaved with the purge, unless
      an interrupted seal of that principal's inserted a letter or file where the retention purge no
      longer came. */
  lemma DeletedMeansErased(w: World, run: seq<Step>, p: nat, l: nat)
    requires Start(w) && Careful(w, run, Promise(p, Retention))
    requires var w1 := After(w, run); p in w1.subs && w1.subs[p].state == Deleted && Owns(w1.d, p, l)
    ensures var d := After(w, run).d;
      d.letters[l].ciphertext == [] && d.letters[l].drillCiphertext == [] && l !in d.attachments.Values
  {
    StartInv(w, Promise(p, Retention));
    RunKeepsInv(w, run, Promise(p, Retention));
    assert SubIn(After(w, run).subs, p, Deleted);
    assert FullyErased(After(w, run).d, p);
    hide Inv, After;
  }

  predicate WorkerStep(s: Step) {
    s.Wake? || s.Take? || s.ListVaults? || s.PickVault? || s.PickLetter? || s.PurgeAttachment? || s.PurgeLetter?
    || s.Done? || s.NextSweep? || s.Crash?
  }

  lemma WorkerLeavesOthers(w: World, s: Step, q: nat, l: nat)
    requires Ordered(w) && WorkerStep(s) && Owns(w.d, q, l)
    requires Working(w) ==> w.worker.job.value.principal != q
    ensures var d1 := Apply(w, s).d;
      && l in d1.letters && d1.letters[l] == w.d.letters[l]
      && forall a :: (a in d1.attachments && d1.attachments[a] == l)
                     <==> (a in w.d.attachments && w.d.attachments[a] == l)
  {
    hide IdsGood, VaultsOf, LettersOf, AttachmentsOf;
    if Walk(w) {
      HandBelongs(w);
    }
    hide Ordered;
    if s.PurgeAttachment? {
    } else if s.PurgeLetter? {
    } else {
      hide Apply;
      SameData(w, s);
    }
  }

  /** In any run, harmful inserts included, the worker touches no data but that of the principal it is
      at. */
  lemma OthersUntouched(w: World, run: seq<Step>, s: Step, q: nat, l: nat)
    requires Start(w) && WorkerStep(s) && Owns(After(w, run).d, q, l)
    requires var u := After(w, run); Working(u) ==> u.worker.job.value.principal != q
    ensures var d, d1 := After(w, run).d, Apply(After(w, run), s).d;
      && l in d1.letters && d1.letters[l] == d.letters[l]
      && forall a :: (a in d1.attachments && d1.attachments[a] == l) <==> (a in d.attachments && d.attachments[a] == l)
  {
    StartOrdered(w);
    RunKeepsOrdered(w, run);
    hide After, Apply, Ordered, WorkerStep;
    WorkerLeavesOthers(After(w, run), s, q, l);
  }

  lemma HandBelongs(w: World)
    requires Ordered(w) && Walk(w)
    ensures var j := w.worker.job.value;
      j.stage.hand.Some? ==>
        && (j.stage.hand.value.letter in w.d.letters ==> Owns(w.d, j.principal, j.stage.hand.value.letter))
        && forall a :: a in j.stage.hand.value.attachments && a in w.d.attachments ==>
             w.d.attachments[a] == j.stage.hand.value.letter
  {
    hide IdsGood;
    var j := w.worker.job.value;
    if j.stage.hand.Some? {
      forall a | a in j.stage.hand.value.attachments && a in w.d.attachments
        ensures w.d.attachments[a] == j.stage.hand.value.letter
      {
        assert AttachmentInScope(w.d, w.next, j.stage.hand.value.letter, a);
      }
    }
  }

  // ---- The retention race ----

  /** No reactivation slips between the listing and the expiry, and no cancellation is repeated
      on an expired subscription. */
  predicate Undisturbed(w: World, s: Step) {
    match s
    case Take(p) => w.worker.Sweep? && w.worker.kind == Retention ==> p in w.subs && w.subs[p].state == Canceled
    case CancelSubscription(p, _) => p in w.subs ==> w.subs[p].state != Expired
    case _ => true
  }

  predicate UndisturbedRun(w: World, run: seq<Step>) {
    forall i :: 0 <= i < |run| ==> Undisturbed(After(w, run[..i]), run[i])
  }

  predicate PurgingExpired(w: World) {
    Working(w) && w.worker.kind == Retention ==>
      w.worker.job.value.principal in w.subs && w.subs[w.worker.job.value.principal].state == Expired
  }

  lemma PurgingExpiredStep(w: World, s: Step)
    requires PurgingExpired(w) && Undisturbed(w, s)
    ensures PurgingExpired(Apply(w, s))
  {}

  /** In undisturbed runs the retention sweep purges only principals whose subscription is EXPIRED. */
  lemma {:induction false} RetentionPurgesExpired(w: World, run: seq<Step>)
    requires w.worker.Asleep? && UndisturbedRun(w, run)
    ensures PurgingExpired(After(w, run))
  {
    hide Apply, PurgingExpired, Undisturbed;
    if run != [] {
      var init := run[..|run| - 1];
      assert forall i :: 0 <= i < |init| ==> run[..i] == init[..i];
      RetentionPurgesExpired(w, init);
      PurgingExpiredStep(After(w, init), run[|run| - 1]);
    } else {
      assert PurgingExpired(w) by { AsleepPurgesNobody(w); }
    }
  }

  lemma AsleepPurgesNobody(w: World)
    requires w.worker.Asleep?
    ensures PurgingExpired(w)
  {}

  /** The guard of `expire_subscription` decides: after the sweep takes `p`, its purge is that of an
      EXPIRED subscription exactly when it was still CANCELED (or EXPIRED from an earlier crash). */
  lemma TakeExpiresIff(w: World, p: nat)
    requires w.worker.Sweep? && w.worker.kind == Retention && w.worker.job.None? && p in w.worker.due
    ensures PurgingExpired(Apply(w, Take(p)))
            <==> p in w.subs && (w.subs[p].state == Canceled || w.subs[p].state == Expired)
  {}

  function Sample(worker: Worker, subState: SubscriptionState, letter: Letter, attachments: map<nat, nat>): World {
    World(100, if attachments == map[] then 2 else 3,
          map[7 := Subscription(subState, if subState == Subscribed then None else Some(50))],
          map[7 := Account(None, None, None)],
          Data(map[0 := 7], map[1 := letter], attachments), worker)
  }

  function Walker(due: set<nat>, stage: Stage): Worker {
    Sweep(Retention, due, Some(Job(7, 2, stage)))
  }

  lemma Snoc(w: World, run: seq<Step>, s: Step, w1: World)
    requires Apply(After(w, run), s) == w1
    ensures After(w, run + [s]) == w1
  {
    hide Apply;
    assert (run + [s])[..|run + [s]| - 1] == run;
  }

  const WRITTEN := Letter(0, [1], [2], [], [])
  const BLANK := Letter(0, [], [], [], [])

  lemma ListSample(st: SubscriptionState)
    ensures Apply(Sample(Walker({}, Fresh), st, WRITTEN, map[]), ListVaults)
            == Sample(Walker({}, Walking({0}, {}, None)), st, WRITTEN, map[])
  {
    assert VaultsOf(Sample(Asleep, st, WRITTEN, map[]).d, 7) == {0};
  }

  lemma PickVaultSample(st: SubscriptionState)
    ensures Apply(Sample(Walker({}, Walking({0}, {}, None)), st, WRITTEN, map[]), PickVault(0))
            == Sample(Walker({}, Walking({}, {1}, None)), st, WRITTEN, map[])
  {
    assert LettersOf(Sample(Asleep, st, WRITTEN, map[]).d, 0) == {1} && {0} - {0} == {};
  }

  lemma PickLetterSample(st: SubscriptionState)
    ensures Apply(Sample(Walker({}, Walking({}, {1}, None)), st, WRITTEN, map[]), PickLetter(1))
            == Sample(Walker({}, Walking({}, {}, Some(Hand(1, {})))), st, WRITTEN, map[])
  {
    assert AttachmentsOf(Sample(Asleep, st, WRITTEN, map[]).d, 1) == {} && {1} - {1} == {};
  }

  lemma PurgeLetterSample(st: SubscriptionState)
    ensures Apply(Sample(Walker({}, Walking({}, {}, Some(Hand(1, {})))), st, WRITTEN, map[]), PurgeLetter)
            == Sample(Walker({}, Walking({}, {}, None)), st, BLANK, map[])
  {
    assert map[1 := WRITTEN][1 := BLANK] == map[1 := BLANK];
  }

  lemma PurgeOfSample(w: World, run: seq<Step>, st: SubscriptionState)
    requires After(w, run) == Sample(Walker({}, Fresh), st, WRITTEN, map[])
    ensures After(w, run + [ListVaults, PickVault(0), PickLetter(1), PurgeLetter])
            == Sample(Walker({}, Walking({}, {}, None)), st, BLANK, map[])
  {
    ListSample(st);
    PickVaultSample(st);
    PickLetterSample(st);
    PurgeLetterSample(st);
    hide After, Apply, Sample;
    Snoc(w, run, ListVaults, Sample(Walker({}, Walking({0}, {}, None)), st, WRITTEN, map[]));
    var run1 := run + [ListVaults];
    Snoc(w, run1, PickVault(0), Sample(Walker({}, Walking({}, {1}, None)), st, WRITTEN, map[]));
    var run2 := run1 + [PickVault(0)];
    Snoc(w, run2, PickLetter(1), Sample(Walker({}, Walking({}, {}, Some(Hand(1, {})))), st, WRITTEN, map[]));
    var run3 := run2 + [PickLetter(1)];
    Snoc(w, run3, PurgeLetter, Sample(Walker({}, Walking({}, {}, None)), st, BLANK, map[]));
    assert run + [ListVaults, PickVault(0), PickLetter(1), PurgeLetter] == run3 + [PurgeLetter];
  }

  lemma WakeSample()
    ensures Apply(Sample(Asleep, Canceled, WRITTEN, map[]), Wake)
            == Sample(Sweep(Retention, {7}, None), Canceled, WRITTEN, map[])
  {
    var w := Sample(Asleep, Canceled, WRITTEN, map[]);
    assert PastRetention(w.subs, w.clock) == {7};
  }

  lemma TakeSample(st: SubscriptionState)
    ensures Apply(Sample(Sweep(Retention, {7}, None), st, WRITTEN, map[]), Take(7))
            == Sample(Walker({}, Fresh), if st == Canceled then Expired else st, WRITTEN, map[])
  {
    assert {7} - {7} == {};
  }

  lemma SampleStarts()
    ensures Start(Sample(Asleep, Canceled, WRITTEN, map[]))
    ensures After(Sample(Asleep, Canceled, WRITTEN, map[]), []) == Sample(Asleep, Canceled, WRITTEN, map[])
  {}

  lemma DoneSample()
    ensures Apply(Sample(Walker({}, Walking({}, {}, None)), Expired, BLANK, map[2 := 1]), Done)
            == Sample(Sweep(Retention, {}, None), Deleted, BLANK, map[2 := 1])
  {}

  lemma ReactivateSample()
    ensures Apply(Sample(Sweep(Retention, {7}, None), Canceled, WRITTEN, map[]), Reactivate(7))
            == Sample(Sweep(Retention, {7}, None), Subscribed, WRITTEN, map[])
  {}

  lemma AttachSample()
    ensures Apply(Sample(Walker({}, Walking({}, {}, None)), Expired, BLANK, map[]), Attach(1))
            == Sample(Walker({}, Walking({}, {}, None)), Expired, BLANK, map[2 := 1])
  {
    var late: map<nat, nat> := map[2 := 1];
    assert 2 in late && late != map[];
    assert map[][2 := 1] == late;
  }

  /** A reactivation between listing and expiry is overlooked: the expiry does nothing, the purge
      goes ahead, and a subscription in good standing has lost its letters. */
  lemma ReactivatedIsErased()
    ensures var w := Sample(Asleep, Canceled, WRITTEN, map[]);
      var run := [Wake, Reactivate(7), Take(7), ListVaults, PickVault(0), PickLetter(1), PurgeLetter];
      && Start(w) && (forall g :: Careful(w, run, g))
      && After(w, run) == Sample(Walker({}, Walking({}, {}, None)), Subscribed, BLANK, map[])
  {
    SampleStarts();
    WakeSample();
    ReactivateSample();
    TakeSample(Subscribed);
    hide After, Apply, Sample, Start;
    var w := Sample(Asleep, Canceled, WRITTEN, map[]);
    Snoc(w, [], Wake, Sample(Sweep(Retention, {7}, None), Canceled, WRITTEN, map[]));
    assert [] + [Wake] == [Wake];
    Snoc(w, [Wake], Reactivate(7), Sample(Sweep(Retention, {7}, None), Subscribed, WRITTEN, map[]));
    assert [Wake] + [Reactivate(7)] == [Wake, Reactivate(7)];
    Snoc(w, [Wake, Reactivate(7)], Take(7), Sample(Walker({}, Fresh), Subscribed, WRITTEN, map[]));
    assert [Wake, Reactivate(7)] + [Take(7)] == [Wake, Reactivate(7), Take(7)];
    PurgeOfSample(w, [Wake, Reactivate(7), Take(7)], Subscribed);
    assert [Wake, Reactivate(7), Take(7)] + [ListVaults, PickVault(0), PickLetter(1), PurgeLetter]
        == [Wake, Reactivate(7), Take(7), ListVaults, PickVault(0), PickLetter(1), PurgeLetter];
    forall g
      ensures Careful(w, [Wake, Reactivate(7), Take(7), ListVaults, PickVault(0), PickLetter(1), PurgeLetter], g)
    {
      WholeSealsAreCareful(w, [Wake, Reactivate(7), Take(7), ListVaults, PickVault(0), PickLetter(1), PurgeLetter], g);
    }
  }

  /** A harmful insert: a file added by a seal that passed its check before the expiry, after the purge
      has been through its letter, survives, and the subscription is DELETED with an attachment left. */
  lemma LateFileSurvives()
    ensures var w := Sample(Asleep, Canceled, WRITTEN, map[]);
      var run := [Wake, Take(7), ListVaults, PickVault(0), PickLetter(1), PurgeLetter, Attach(1), Done];
      Start(w) && After(w, run) == Sample(Sweep(Retention, {}, None), Deleted, BLANK, map[2 := 1])
  {
    SampleStarts();
    WakeSample();
    TakeSample(Canceled);
    AttachSample();
    DoneSample();
    hide After, Apply, Sample, Start;
    var w := Sample(Asleep, Canceled, WRITTEN, map[]);
    Snoc(w, [], Wake, Sample(Sweep(Retention, {7}, None), Canceled, WRITTEN, map[]));
    assert [] + [Wake] == [Wake];
    Snoc(w, [Wake], Take(7), Sample(Walker({}, Fresh), Expired, WRITTEN, map[]));
    assert [Wake] + [Take(7)] == [Wake, Take(7)];
    PurgeOfSample(w, [Wake, Take(7)], Expired);
    var run := [Wake, Take(7)] + [ListVaults, PickVault(0), PickLetter(1), PurgeLetter];
    Snoc(w, run, Attach(1), Sample(Walker({}, Walking({}, {}, None)), Expired, BLANK, map[2 := 1]));
    Snoc(w, run + [Attach(1)], Done, Sample(Sweep(Retention, {}, None), Deleted, BLANK, map[2 := 1]));
    assert run + [Attach(1)] + [Done]
        == [Wake, Take(7), ListVaults, PickVault(0), PickLetter(1), PurgeLetter, Attach(1), Done];
  }

  // ---- A crash strands the subscription ----

  predicate StuckExpired(w: World, p: nat) {
    && p in w.subs && w.subs[p].state == Expired
    && (w.worker.Sweep? && w.worker.kind == Retention ==>
          p !in w.worker.due && (w.worker.job.Some? ==> w.worker.job.value.principal != p))
  }

  lemma StuckStep(w: World, s: Step, p: nat)
    requires StuckExpired(w, p) && !(s.CancelSubscription? && s.principal == p)
    ensures StuckExpired(Apply(w, s), p)
  {}

  /** After a crash in the middle of its purge a subscription stays EXPIRED, never DELETED, unless it
      is cancelled anew: the sweep lists CANCELED subscriptions only. */
  lemma {:induction false} CrashLeavesExpired(w: World, run: seq<Step>, p: nat)
    requires Working(w) && w.worker.kind == Retention && w.worker.job.value.principal == p && PurgingExpired(w)
    requires forall i :: 0 <= i < |run| ==> !(run[i].CancelSubscription? && run[i].principal == p)
    ensures StuckExpired(After(Apply(w, Crash), run), p)
  {
    hide Apply, StuckExpired;
    if run == [] {
      assert StuckExpired(Apply(w, Crash), p) by { CrashSticks(w, p); }
    } else {
      CrashLeavesExpired(w, run[..|run| - 1], p);
      StuckStep(After(Apply(w, Crash), run[..|run| - 1]), run[|run| - 1], p);
    }
  }

  lemma CrashSticks(w: World, p: nat)
    requires p in w.subs && w.subs[p].state == Expired
    ensures StuckExpired(Apply(w, Crash), p)
  {}

  // ---- Account deletion ----

  ghost predicate WindowGood(a: Account) {
    match a.scheduledFor
    case None => a.requestedAt.None?
    case Some(t) => a.requestedAt.Some? && t == a.requestedAt.value + THIRTY_DAYS
  }

  ghost predicate WindowsGood(w: World) {
    forall p :: p in w.accounts ==> WindowGood(w.accounts[p])
  }

  ghost predicate SweptDue(w: World) {
    w.worker.Sweep? && w.worker.kind == AccountDeletion ==>
      && (forall p :: p in w.worker.due ==> DeletionDue(w, p))
      && (w.worker.job.Some? ==> w.worker.job.value.principal !in w.worker.due
                                 && DeletionDue(w, w.worker.job.value.principal))
  }

  lemma StepKeepsWindows(w: World, s: Step)
    requires WindowsGood(w) && SweptDue(w)
    ensures WindowsGood(Apply(w, s)) && SweptDue(Apply(w, s))
  {
    hide VaultsOf, LettersOf, AttachmentsOf, PastRetention, WithFiles;
  }

  lemma {:induction false} RunKeepsWindows(w: World, run: seq<Step>)
    requires WindowsGood(w) && SweptDue(w)
    ensures WindowsGood(After(w, run)) && SweptDue(After(w, run))
  {
    hide WindowsGood, SweptDue, Apply;
    if run != [] {
      RunKeepsWindows(w, run[..|run| - 1]);
      StepKeepsWindows(After(w, run[..|run| - 1]), run[|run| - 1]);
    }
  }

  /** In any run the sweep purges an account only thirty days or more after the request it holds. */
  lemma PurgedAfterThirtyDays(w: World, run: seq<Step>)
    requires w.worker.Asleep? && WindowsGood(w)
    requires var w1 := After(w, run); Working(w1) && w1.worker.kind == AccountDeletion
    ensures var w1 := After(w, run);
      var p := w1.worker.job.value.principal;
      && p in w1.accounts && w1.accounts[p].requestedAt.Some?
      && w1.accounts[p].requestedAt.value + 2592000 <= w1.clock
  {
    RunKeepsWindows(w, run);
    hide After;
    var w1 := After(w, run);
    assert WindowGood(w1.accounts[w1.worker.job.value.principal]);
  }

  function RequestOf(w: World, p: nat): Option<int> {
    if p in w.accounts then w.accounts[p].requestedAt else None
  }

  lemma RequestStepFacts(w: World, s: Step, p: nat)
    ensures var r := RequestOf(Apply(w, s), p);
      || r == None || r == RequestOf(w, p)
      || (RequestOf(w, p) == None && s == RequestDeletion(p) && r == Some(w.clock))
  {
    hide VaultsOf, LettersOf, AttachmentsOf;
  }

  /** That request is the first since the last cancellation or anonymisation: repeating it does not
      move the window. */
  lemma {:induction false} FirstRequestHolds(w: World, run: seq<Step>, p: nat, t: int) returns (k: nat)
    requires RequestOf(w, p) == None && RequestOf(After(w, run), p) == Some(t)
    ensures k < |run| && run[k] == RequestDeletion(p)
    ensures After(w, run[..k]).clock == t && RequestOf(After(w, run[..k]), p) == None
    ensures forall j :: k < j <= |run| ==> RequestOf(After(w, run[..j]), p) == Some(t)
  {
    hide Apply, RequestOf;
    var n := |run| - 1;
    if run != [] {
      assert run[..|run|] == run;
      RequestStepFacts(After(w, run[..n]), run[n], p);
      if RequestOf(After(w, run[..n]), p) == Some(t) {
        k := FirstRequestHolds(w, run[..n], p, t);
        assert forall j :: 0 <= j <= n ==> run[..n][..j] == run[..j];
      } else {
        k := n;
      }
    }
  }

  predicate AboutToAnonymise(w: World, p: nat) {
    Walk(w) && w.worker.kind == AccountDeletion && w.worker.job.value.principal == p
    && w.worker.job.value.stage == Walking({}, {}, None)
  }

  lemma DueStep(w: World, s: Step, p: nat)
    requires DeletionDue(w, p)
    ensures DeletionDue(Apply(w, s), p) || (s == Done && AboutToAnonymise(w, p))
  {
    hide VaultsOf, LettersOf, AttachmentsOf;
  }

  /** Once due, no cancellation succeeds and no crash is forgotten: the deletion stays due until the
      sweep has anonymised the account. */
  lemma {:induction false} DueUntilAnonymised(w: World, run: seq<Step>, p: nat)
    requires DeletionDue(w, p)
    requires forall i :: 0 <= i < |run| ==> !(run[i] == Done && AboutToAnonymise(After(w, run[..i]), p))
    ensures DeletionDue(After(w, run), p)
    ensures Apply(After(w, run), CancelDeletion(p)) == After(w, run)
    ensures var w1 := After(w, run);
      w1.worker == Sweep(Retention, {}, None) ==> p in Apply(w1, NextSweep).worker.due
  {
    if run != [] {
      hide Apply, DeletionDue, AboutToAnonymise;
      var init := run[..|run| - 1];
      assert forall i :: 0 <= i < |init| ==> run[..i] == init[..i];
      DueUntilAnonymised(w, init, p);
      DueStep(After(w, init), run[|run| - 1], p);
    }
    DueFacts(After(w, run), p);
  }

  lemma DueFacts(w: World, p: nat)
    requires DeletionDue(w, p)
    ensures Apply(w, CancelDeletion(p)) == w
    ensures w.worker == Sweep(Retention, {}, None) ==> p in Apply(w, NextSweep).worker.due
  {}

  // ---- What a completed account sweep has erased ----

  /** Of all steps only a file added to it gives an erased letter something to erase again. */
  lemma ErasedUnlessAttached(w: World, s: Step, l: nat)
    requires IdsGood(w.d, w.next) && l < w.next && Erased(w.d, l)
    ensures Erased(Apply(w, s).d, l) <==> !(s == Attach(l) && l in w.d.letters)
  {
    if s.Attach? {
      if s.letter in w.d.letters {
        AttachedFacts(w.d, w.next, s.letter, l);
      }
    } else if s.Seal? {
      SealShape(w, s.content, s.files);
      KeptErased(w.d, Apply(w, s).d, w.next, l);
    } else if s.DeleteLetter? || s.CreateVault? || s.InsertLetter? {
      hide IdsGood;
    } else if s.PurgeAttachment? || s.PurgeLetter? {
      hide IdsGood;
      LessKept(w.d, w.next, Apply(w, s).d);
      KeptErased(w.d, Apply(w, s).d, w.next, l);
    } else {
      SameData(w, s);
    }
  }

  lemma KeptErased(d: Data, d1: Data, next: nat, l: nat)
    requires Kept(d, d1, next) && l < next && Erased(d, l)
    ensures Erased(d1, l)
  {}

  /** Erasure is for good: over any run in which no interrupted seal adds a file to it, an erased
      letter is never written again. */
  lemma {:induction false} ErasedForGood(w: World, run: seq<Step>, l: nat)
    requires IdsGood(w.d, w.next) && l < w.next && Erased(w.d, l)
    requires forall i :: 0 <= i < |run| ==> run[i] != Attach(l)
    ensures Erased(After(w, run).d, l)
  {
    if run != [] {
      hide IdsGood, Erased, Apply, RowsKept;
      var init := run[..|run| - 1];
      ErasedForGood(w, init, l);
      RunKeepsRows(w, init);
      ErasedUnlessAttached(After(w, init), run[|run| - 1], l);
    }
  }

  predicate JobOf(w: World, kind: Kind, p: nat, born: nat) {
    Working(w) && w.worker.kind == kind
    && w.worker.job.value.principal == p && w.worker.job.value.born == born
  }

  /** The sweep is about to take the principal. */
  predicate Takes(w: World, s: Step, kind: Kind, p: nat) {
    s == Take(p) && w.worker.Sweep? && w.worker.kind == kind && w.worker.job.None? && p in w.worker.due
  }

  lemma JobOfStep(w: World, s: Step, kind: Kind, p: nat, born: nat)
    requires JobOf(Apply(w, s), kind, p, born)
    ensures JobOf(w, kind, p, born) || (Takes(w, s, kind, p) && w.next == born)
  {
    hide VaultsOf, LettersOf, AttachmentsOf, PastRetention, DueDeletions;
  }

  lemma {:induction false} JobTaken(w: World, run: seq<Step>, kind: Kind, p: nat, born: nat) returns (k: nat)
    requires w.worker.Asleep? && JobOf(After(w, run), kind, p, born)
    ensures k < |run| && Takes(After(w, run[..k]), run[k], kind, p) && After(w, run[..k]).next == born
  {
    var n := |run| - 1;
    assert run != [];
    JobOfStep(After(w, run[..n]), run[n], kind, p, born);
    hide Apply;
    if JobOf(After(w, run[..n]), kind, p, born) {
      k := JobTaken(w, run[..n], kind, p, born);
      assert run[..n][..k] == run[..k];
    } else {
      k := n;
    }
  }

  /** Whatever happened in between, but a harmful file of this principal: when the sweep is about to
      anonymise an account, every letter the account had when the sweep took it is erased or deleted. */
  lemma SweepErasesWhatItFound(w: World, run: seq<Step>, p: nat) returns (k: nat)
    requires Start(w) && Careful(w, run, Promise(p, AccountDeletion)) && AboutToAnonymise(After(w, run), p)
    ensures k < |run| && run[k] == Take(p)
    ensures forall l: nat :: Owns(After(w, run[..k]).d, p, l) ==> Erased(After(w, run).d, l)
  {
    StartInv(w, Promise(p, AccountDeletion));
    RunKeepsInv(w, run, Promise(p, AccountDeletion));
    var w1 := After(w, run);
    k := JobTaken(w, run, AccountDeletion, p, w1.worker.job.value.born);
    RunKeepsRows(w, run[..k]);
    var w0 := After(w, run[..k]);
    assert JobGood(w1.d, w1.next, w1.worker.job.value, w1.worker.job.value.born);
    hide DeletedErased, AnonymisedErased, Careful, RowsKept, ScopeGood;
    AfterSplit(w, run, k);
    hide After;
    forall l: nat | Owns(w0.d, p, l)
      ensures Erased(w1.d, l)
    {
      if l in w1.d.letters {
        OwnerStays(w0, run[k..], p, l);
        hide Erased;
        assert Owns(w1.d, p, l) && l < w1.worker.job.value.born;
      }
    }
  }

  lemma {:induction false} AfterSplit(w: World, run: seq<Step>, k: nat)
    requires k <= |run|
    ensures After(w, run) == After(After(w, run[..k]), run[k..])
  {
    if k == |run| {
      assert run[..k] == run;
    } else {
      hide Apply;
      var init := run[..|run| - 1];
      AfterSplit(w, init, k);
      assert init[..k] == run[..k] && init[k..] == run[k..][..|run[k..]| - 1];
    }
  }
}
