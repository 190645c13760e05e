/**
 The other side of erasure: what no sweep may touch. A letter that its author leaves alone stays, content
 and files, for as long as neither its principal's retention nor a deletion request has run out. Then who
 changes which rows, of all steps.
 */
module ErasureKeeps {
  import opened Domain
  import opened Erasure
  import opened ErasureLaws
  import opened ErasureTimes

  /** The retention of a cancelled subscription is over, or the thirty days of a deletion request are. */
  predicate ErasureDue(w: World, p: nat) {
    || (p in w.subs && w.subs[p].state == Canceled
        && w.subs[p].retentionUntil.Some? && w.subs[p].retentionUntil.value <= w.clock)
    || (p in w.accounts && w.accounts[p].scheduledFor.Some? && w.accounts[p].scheduledFor.value <= w.clock)
  }

  /** Neither on the worker's list nor at hand. */
  predicate Unlisted(w: World, p: nat) {
    w.worker.Sweep? ==> p !in w.worker.due && (w.worker.job.Some? ==> w.worker.job.value.principal != p)
  }

  lemma UnlistedStep(w: World, s: Step, p: nat)
    requires Unlisted(w, p) && !ErasureDue(w, p)
    ensures Unlisted(Apply(w, s), p)
  {
    hide VaultsOf, LettersOf, AttachmentsOf, WithFiles;
  }

  lemma {:induction false} NeverListed(w: World, run: seq<Step>, p: nat, j: nat)
    requires Start(w) && j <= |run| && forall m :: 0 <= m < j ==> !ErasureDue(After(w, run[..m]), p)
    ensures Unlisted(After(w, run[..j]), p)
  {
    if j == 0 {
      assert run[..0] == [];
    } else {
      NextWorld(w, run, j - 1);
      hide Apply, After, ErasureDue, Unlisted;
      NeverListed(w, run, p, j - 1);
      UnlistedStep(After(w, run[..j - 1]), run[j - 1], p);
    }
  }

  /** The letter is as it was, and so are its files; it may have more of them. */
  ghost predicate Intact(d: Data, d1: Data, p: nat, l: nat)
    requires l in d.letters
  {
    && Owns(d1, p, l) && d1.letters[l] == d.letters[l]
    && forall a :: a in d.attachments && d.attachments[a] == l ==> a in d1.attachments && d1.attachments[a] == l
  }

  lemma AuthorsLeave(w: World, s: Step, p: nat, l: nat)
    requires Ordered(w) && !WorkerStep(s) && s != DeleteLetter(l) && Owns(w.d, p, l)
    ensures Intact(w.d, Apply(w, s).d, p, l)
  {
    if s.Seal? {
      WhoSeals(w, s.content, s.files);
      hide Apply;
    } else if !s.CreateVault? && !s.InsertLetter? && !s.Attach? && !s.DeleteLetter? {
      SameData(w, s);
    }
  }

  lemma WorkerLeaves(w: World, s: Step, p: nat, l: nat)
    requires Ordered(w) && WorkerStep(s) && Unlisted(w, p) && Owns(w.d, p, l)
    ensures Intact(w.d, Apply(w, s).d, p, l)
  {
    hide Ordered;
    WorkerLeavesOthers(w, s, p, l);
    WorkerLeavesVaults(w, s);
    hide Apply;
  }

  lemma WorkerLeavesVaults(w: World, s: Step)
    requires WorkerStep(s)
    ensures Apply(w, s).d.vaults == w.d.vaults
  {
    hide VaultsOf, LettersOf, AttachmentsOf, PastRetention, DueDeletions;
  }

  /** In any run, whatever else is cancelled, erased, inserted late or cut short: while nothing is due of
      its principal, a letter keeps its content and its files until its author deletes it. */
  lemma {:induction false} KeptUntilDue(w: World, run: seq<Step>, i: nat, j: nat, p: nat, l: nat)
    requires Start(w) && i <= j <= |run| && Owns(After(w, run[..i]).d, p, l)
    requires forall m :: 0 <= m < j ==> !ErasureDue(After(w, run[..m]), p)
    requires forall m :: i <= m < j ==> run[m] != DeleteLetter(l)
    ensures Intact(After(w, run[..i]).d, After(w, run[..j]).d, p, l)
  {
    hide After, Apply, ErasureDue, Unlisted, Ordered, WorkerStep, Start;
    if i < j {
      var u := After(w, run[..j - 1]);
      KeptUntilDue(w, run, i, j - 1, p, l);
      NextWorld(w, run, j - 1);
      NeverListed(w, run, p, j - 1);
      StartOrdered(w);
      RunKeepsOrdered(w, run[..j - 1]);
      if WorkerStep(run[j - 1]) {
        WorkerLeaves(u, run[j - 1], p, l);
      } else {
        AuthorsLeave(u, run[j - 1], p, l);
      }
    }
  }

  // ---- Nobody is left out ----

  predicate Listed(w: World, kind: Kind, p: nat) {
    w.worker.Sweep? && w.worker.kind == kind && p in w.worker.due
  }

  predicate AtHand(w: World, kind: Kind, p: nat) {
    w.worker.Sweep? && w.worker.kind == kind && w.worker.job.Some? && w.worker.job.value.principal == p
  }

  /** The purge of this principal has nothing left to do. */
  predicate Through(w: World, kind: Kind, p: nat) {
    AtHand(w, kind, p) && w.worker.job.value.stage == Walking({}, {}, None)
  }

  /** Whoever is on the list stays there until taken, and is then at hand; whoever is at hand stays so until
      the purge is through. Only a crash comes between, and a walk never starts over. */
  lemma WorkerStepOrder(w: World, s: Step, kind: Kind, p: nat)
    ensures var w1 := Apply(w, s);
      && (Listed(w, kind, p) && s != Crash && !Listed(w1, kind, p) ==> Takes(w, s, kind, p) && AtHand(w1, kind, p))
      && (AtHand(w, kind, p) && s != Crash && !AtHand(w1, kind, p) ==> s == Done && Through(w, kind, p))
      && (AtHand(w, kind, p) && AtHand(w1, kind, p) && w.worker.job.value.stage.Walking? ==>
            w1.worker.job.value.stage.Walking? && w1.worker.job.value.stage.vaults <= w.worker.job.value.stage.vaults)
  {
    hide LettersOf, AttachmentsOf, PastRetention, DueDeletions, WithFiles;
  }

  /** In any run without a crash, whoever a sweep has listed is still listed, or being purged, or has been
      purged to the end. */
  lemma {:induction false} NobodySkipped(w: World, run: seq<Step>, i: nat, j: nat, kind: Kind, p: nat)
    requires i <= j <= |run| && Listed(After(w, run[..i]), kind, p)
    requires forall m :: i <= m < j ==> run[m] != Crash
    ensures var u := After(w, run[..j]);
      || Listed(u, kind, p) || AtHand(u, kind, p)
      || exists m :: i <= m < j && run[m] == Done && Through(After(w, run[..m]), kind, p)
  {
    hide After, Apply, Listed, AtHand, Through, Takes;
    if i < j {
      NobodySkipped(w, run, i, j - 1, kind, p);
      NextWorld(w, run, j - 1);
      WorkerStepOrder(After(w, run[..j - 1]), run[j - 1], kind, p);
    }
  }

  // ---- Who changes which rows ----

  /** A seal that is not interrupted: one letter as given and so many files of it, if the vault is there
      and its owner's subscription is running, on trial or past due; otherwise nothing. */
  lemma WhoSeals(w: World, content: Letter, files: nat)
    ensures var w1 := Apply(w, Seal(content, files));
      if content.vault in w.d.vaults && w.d.vaults[content.vault] in w.subs
         && w.subs[w.d.vaults[content.vault]].state in {Trialing, Subscribed, PastDue}
      then
        && w1 == w.(d := w1.d, next := w.next + 1 + files)
        && w1.d == w.d.(letters := w.d.letters[w.next := content], attachments := w1.d.attachments)
        && (forall a: nat :: a in w1.d.attachments <==> a in w.d.attachments || w.next < a <= w.next + files)
        && (forall a: nat :: a in w1.d.attachments ==>
              w1.d.attachments[a] == if w.next < a <= w.next + files then w.next else w.d.attachments[a])
      else w1 == w
  {
    hide WithFiles;
    var w1 := Apply(w, Seal(content, files));
    if MaySeal(w, content.vault) {
      forall a: nat
        ensures a in w1.d.attachments <==> a in w.d.attachments || w.next < a <= w.next + files
        ensures a in w1.d.attachments ==>
          w1.d.attachments[a] == if w.next < a <= w.next + files then w.next else w.d.attachments[a]
      {
        FilesShape(w.d.attachments, w.next, w.next + 1, files, a);
      }
    }
  }

  /** A subscription's row changes by these four alone, each only in the state it asks for. */
  lemma WhoChangesSubscription(w: World, s: Step, p: nat)
    requires p in w.subs
    ensures var sub := w.subs[p];
      p in Apply(w, s).subs
      && Apply(w, s).subs[p]
         == match s
            case CancelSubscription(q, days) =>
                if q == p then Subscription(Canceled, Some(w.clock + days * 86400)) else sub
            case Reactivate(q) => if q == p && sub.state == Canceled then Subscription(Subscribed, None) else sub
            case Take(q) => if Takes(w, s, Retention, p) && sub.state == Canceled then sub.(state := Expired) else sub
            case Done => if Through(w, Retention, p) && sub.state == Expired then sub.(state := Deleted) else sub
            case _ => sub
  {
    hide VaultsOf, LettersOf, AttachmentsOf, PastRetention, DueDeletions, WithFiles;
  }

  /** An account's row by these three: the first request sets the clock, a cancel in time clears it, the end
      of its purge clears it and remembers how far the purge reached. */
  lemma WhoChangesAccount(w: World, s: Step, p: nat)
    requires p in w.accounts
    ensures var a := w.accounts[p];
      p in Apply(w, s).accounts
      && Apply(w, s).accounts[p]
         == match s
            case RequestDeletion(q) =>
              if q != p then a
              else Account(Some(if a.requestedAt.Some? then a.requestedAt.value else w.clock),
                           Some(if a.scheduledFor.Some? then a.scheduledFor.value else w.clock + 2592000), a.erasedUpTo)
            case CancelDeletion(q) =>
              if q == p && a.scheduledFor.Some? && w.clock < a.scheduledFor.value then Account(None, None, a.erasedUpTo)
              else a
            case Done =>
              if Through(w, AccountDeletion, p) then Account(None, None, Some(w.worker.job.value.born)) else a
            case _ => a
  {
    hide VaultsOf, LettersOf, AttachmentsOf, PastRetention, DueDeletions, WithFiles;
  }

  /** A file's row goes when its letter is deleted or the worker has it at hand, and in no other way. */
  lemma WhoRemovesFile(w: World, s: Step, a: nat)
    requires IdsGood(w.d, w.next) && a in w.d.attachments
    ensures a !in Apply(w, s).d.attachments
            <==> s == DeleteLetter(w.d.attachments[a])
                 || (s == PurgeAttachment(a) && Walk(w) && w.worker.job.value.stage.hand.Some?
                     && a in w.worker.job.value.stage.hand.value.attachments)
    ensures a in Apply(w, s).d.attachments ==> Apply(w, s).d.attachments[a] == w.d.attachments[a]
  {
    if s.Seal? {
      WhoSeals(w, s.content, s.files);
      hide Apply, IdsGood;
    } else if s.Attach? || s.DeleteLetter? || s.PurgeAttachment? {
      assert a < w.next;
      hide IdsGood;
    } else {
      hide IdsGood;
      SameFileRows(w, s);
      hide Apply;
    }
  }

  lemma SameFileRows(w: World, s: Step)
    requires !s.Seal? && !s.Attach? && !s.DeleteLetter? && !s.PurgeAttachment?
    ensures Apply(w, s).d.attachments == w.d.attachments
  {
    hide VaultsOf, LettersOf, AttachmentsOf, PastRetention, DueDeletions;
  }

  lemma SameLetterRows(w: World, s: Step)
    requires !s.Seal? && !s.InsertLetter? && !s.DeleteLetter? && !s.PurgeLetter?
    ensures Apply(w, s).d.letters == w.d.letters
  {
    hide VaultsOf, LettersOf, AttachmentsOf, PastRetention, DueDeletions;
  }

  /** A letter's row goes only when deleted, and is written only once the worker has it at hand with no
      files left. */
  lemma WhoWritesLetter(w: World, s: Step, l: nat)
    requires IdsGood(w.d, w.next) && l in w.d.letters
    ensures l !in Apply(w, s).d.letters <==> s == DeleteLetter(l)
    ensures l in Apply(w, s).d.letters ==>
      Apply(w, s).d.letters[l]
      == if s == PurgeLetter && Walk(w) && w.worker.job.value.stage.hand == Some(Hand(l, {}))
         then Letter(w.d.letters[l].vault, [], [], [], []) else w.d.letters[l]
  {
    if s.Seal? {
      WhoSeals(w, s.content, s.files);
      hide Apply, IdsGood;
    } else if s.InsertLetter? || s.DeleteLetter? || s.PurgeLetter? {
      assert l < w.next;
      hide IdsGood;
    } else {
      hide IdsGood;
      SameLetterRows(w, s);
      hide Apply;
    }
  }
}
