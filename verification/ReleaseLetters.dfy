/**
 What the principal wrote is what the release works with: a letter goes out as last written, with the
 files it was sealed with, and a vault cools off for the period last set. In any run at statement level.
 */
module ReleaseLetters {
  import opened Domain
  import opened ReleaseModel
  import opened Deliveries

  /** Every file belongs to a letter. */
  predicate FilesOwned(w: World) {
    forall a: nat :: a < |w.attachments| ==> w.attachments[a].letter < |w.letters|
  }

  predicate Edits(s: Step, l: nat) {
    s.EditLetter? && s.l == l
  }

  /** Of all steps only an edit changes what a letter says, and no step its vault or its files. */
  lemma LetterStep(w: World, s: Step, l: nat)
    requires l < |w.letters| && FilesOwned(w)
    ensures var w' := Apply(w, s);
      && l < |w'.letters| && FilesOwned(w')
      && w'.letters[l].vault == w.letters[l].vault
      && (if Edits(s, l) then w'.letters[l].mode == s.mode && w'.letters[l].recipient == s.recipient
          else w'.letters[l].mode == w.letters[l].mode && w'.letters[l].recipient == w.letters[l].recipient)
      && SameFiles(w, w', l)
  {
    hide BeginStep, CancelStep, AggregateStep, DuressEnterStep, ClaimStep, PerformStep, PerformWriteStep;
    hide MarkCancelled, DueTickets, InsertEventStep, LetterClaims;
    if !Writing(s) {
      OthersKeep(w, s);
    }
  }

  predicate SameFiles(w: World, w': World, l: nat) {
    && w.attachments <= w'.attachments
    && forall a: nat :: |w.attachments| <= a < |w'.attachments| ==> w'.attachments[a].letter != l
  }

  /** Vault states, events, claims, duress and work may change; what the principal wrote does not. */
  predicate WritingKept(w: World, w': World) {
    && w'.letters == w.letters && w'.attachments == w.attachments && w'.clock == w.clock
    && |w'.vaults| == |w.vaults|
    && forall v :: 0 <= v < |w.vaults| ==> w'.vaults[v].coolingOffSeconds == w.vaults[v].coolingOffSeconds
  }

  lemma SetStateKeeps(w: World, v: nat, s: VaultState, releasedAt: Option<int>)
    ensures WritingKept(w, SetState(w, v, s, releasedAt))
  {}

  lemma EntryKeeps(w: World, v: nat, from: VaultState, completes: bool)
    ensures WritingKept(w, EnterDurably(w, v, from, completes))
  {}

  lemma BeginKeeps(w: World, v: nat, drill: bool, cool: int, completes: bool)
    ensures WritingKept(w, BeginStep(w, v, drill, cool, completes))
  {}

  lemma CancelKeeps(w: World, v: nat, observed: VaultState, closes: bool)
    ensures WritingKept(w, CancelStep(w, v, observed, closes))
  {
    hide SetState, NewestOpen;
    SetStateKeeps(w, v, Active, None);
  }

  lemma ClaimKeeps(w: World, t: Ticket)
    ensures WritingKept(w, ClaimStep(w, t))
  {
    hide SetState;
    SetStateKeeps(w.(tickets := w.tickets - multiset{t}), t.vault, Releasing, None);
  }

  lemma CloseKeeps(w: World, t: Ticket, stop: Stop)
    ensures WritingKept(w, CloseStep(w, t, stop))
  {
    hide SetState;
    var w1 := SetState(w, t.vault, Released, Some(w.clock));
    SetStateKeeps(w, t.vault, Released, Some(w.clock));
    SetStateKeeps(MarkReleased(w1, t.event), t.vault, Active, None);
  }

  lemma PerformKeeps(w: World, t: Ticket, stop: Stop)
    ensures WritingKept(w, PerformStep(w, t, stop))
  {
    hide CloseStep, Delivery, Prefix;
    CloseKeeps(w.(performing := w.performing - multiset{t},
                  claims := w.claims + Delivery(w, t.event, t.vault, |w.letters|)), t, stop);
  }

  lemma PartKeeps(w: World, t: Ticket, part: Part)
    ensures WritingKept(w, PerformWriteStep(w, t, part))
  {
    hide SetState;
    SetStateKeeps(w, t.vault, Released, Some(w.clock));
    SetStateKeeps(w, t.vault, Active, None);
  }

  lemma AggregateKeeps(w: World, v: nat, observed: VaultState, frozen: bool, x: Evidence, completes: bool)
    ensures WritingKept(w, AggregateStep(w, v, observed, frozen, x, completes))
  {
    hide SetState, EnterDurably, Verdict;
    EntryKeeps(w, v, observed, completes);
    SetStateKeeps(w, v, Verdict(observed, x), None);
  }

  predicate Writing(s: Step) {
    s.SealLetter? || s.EditLetter? || s.ReleaseEventLetter? || s.EditVault? || s.Advance?
  }

  lemma OthersKeep(w: World, s: Step)
    requires !Writing(s)
    ensures WritingKept(w, Apply(w, s))
  {
    hide BeginStep, CancelStep, AggregateStep, DuressEnterStep, ClaimStep, PerformStep, PerformWriteStep;
    hide DueTickets, WritingKept;
    match s
    case Begin(v, drill, cool, completes) => BeginKeeps(w, v, drill, cool, completes);
    case Cancel(v, observed, closes) => CancelKeeps(w, v, observed, closes);
    case Aggregate(v, observed, frozen, x, completes) => AggregateKeeps(w, v, observed, frozen, x, completes);
    case DuressEnter(v, observed, completes) => DuressKeeps(w, v, observed, completes);
    case Claim(t) => ClaimKeeps(w, t);
    case Perform(t, stop) => PerformKeeps(w, t, stop);
    case PerformWrite(t, part) => PartKeeps(w, t, part);
    case _ => RestKeeps(w, s);
  }

  lemma DuressKeeps(w: World, v: nat, observed: VaultState, completes: bool)
    ensures WritingKept(w, DuressEnterStep(w, v, observed, completes))
  {
    hide EnterDurably;
    EntryKeeps(w, v, observed, completes);
  }

  lemma RestKeeps(w: World, s: Step)
    requires !Writing(s) && !s.Begin? && !s.Cancel? && !s.Aggregate? && !s.DuressEnter? && !s.Claim?
    requires !s.Perform? && !s.PerformWrite?
    ensures WritingKept(w, Apply(w, s))
  {
    hide DueTickets;
  }

  /** The files of a letter, as it was sealed. */
  predicate HasFiles(w: World, l: nat, first: nat, n: nat) {
    forall a: nat :: a < |w.attachments| ==> (w.attachments[a].letter == l <==> first <= a < first + n)
  }

  predicate Reads(w: World, l: nat, v: nat, mode: ReleaseMode, to: string) {
    l < |w.letters| && w.letters[l].vault == v && w.letters[l].mode == mode && w.letters[l].recipient == to
  }

  lemma {:induction false} OwnedThroughout(w: World, run: seq<Step>, j: nat)
    requires j <= |run| && FilesOwned(w)
    ensures FilesOwned(At(w, run, j))
  {
    hide Apply, FilesOwned;
    if j > 0 {
      OwnedThroughout(w, run, j - 1);
      OwnedStep(At(w, run, j - 1), run[j - 1]);
    }
  }

  lemma OwnedStep(w: World, s: Step)
    requires FilesOwned(w)
    ensures FilesOwned(Apply(w, s))
  {
    if w.letters != [] {
      LetterStep(w, s, 0);
    } else if !Writing(s) {
      OthersKeep(w, s);
    }
  }

  /** What a letter says, and its files, stay as they are until it is edited. */
  lemma {:induction false} StaysWritten(w: World, run: seq<Step>, i: nat, j: nat, l: nat, v: nat, mode: ReleaseMode,
        to: string, first: nat, n: nat)
    requires i <= j <= |run| && FilesOwned(w)
    requires Reads(At(w, run, i), l, v, mode, to) && HasFiles(At(w, run, i), l, first, n)
    requires first + n <= |At(w, run, i).attachments|
    requires forall k :: i <= k < j ==> !Edits(run[k], l)
    ensures Reads(At(w, run, j), l, v, mode, to) && HasFiles(At(w, run, j), l, first, n)
    ensures first + n <= |At(w, run, j).attachments|
  {
    hide Apply, FilesOwned;
    if i < j {
      StaysWritten(w, run, i, j - 1, l, v, mode, to, first, n);
      OwnedThroughout(w, run, j - 1);
      LetterStep(At(w, run, j - 1), run[j - 1], l);
    }
  }

  lemma SealWrites(w: World, v: nat, mode: ReleaseMode, to: string, n: nat)
    requires FilesOwned(w) && InState(w, v, Active)
    ensures var w1 := Apply(w, SealLetter(v, mode, to, n));
      && Reads(w1, |w.letters|, v, mode, to) && HasFiles(w1, |w.letters|, |w.attachments|, n)
      && |w1.attachments| == |w.attachments| + n
  {}

  /** What is sealed while the vault is ACTIVE goes out when the vault is released, if its mode fires on a
      signal: one claim for the letter, one for each of its files, to the address it was sealed with. */
  lemma SealedIsDelivered(w: World, run: seq<Step>, i: nat, j: nat, v: nat, mode: ReleaseMode, to: string, n: nat,
                          t: Ticket, stop: Stop)
    requires FilesOwned(w) && i < j < |run|
    requires run[i] == SealLetter(v, mode, to, n) && InState(At(w, run, i), v, Active)
    requires run[j] == Perform(t, stop) && t in At(w, run, j).performing && t.vault == v && !stop.DeliveryFails?
    requires forall k :: i < k < j ==> !Edits(run[k], |At(w, run, i).letters|)
    ensures var w0, u, u1 := At(w, run, i), At(w, run, j), At(w, run, j + 1);
      var sent := if mode == SignalOrScheduled || mode == SignalOnly then 1 else 0;
      && u.claims <= u1.claims
      && multiset(u1.claims[|u.claims|..])[ClaimRow(t.event, LetterOf(|w0.letters|), to, u.clock)] == sent
      && (forall a: nat :: |w0.attachments| <= a < |w0.attachments| + n ==>
            multiset(u1.claims[|u.claims|..])[ClaimRow(t.event, AttachmentOf(a), to, u.clock)] == sent)
  {
    hide Apply, FilesOwned;
    var w0, u := At(w, run, i), At(w, run, j);
    OwnedThroughout(w, run, i);
    SealWrites(w0, v, mode, to, n);
    NextWorld(w, run, i);
    NextWorld(w, run, j);
    StaysWritten(w, run, i + 1, j, |w0.letters|, v, mode, to, |w0.attachments|, n);
    DeliveredAsWritten(u, t, stop, |w0.letters|, mode, to, |w0.attachments|, n);
  }

  lemma DeliveredAsWritten(u: World, t: Ticket, stop: Stop, l: nat, mode: ReleaseMode, to: string, first: nat, n: nat)
    requires t in u.performing && !stop.DeliveryFails?
    requires Reads(u, l, t.vault, mode, to) && HasFiles(u, l, first, n) && first + n <= |u.attachments|
    ensures var claims := Apply(u, Perform(t, stop)).claims;
      var sent := if mode == SignalOrScheduled || mode == SignalOnly then 1 else 0;
      && u.claims <= claims
      && multiset(claims[|u.claims|..])[ClaimRow(t.event, LetterOf(l), to, u.clock)] == sent
      && (forall a: nat :: first <= a < first + n ==>
            multiset(claims[|u.claims|..])[ClaimRow(t.event, AttachmentOf(a), to, u.clock)] == sent)
  {
    hide Apply, PerformStep, IssuesByMode, Reads, HasFiles;
    ReleaseIssues(u, t, stop);
    ApplyPerform(u, t, stop);
    IssuedAsWritten(u, t.event, t.vault, PerformStep(u, t, stop).claims[|u.claims|..], l, mode, to, first, n);
  }

  lemma IssuedAsWritten(u: World, e: nat, v: nat, rows: seq<ClaimRow>, l: nat, mode: ReleaseMode, to: string,
                        first: nat, n: nat)
    requires Reads(u, l, v, mode, to) && HasFiles(u, l, first, n) && first + n <= |u.attachments|
    requires IssuesByMode(u, e, v, rows)
    ensures var sent := if mode == SignalOrScheduled || mode == SignalOnly then 1 else 0;
      && multiset(rows)[ClaimRow(e, LetterOf(l), to, u.clock)] == sent
      && (forall a: nat :: first <= a < first + n ==> multiset(rows)[ClaimRow(e, AttachmentOf(a), to, u.clock)] == sent)
  {
    assert Sends(u, v, l) <==> mode == SignalOrScheduled || mode == SignalOnly;
    forall a: nat | first <= a < first + n
      ensures u.attachments[a].letter == l
    {}
  }

  /** And after an edit, as edited: the letter is as if sealed so. */
  lemma EditedIsDelivered(w: World, run: seq<Step>, i: nat, j: nat, l: nat, mode: ReleaseMode, to: string,
                          t: Ticket, stop: Stop)
    requires FilesOwned(w) && i < j < |run| && run[i] == EditLetter(l, mode, to) && l < |At(w, run, i).letters|
    requires run[j] == Perform(t, stop) && t in At(w, run, j).performing && !stop.DeliveryFails?
    requires t.vault == At(w, run, i).letters[l].vault && forall k :: i < k < j ==> !Edits(run[k], l)
    ensures var u, u1 := At(w, run, j), At(w, run, j + 1);
      && u.claims <= u1.claims
      && multiset(u1.claims[|u.claims|..])[ClaimRow(t.event, LetterOf(l), to, u.clock)]
         == if mode == SignalOrScheduled || mode == SignalOnly then 1 else 0
  {
    hide Apply, FilesOwned;
    var u := At(w, run, j);
    OwnedThroughout(w, run, i);
    LetterStep(At(w, run, i), run[i], l);
    NextWorld(w, run, i);
    NextWorld(w, run, j);
    StillReads(w, run, i + 1, j, l, t.vault, mode, to);
    ReleaseIssues(u, t, stop);
    hide PerformStep;
    assert Apply(u, run[j]) == PerformStep(u, t, stop) by { ApplyPerform(u, t, stop); }
    assert Sends(u, t.vault, l) <==> mode == SignalOrScheduled || mode == SignalOnly;
  }

  lemma ApplyPerform(u: World, t: Ticket, stop: Stop)
    ensures Apply(u, Perform(t, stop)) == PerformStep(u, t, stop)
  {}

  lemma {:induction false} StillReads(w: World, run: seq<Step>, i: nat, j: nat, l: nat, v: nat, mode: ReleaseMode,
        to: string)
    requires i <= j <= |run| && FilesOwned(w) && Reads(At(w, run, i), l, v, mode, to)
    requires forall k :: i <= k < j ==> !Edits(run[k], l)
    ensures Reads(At(w, run, j), l, v, mode, to)
  {
    hide Apply, FilesOwned;
    if i < j {
      StillReads(w, run, i, j - 1, l, v, mode, to);
      OwnedThroughout(w, run, j - 1);
      LetterStep(At(w, run, j - 1), run[j - 1], l);
    }
  }

  // ---- The period ----

  predicate Sets(s: Step, v: nat) {
    s.EditVault? && s.v == v
  }

  /** Of all steps only an edit of the vault changes the period it cools off for. */
  lemma PeriodStep(w: World, s: Step, v: nat)
    requires v < |w.vaults|
    ensures var w' := Apply(w, s);
      v < |w'.vaults|
      && w'.vaults[v].coolingOffSeconds == if Sets(s, v) then s.coolingOffSeconds else w.vaults[v].coolingOffSeconds
  {
    if !Writing(s) {
      OthersKeep(w, s);
      hide Apply;
    } else {
      hide LetterClaims;
    }
  }

  lemma {:induction false} PeriodStays(w: World, run: seq<Step>, i: nat, j: nat, v: nat)
    requires i <= j <= |run| && v < |At(w, run, i).vaults| && forall k :: i <= k < j ==> !Sets(run[k], v)
    ensures v < |At(w, run, j).vaults|
    ensures At(w, run, j).vaults[v].coolingOffSeconds == At(w, run, i).vaults[v].coolingOffSeconds
  {
    hide Apply;
    if i < j {
      PeriodStays(w, run, i, j - 1, v);
      PeriodStep(At(w, run, j - 1), run[j - 1], v);
    }
  }

  /** An entry by the aggregator or the duress webhook lasts as long as was last set. */
  lemma PeriodAsSet(w: World, run: seq<Step>, i: nat, j: nat, v: nat, seconds: int)
    requires i < j < |run| && run[i] == EditVault(v, seconds) && v < |At(w, run, i).vaults|
    requires forall k :: i < k < j ==> !Sets(run[k], v)
    requires (run[j].Aggregate? || run[j].DuressEnter?) && run[j].v == v && run[j].completes
    requires !InState(At(w, run, j), v, CoolingOff) && InState(At(w, run, j + 1), v, CoolingOff)
    ensures var u := At(w, run, j);
      At(w, run, j + 1).events
      == u.events + [EventRow(v, false, Some(u.clock + seconds), u.clock, None, None)]
  {
    hide Apply;
    PeriodStep(At(w, run, i), run[i], v);
    NextWorld(w, run, i);
    NextWorld(w, run, j);
    PeriodStays(w, run, i + 1, j, v);
    EntryRecords(At(w, run, j), run[j], v);
  }

  lemma EntryRecords(u: World, s: Step, v: nat)
    requires (s.Aggregate? || s.DuressEnter?) && s.v == v && s.completes && v < |u.vaults|
    requires !InState(u, v, CoolingOff) && InState(Apply(u, s), v, CoolingOff)
    ensures Apply(u, s).events
            == u.events + [EventRow(v, false, Some(u.clock + u.vaults[v].coolingOffSeconds), u.clock, None, None)]
  {
    hide Verdict;
  }
}
