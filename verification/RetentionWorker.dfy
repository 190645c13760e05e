/**
 The retention worker's own code (crates/beacon-api/src/scheduler.rs:748-804), loops and all, over
 the tables it updates, with nothing else under way: what one undisturbed tick achieves, what a tick
 cut short by a failing statement leaves, and that either is a run of Erasure's steps. (Erasure has
 the interleavings.)
 */
module RetentionWorker {
  import opened Domain
  import opened Erasure
  import ErasureLaws

  // ---- The run so far ----

  datatype Trace = Trace(start: World, run: seq<Step>)

  function Now(t: Trace): World {
    After(t.start, t.run)
  }

  function Then(t: Trace, s: Step): (r: Trace)
    ensures r.start == t.start && Now(r) == Apply(Now(t), s)
  {
    ErasureLaws.Snoc(t.start, t.run, s, Apply(Now(t), s));
    t.(run := t.run + [s])
  }

  /** The sweep `at`, at work on `p`. */
  function Purging(at: Erasure.Worker, p: nat, born: nat, stage: Stage): Erasure.Worker
    requires at.Sweep?
  {
    at.(job := Some(Job(p, born, stage)))
  }

  lemma Listed(w: World, at: Erasure.Worker, p: nat, born: nat)
    requires at.Sweep? && w.worker == Purging(at, p, born, Fresh)
    ensures Apply(w, ListVaults) == w.(worker := Purging(at, p, born, Walking(VaultsOf(w.d, p), {}, None)))
  {}

  lemma VaultPicked(w: World, at: Erasure.Worker, p: nat, born: nat, vaults: set<nat>, v: nat)
    requires at.Sweep? && w.worker == Purging(at, p, born, Walking(vaults, {}, None)) && v in vaults
    ensures Apply(w, PickVault(v))
            == w.(worker := Purging(at, p, born, Walking(vaults - {v}, LettersOf(w.d, v), None)))
  {}

  lemma LetterPicked(w: World, at: Erasure.Worker, p: nat, born: nat, vaults: set<nat>, letters: set<nat>, l: nat)
    requires at.Sweep? && w.worker == Purging(at, p, born, Walking(vaults, letters, None)) && l in letters
    ensures Apply(w, PickLetter(l))
            == w.(worker := Purging(at, p, born, Walking(vaults, letters - {l}, Some(Hand(l, AttachmentsOf(w.d, l))))))
  {}

  lemma AttachmentPurged(w: World, at: Erasure.Worker, p: nat, born: nat, vaults: set<nat>, letters: set<nat>,
        hand: Hand, a: nat)
    requires at.Sweep? && w.worker == Purging(at, p, born, Walking(vaults, letters, Some(hand)))
    requires a in hand.attachments
    ensures Apply(w, PurgeAttachment(a))
            == w.(d := w.d.(attachments := w.d.attachments - {a}),
                  worker := Purging(at, p, born, Walking(vaults, letters,
                                                         Some(Hand(hand.letter, hand.attachments - {a})))))
  {}

  lemma LetterPurged(w: World, at: Erasure.Worker, p: nat, born: nat, vaults: set<nat>, letters: set<nat>, l: nat)
    requires at.Sweep? && w.worker == Purging(at, p, born, Walking(vaults, letters, Some(Hand(l, {}))))
    ensures Apply(w, Step.PurgeLetter)
            == w.(d := WithBlanked(w.d, l), worker := Purging(at, p, born, Walking(vaults, letters, None)))
  {}

  lemma Taken(w: World, kind: Kind, due: set<nat>, p: nat)
    requires w.worker == Sweep(kind, due, None) && p in due
    ensures var w1 := Apply(w, Take(p)); var now := Purging(Sweep(kind, due - {p}, None), p, w.next, Fresh);
      && (kind == AccountDeletion ==> w1 == w.(worker := now))
      && (kind == Retention && SubIn(w.subs, p, Canceled) ==>
            w1 == w.(worker := now, subs := w.subs[p := w.subs[p].(state := Expired)]))
  {}

  lemma Finished(w: World, kind: Kind, due: set<nat>, p: nat, born: nat)
    requires w.worker == Purging(Sweep(kind, due, None), p, born, Walking({}, {}, None))
    ensures var w1 := Apply(w, Done); var now := Sweep(kind, due, None);
      && (kind == AccountDeletion && p in w.accounts ==>
            w1 == w.(worker := now, accounts := w.accounts[p := Account(None, None, Some(born))]))
      && (kind == Retention && SubIn(w.subs, p, Expired) ==>
            w1 == w.(worker := now, subs := w.subs[p := w.subs[p].(state := Deleted)]))
  {}

  lemma Turned(w: World)
    ensures w.worker.Asleep? ==>
      Apply(w, Wake) == w.(worker := Sweep(Retention, PastRetention(w.subs, w.clock), None))
    ensures w.worker == Sweep(Retention, {}, None) ==>
      Apply(w, NextSweep) == w.(worker := Sweep(AccountDeletion, DueDeletions(w.accounts, w.clock), None))
    ensures w.worker == Sweep(AccountDeletion, {}, None) ==> Apply(w, NextSweep) == w.(worker := Asleep)
    ensures Apply(w, Crash) == w.(worker := Asleep)
  {}

  // ---- What a purge leaves ----

  predicate OwnedByAny(d: Data, ps: set<nat>, l: nat) {
    l in d.letters && d.letters[l].vault in d.vaults && d.vaults[d.letters[l].vault] in ps
  }

  /** Every letter of these principals blanked, every attachment of those letters gone. */
  function WithErased(d: Data, ps: set<nat>): Data {
    d.(letters := map l | l in d.letters :: if OwnedByAny(d, ps, l) then Blanked(d.letters[l]) else d.letters[l],
       attachments := map a | a in d.attachments && !OwnedByAny(d, ps, d.attachments[a]) :: d.attachments[a])
  }

  lemma ErasedInTurn(d: Data, ps: set<nat>, qs: set<nat>)
    ensures WithErased(WithErased(d, ps), qs) == WithErased(d, ps + qs)
  {
    var e := WithErased(d, ps);
    assert forall l :: OwnedByAny(e, qs, l) <==> OwnedByAny(d, qs, l);
    assert WithErased(e, qs).letters == WithErased(d, ps + qs).letters;
    assert WithErased(e, qs).attachments == WithErased(d, ps + qs).attachments;
  }

  lemma ErasedNone(d: Data)
    ensures WithErased(d, {}) == d
  {
    assert WithErased(d, {}).letters == d.letters;
    assert WithErased(d, {}).attachments == d.attachments;
  }

  /** On the way from `d` to `WithErased(d, {p})`: nothing else has changed. */
  ghost predicate Towards(d: Data, e: Data, p: nat) {
    && e.vaults == d.vaults && e.letters.Keys == d.letters.Keys
    && (forall l :: l in d.letters ==>
          e.letters[l] == d.letters[l] || (Owns(d, p, l) && e.letters[l] == Blanked(d.letters[l])))
    && (forall a :: a in e.attachments ==> a in d.attachments && e.attachments[a] == d.attachments[a])
    && (forall a :: a in d.attachments && a !in e.attachments ==> Owns(d, p, d.attachments[a]))
  }

  lemma Arrived(d: Data, e: Data, p: nat)
    requires Towards(d, e, p) && forall l: nat :: Owns(d, p, l) ==> Erased(e, l)
    requires forall a :: a in d.attachments ==> d.attachments[a] in d.letters
    ensures e == WithErased(d, {p})
  {
    assert forall l :: OwnedByAny(d, {p}, l) <==> Owns(d, p, l);
    assert e.letters == WithErased(d, {p}).letters;
    forall a | a in e.attachments
      ensures !OwnedByAny(d, {p}, d.attachments[a])
    {
      assert Owns(d, p, e.attachments[a]) ==> Erased(e, e.attachments[a]);
    }
    assert e.attachments == WithErased(d, {p}).attachments;
  }

  lemma TowardsTrans(d: Data, e: Data, f: Data, p: nat)
    requires Towards(d, e, p) && Towards(e, f, p)
    ensures Towards(d, f, p)
  {
    forall a | a in d.attachments && a !in f.attachments
      ensures Owns(d, p, d.attachments[a])
    {
      assert a in e.attachments ==> Owns(e, p, e.attachments[a]);
    }
  }

  lemma TowardsItself(d: Data, p: nat)
    ensures Towards(d, d, p)
  {}

  lemma ArrivedTowards(d: Data, ps: set<nat>, p: nat)
    ensures Towards(WithErased(d, ps), WithErased(d, ps + {p}), p)
  {
    ErasedInTurn(d, ps, {p});
    var e := WithErased(d, ps);
    assert forall l :: OwnedByAny(e, {p}, l) <==> Owns(e, p, l);
  }

  lemma VaultLettersOwned(d: Data, p: nat, v: nat)
    requires v in d.vaults && d.vaults[v] == p
    ensures forall l :: l in LettersOf(d, v) ==> Owns(d, p, l)
  {}

  lemma AttachmentsHaveLetters(d: Data, next: nat)
    requires IdsGood(d, next)
    ensures forall a :: a in d.attachments ==> d.attachments[a] in d.letters
  {}

  lemma SameVaultLetters(d: Data, e: Data, p: nat, v: nat)
    requires Towards(d, e, p)
    ensures LettersOf(e, v) == LettersOf(d, v)
  {}

  lemma TowardsOwns(d: Data, e: Data, p: nat, l: nat)
    requires Towards(d, e, p)
    ensures Owns(d, p, l) <==> Owns(e, p, l)
  {}

  function Retired(subs: map<nat, Subscription>, ps: set<nat>): map<nat, Subscription> {
    map p | p in subs :: if p in ps then subs[p].(state := Deleted) else subs[p]
  }

  function Anonymised(accounts: map<nat, Account>, ps: set<nat>, next: nat): map<nat, Account> {
    map p | p in accounts :: if p in ps then Account(None, None, Some(next)) else accounts[p]
  }

  lemma RetiredOne(subs: map<nat, Subscription>, ps: set<nat>, p: nat, st: SubscriptionState)
    requires p in subs
    ensures var now := Retired(subs, ps)[p := Retired(subs, ps)[p].(state := st)];
      now[p := now[p].(state := Deleted)] == Retired(subs, ps + {p})
  {}

  lemma AnonymisedOne(accounts: map<nat, Account>, ps: set<nat>, p: nat, next: nat)
    requires p in accounts
    ensures Anonymised(accounts, ps, next)[p := Account(None, None, Some(next))] == Anonymised(accounts, ps + {p}, next)
  {}

  lemma StillCanceled(subs: map<nat, Subscription>, clock: int, ps: set<nat>, p: nat)
    requires p in PastRetention(subs, clock) && p !in ps
    ensures p in subs && SubIn(subs, p, Canceled)
    ensures p in Retired(subs, ps) && Retired(subs, ps)[p] == subs[p]
  {}

  lemma DueHere(accounts: map<nat, Account>, clock: int, ps: set<nat>, next: nat, p: nat)
    requires p in DueDeletions(accounts, clock)
    ensures p in accounts && p in Anonymised(accounts, ps, next)
  {}

  lemma NoneDone(subs: map<nat, Subscription>, accounts: map<nat, Account>, next: nat)
    ensures Retired(subs, {}) == subs && Anonymised(accounts, {}, next) == accounts
  {}

  lemma OneAttachmentLess(d: Data, next: nat, p: nat, l: nat, a: nat)
    requires IdsGood(d, next) && Owns(d, p, l) && a in AttachmentsOf(d, l)
    ensures var e := d.(attachments := d.attachments - {a});
      && IdsGood(e, next) && Towards(d, e, p) && Owns(e, p, l) && AttachmentsOf(e, l) == AttachmentsOf(d, l) - {a}
      && forall k: nat :: Erased(d, k) ==> Erased(e, k)
  {}

  lemma NoAttachmentLeft(d: Data, next: nat, p: nat, l: nat)
    requires IdsGood(d, next) && Owns(d, p, l) && AttachmentsOf(d, l) == {}
    ensures var e := WithBlanked(d, l);
      && IdsGood(e, next) && Towards(d, e, p) && Erased(e, l)
      && forall k: nat :: Erased(d, k) ==> Erased(e, k)
  {
    assert forall a :: a in d.attachments && d.attachments[a] == l ==> a in AttachmentsOf(d, l);
  }

  // ---- What a tick owes, in the tables' own terms ----

  /** CANCELED, with a retention end that is not in the future. */
  predicate RetentionOver(subs: map<nat, Subscription>, p: nat, clock: int) {
    p in subs && subs[p].state == Canceled && subs[p].retentionUntil.Some? && subs[p].retentionUntil.value <= clock
  }

  /** With a deletion that is not scheduled for the future. */
  predicate DeletionOver(accounts: map<nat, Account>, p: nat, clock: int) {
    p in accounts && accounts[p].scheduledFor.Some? && accounts[p].scheduledFor.value <= clock
  }

  lemma ListsAreExact(subs: map<nat, Subscription>, accounts: map<nat, Account>, clock: int)
    ensures forall p :: p in PastRetention(subs, clock) <==> RetentionOver(subs, p, clock)
    ensures forall p :: p in DueDeletions(accounts, clock) <==> DeletionOver(accounts, p, clock)
  {}

  /** The principal's letters and their attachments are as they were. */
  ghost predicate KeptFor(d: Data, e: Data, p: nat) {
    && (forall l: nat :: Owns(d, p, l) ==> l in e.letters && e.letters[l] == d.letters[l])
    && (forall a :: a in d.attachments && Owns(d, p, d.attachments[a]) ==>
          a in e.attachments && e.attachments[a] == d.attachments[a])
  }

  /** Nothing is left of the principal's letters but their rows. */
  ghost predicate ErasedFor(d: Data, e: Data, p: nat) {
    && (forall l: nat :: Owns(d, p, l) ==> l in e.letters && e.letters[l] == Letter(d.letters[l].vault, [], [], [], []))
    && (forall a :: a in e.attachments ==> a in d.attachments && !Owns(d, p, d.attachments[a]))
  }

  lemma KeptOrErased(d: Data, ps: set<nat>, p: nat)
    ensures if p in ps then ErasedFor(d, WithErased(d, ps), p) else KeptFor(d, WithErased(d, ps), p)
  {
    assert forall l: nat :: Owns(d, p, l) ==> (OwnedByAny(d, ps, l) <==> p in ps);
  }

  lemma TowardsKeeps(d: Data, e: Data, q: nat, p: nat)
    requires Towards(d, e, q) && q != p
    ensures KeptFor(d, e, p)
  {}

  lemma KeptTrans(d: Data, e: Data, f: Data, p: nat)
    requires KeptFor(d, e, p) && KeptFor(e, f, p) && e.vaults == d.vaults
    ensures KeptFor(d, f, p)
  {}

  /** Whether through or cut short, a sweep over `done` and part of `last` touches nobody else. */
  lemma SweptOthers(d: Data, done: set<nat>, e: Data, last: nat, p: nat)
    requires p !in done && (e == WithErased(d, done) || (Towards(WithErased(d, done), e, last) && p != last))
    ensures KeptFor(d, e, p) && e.vaults == d.vaults
  {
    KeptOrErased(d, done, p);
    var f := WithErased(d, done);
    if e != f {
      TowardsKeeps(f, e, last, p);
      KeptTrans(d, f, e, p);
    }
  }

  /** The first sweep, and the second, whether through or not. */
  lemma SubscriptionsSwept(subs: map<nat, Subscription>, subs1: map<nat, Subscription>, d: Data, d1: Data,
                           done: set<nat>, last: nat, clock: int)
    requires forall p :: p in done ==> RetentionOver(subs, p, clock)
    requires || (d1 == WithErased(d, done) && subs1 == Retired(subs, done))
             || (&& RetentionOver(subs, last, clock) && Towards(WithErased(d, done), d1, last)
                 && (|| subs1 == Retired(subs, done)
                     || subs1 == Retired(subs, done)[last := subs[last].(state := Expired)]))
    ensures subs1.Keys == subs.Keys && d1.vaults == d.vaults
    ensures forall p :: p in subs && !RetentionOver(subs, p, clock) ==> subs1[p] == subs[p]
    ensures forall p :: !RetentionOver(subs, p, clock) ==> KeptFor(d, d1, p)
  {
    hide RetentionOver, Towards, WithErased, KeptFor;
    assert last in subs || (d1 == WithErased(d, done) && subs1 == Retired(subs, done)) by {
      assert RetentionOver(subs, last, clock) ==> last in subs by { OverIsThere(subs, last, clock); }
    }
    SweptVaults(d, done, d1, last);
    forall p | !RetentionOver(subs, p, clock)
      ensures KeptFor(d, d1, p)
    {
      SweptOthers(d, done, d1, last, p);
    }
  }

  lemma OverIsThere(subs: map<nat, Subscription>, p: nat, clock: int)
    ensures RetentionOver(subs, p, clock) ==> p in subs
  {}

  lemma SweptVaults(d: Data, done: set<nat>, e: Data, last: nat)
    requires e == WithErased(d, done) || Towards(WithErased(d, done), e, last)
    ensures e.vaults == d.vaults
  {}

  lemma DeletionsSwept(accounts: map<nat, Account>, accounts1: map<nat, Account>, d: Data, d1: Data,
                       done: set<nat>, last: nat, next: nat, clock: int)
    requires accounts1 == Anonymised(accounts, done, next) && forall p :: p in done ==> DeletionOver(accounts, p, clock)
    requires d1 == WithErased(d, done)
             || (DeletionOver(accounts, last, clock) && Towards(WithErased(d, done), d1, last))
    ensures accounts1.Keys == accounts.Keys && d1.vaults == d.vaults
    ensures forall p :: p in accounts && !DeletionOver(accounts, p, clock) ==> accounts1[p] == accounts[p]
    ensures forall p :: !DeletionOver(accounts, p, clock) ==> KeptFor(d, d1, p)
  {
    hide DeletionOver, Towards, WithErased, KeptFor;
    SweptVaults(d, done, d1, last);
    forall p | !DeletionOver(accounts, p, clock)
      ensures KeptFor(d, d1, p)
    {
      SweptOthers(d, done, d1, last, p);
    }
  }

  lemma KeptThrough(d: Data, d1: Data, d2: Data, subs: map<nat, Subscription>, accounts: map<nat, Account>, clock: int)
    requires forall p :: !RetentionOver(subs, p, clock) ==> KeptFor(d, d1, p)
    requires forall p :: !DeletionOver(accounts, p, clock) ==> KeptFor(d1, d2, p)
    requires d1.vaults == d.vaults
    ensures forall p :: !RetentionOver(subs, p, clock) && !DeletionOver(accounts, p, clock) ==> KeptFor(d, d2, p)
  {
    hide RetentionOver, DeletionOver, KeptFor;
    forall p | !RetentionOver(subs, p, clock) && !DeletionOver(accounts, p, clock)
      ensures KeptFor(d, d2, p)
    {
      KeptTrans(d, d1, d2, p);
    }
  }

  lemma KeptItself(d: Data)
    ensures forall p :: KeptFor(d, d, p)
  {}

  /** A tick that went through. */
  lemma TickMeans(d: Data, subs: map<nat, Subscription>, accounts: map<nat, Account>, next: nat, clock: int)
    ensures forall p :: RetentionOver(subs, p, clock) || DeletionOver(accounts, p, clock) ==>
      ErasedFor(d, WithErased(d, PastRetention(subs, clock) + DueDeletions(accounts, clock)), p)
    ensures forall p :: RetentionOver(subs, p, clock) ==>
      p in Retired(subs, PastRetention(subs, clock))
      && Retired(subs, PastRetention(subs, clock))[p] == Subscription(Deleted, subs[p].retentionUntil)
    ensures forall p :: DeletionOver(accounts, p, clock) ==>
      p in Anonymised(accounts, DueDeletions(accounts, clock), next)
      && Anonymised(accounts, DueDeletions(accounts, clock), next)[p] == Account(None, None, Some(next))
  {
    ListsAreExact(subs, accounts, clock);
    hide PastRetention, DueDeletions, WithErased, ErasedFor;
    forall p | RetentionOver(subs, p, clock) || DeletionOver(accounts, p, clock)
      ensures ErasedFor(d, WithErased(d, PastRetention(subs, clock) + DueDeletions(accounts, clock)), p)
    {
      KeptOrErased(d, PastRetention(subs, clock) + DueDeletions(accounts, clock), p);
    }
  }

  lemma DoneErased(d: Data, next: nat, e: Data, ps: set<nat>, q: nat)
    requires IdsGood(d, next) && Towards(WithErased(d, ps), e, q)
    ensures forall p :: p in ps ==> FullyErased(e, p)
  {
    var f := WithErased(d, ps);
    forall p, l: nat | p in ps && Owns(e, p, l)
      ensures Erased(e, l)
    {
      TowardsOwns(f, e, q, l);
      assert OwnedByAny(d, ps, l);
      assert forall a :: a in e.attachments ==> e.attachments[a] == d.attachments[a] && e.attachments[a] != l;
    }
  }

  class Worker {
    /** While this holds, no statement fails. */
    const healthy: bool
    var clock: int
    var next: nat
    var subs: map<nat, Subscription>
    var accounts: map<nat, Account>
    var d: Data

    constructor (healthy: bool)
      ensures this.healthy == healthy && d == Data(map[], map[], map[]) && subs == map[] && accounts == map[]
    {
      this.healthy := healthy;
      clock, next, subs, accounts, d := 0, 0, map[], map[], Data(map[], map[], map[]);
    }

    ghost function W(worker: Erasure.Worker): World
      reads this
    {
      World(clock, next, subs, accounts, d, worker)
    }

    /** The run `t` has led to the tables as they are. */
    ghost predicate Follows(t: Trace)
      reads this
    {
      Now(t) == W(Now(t).worker)
    }

    /** Whether the next statement succeeds. */
    method Attempt() returns (up: bool)
      ensures healthy ==> up
    {
      up := *;
      up := up || healthy;
    }

    /** Any statement may fail; what has been purged by then stays purged. */
    method PurgePrincipalCiphertext(p: nat, ghost at: Erasure.Worker, ghost born: nat, ghost t: Trace)
      returns (ok: bool, ghost t1: Trace)
      requires IdsGood(d, next) && at.Sweep? && Now(t) == W(Purging(at, p, born, Fresh))
      modifies `d
      ensures IdsGood(d, next) && Towards(old(d), d, p)
      ensures ok ==> d == WithErased(old(d), {p}) && ErasedFor(old(d), d, p)
      ensures healthy ==> ok
      ensures t1.start == t.start && Follows(t1)
      ensures ok ==> Now(t1) == W(Purging(at, p, born, Walking({}, {}, None)))
    {
      hide IdsGood, Erased, Towards, Now, Apply, Purging;
      ok, t1 := false, t;
      TowardsItself(d, p);
      var up := Attempt();
      if !up {
        return;
      }
      var vaults := VaultsOf(d, p);
      Listed(Now(t1), at, p, born);
      t1 := Then(t1, ListVaults);
      while vaults != {}
        invariant IdsGood(d, next) && Towards(old(d), d, p) && d.vaults == old(d).vaults
        invariant forall v :: v in vaults ==> v in d.vaults && d.vaults[v] == p
        invariant forall l: nat :: Owns(old(d), p, l) && old(d).letters[l].vault !in vaults ==> Erased(d, l)
        invariant t1.start == t.start && Now(t1) == W(Purging(at, p, born, Walking(vaults, {}, None)))
        decreases |vaults|
      {
        var v :| v in vaults;
        ghost var before := d;
        ok, t1 := PurgeVault(p, v, at, born, vaults, t1);
        TowardsTrans(old(d), before, d, p);
        if !ok {
          return;
        }
        SameVaultLetters(old(d), before, p, v);
        vaults := vaults - {v};
      }
      AttachmentsHaveLetters(old(d), next);
      Arrived(old(d), d, p);
      KeptOrErased(old(d), {p}, p);
      ok := true;
    }

    method PurgeVault(p: nat, v: nat, ghost at: Erasure.Worker, ghost born: nat, ghost vaults: set<nat>, ghost t: Trace)
      returns (ok: bool, ghost t1: Trace)
      requires IdsGood(d, next) && v in d.vaults && d.vaults[v] == p && v in vaults && at.Sweep?
      requires Now(t) == W(Purging(at, p, born, Walking(vaults, {}, None)))
      modifies `d
      ensures IdsGood(d, next) && Towards(old(d), d, p) && d.vaults == old(d).vaults
      ensures ok ==> forall l: nat :: l in LettersOf(old(d), v) ==> Erased(d, l)
      ensures forall l: nat :: Erased(old(d), l) ==> Erased(d, l)
      ensures t1.start == t.start && Follows(t1)
      ensures ok ==> Now(t1) == W(Purging(at, p, born, Walking(vaults - {v}, {}, None)))
      ensures healthy ==> ok
    {
      hide Towards, IdsGood, Owns, Erased, Now, Apply, Purging, LettersOf;
      ok, t1 := false, t;
      TowardsItself(d, p);
      var up := Attempt();
      if !up {
        return;
      }
      var letters := LettersOf(d, v);
      VaultPicked(Now(t1), at, p, born, vaults, v);
      t1 := Then(t1, PickVault(v));
      VaultLettersOwned(d, p, v);
      ghost var rest := vaults - {v};
      while letters != {}
        invariant IdsGood(d, next) && Towards(old(d), d, p) && d.vaults == old(d).vaults
        invariant forall l :: l in letters ==> Owns(old(d), p, l)
        invariant forall l: nat :: l in LettersOf(old(d), v) && l !in letters ==> Erased(d, l)
        invariant forall l: nat :: Erased(old(d), l) ==> Erased(d, l)
        invariant t1.start == t.start && Now(t1) == W(Purging(at, p, born, Walking(rest, letters, None)))
        decreases |letters|
      {
        var l :| l in letters;
        TowardsOwns(old(d), d, p, l);
        ghost var before := d;
        ok, t1 := PurgeLetter(p, l, at, born, rest, letters, t1);
        TowardsTrans(old(d), before, d, p);
        if !ok {
          return;
        }
        letters := letters - {l};
      }
      ok := true;
    }

    /** Attachments first, then the letter's own ciphertext. */
    method PurgeLetter(p: nat, l: nat, ghost at: Erasure.Worker, ghost born: nat, ghost vaults: set<nat>,
          ghost letters: set<nat>, ghost t: Trace)
      returns (ok: bool, ghost t1: Trace)
      requires IdsGood(d, next) && Owns(d, p, l) && l in letters && at.Sweep?
      requires Now(t) == W(Purging(at, p, born, Walking(vaults, letters, None)))
      modifies `d
      ensures IdsGood(d, next) && Towards(old(d), d, p) && d.vaults == old(d).vaults
      ensures ok ==> Erased(d, l)
      ensures forall k: nat :: Erased(old(d), k) ==> Erased(d, k)
      ensures t1.start == t.start && Follows(t1)
      ensures ok ==> Now(t1) == W(Purging(at, p, born, Walking(vaults, letters - {l}, None)))
      ensures healthy ==> ok
    {
      hide Now, Apply, Purging, IdsGood, Towards, Erased, Owns;
      ok, t1 := false, t;
      TowardsItself(d, p);
      var up := Attempt();
      if !up {
        return;
      }
      var attachments := AttachmentsOf(d, l);
      LetterPicked(Now(t1), at, p, born, vaults, letters, l);
      t1 := Then(t1, PickLetter(l));
      ghost var rest := letters - {l};
      while attachments != {}
        invariant IdsGood(d, next) && Towards(old(d), d, p) && Owns(d, p, l) && d.vaults == old(d).vaults
        invariant attachments == AttachmentsOf(d, l)
        invariant forall k: nat :: Erased(old(d), k) ==> Erased(d, k)
        invariant t1.start == t.start
        invariant Now(t1) == W(Purging(at, p, born, Walking(vaults, rest, Some(Hand(l, attachments)))))
        decreases |attachments|
      {
        var a :| a in attachments;
        up := Attempt();
        if !up {
          return;
        }
        OneAttachmentLess(d, next, p, l, a);
        TowardsTrans(old(d), d, d.(attachments := d.attachments - {a}), p);
        d := d.(attachments := d.attachments - {a});
        AttachmentPurged(Now(t1), at, p, born, vaults, rest, Hand(l, attachments), a);
        t1 := Then(t1, PurgeAttachment(a));
        attachments := attachments - {a};
      }
      up := Attempt();
      if !up {
        return;
      }
      NoAttachmentLeft(d, next, p, l);
      TowardsTrans(old(d), d, WithBlanked(d, l), p);
      d := WithBlanked(d, l);
      LetterPurged(Now(t1), at, p, born, vaults, rest, l);
      t1 := Then(t1, Step.PurgeLetter);
      ok := true;
    }

    /** CANCELED past retention becomes EXPIRED, is purged, and becomes DELETED. Cut short, the sweep
        has finished with the principals in `done` and has done some of its work on `last`. */
    method SweepSubscriptions(ghost t: Trace) returns (ok: bool, ghost done: set<nat>, ghost last: nat, ghost t1: Trace)
      requires IdsGood(d, next) && Now(t) == W(Sweep(Retention, PastRetention(subs, clock), None))
      modifies `subs, `d
      ensures IdsGood(d, next)
      ensures var due := PastRetention(old(subs), clock);
        done <= due && (ok ==> done == due) && (!ok ==> last in due - done)
      ensures ok ==> d == WithErased(old(d), done) && subs == Retired(old(subs), done)
      ensures !ok ==> Towards(WithErased(old(d), done), d, last)
                      && (|| subs == Retired(old(subs), done)
                          || subs == Retired(old(subs), done)[last := old(subs)[last].(state := Expired)])
      ensures t1.start == t.start && Follows(t1)
      ensures ok ==> Now(t1) == W(Sweep(Retention, {}, None))
      ensures forall p :: (p in done ==> RetentionOver(old(subs), p, clock))
                          && (ok && RetentionOver(old(subs), p, clock) ==> p in done)
      ensures !ok ==> RetentionOver(old(subs), last, clock) && last !in done
      ensures healthy ==> ok
    {
      ListsAreExact(subs, accounts, clock);
      hide IdsGood, Towards, WithErased, Now, Apply, Retired, PastRetention, RetentionOver, DeletionOver;
      ErasedNone(d);
      NoneDone(subs, accounts, next);
      ok, done, last, t1 := false, {}, 0, t;
      var due := PastRetention(subs, clock);
      var todo := due;
      while todo != {}
        invariant todo <= due && done == due - todo && IdsGood(d, next) && d == WithErased(old(d), done)
        invariant subs == Retired(old(subs), done)
        invariant t1.start == t.start && Now(t1) == W(Sweep(Retention, todo, None))
        decreases |todo|
      {
        var p :| p in todo;
        last := p;
        TowardsItself(d, p);
        var up := Attempt();
        if !up {
          return;
        }
        StillCanceled(old(subs), clock, done, p);
        RetiredOne(old(subs), done, p, Expired);
        Taken(Now(t1), Retention, todo, p);
        if p in subs && subs[p].state == Canceled {
          subs := subs[p := subs[p].(state := Expired)];
        }
        t1 := Then(t1, Take(p));
        up, t1 := PurgePrincipalCiphertext(p, Sweep(Retention, todo - {p}, None), next, t1);
        if !up {
          return;
        }
        ErasedInTurn(old(d), done, {p});
        up := Attempt();
        if !up {
          ArrivedTowards(old(d), done, p);
          return;
        }
        Finished(Now(t1), Retention, todo - {p}, p, next);
        if p in subs && subs[p].state == Expired {
          subs := subs[p := subs[p].(state := Deleted)];
        }
        t1 := Then(t1, Step.Done);
        done, todo := done + {p}, todo - {p};
      }
      ok := true;
    }

    /** Accounts whose deletion is due are purged, then anonymised. Cut short, the sweep has finished
        with the accounts in `done`, has purged some of `last`, and every other is as it was. */
    method SweepDeletions(ghost t: Trace) returns (ok: bool, ghost done: set<nat>, ghost last: nat, ghost t1: Trace)
      requires IdsGood(d, next) && Now(t) == W(Sweep(AccountDeletion, DueDeletions(accounts, clock), None))
      modifies `accounts, `d
      ensures IdsGood(d, next)
      ensures var due := DueDeletions(old(accounts), clock);
        done <= due && (ok ==> done == due) && (!ok ==> last in due - done)
      ensures accounts == Anonymised(old(accounts), done, next)
      ensures forall p :: p in done ==> FullyErased(d, p)
      ensures ok ==> d == WithErased(old(d), done)
      ensures !ok ==> Towards(WithErased(old(d), done), d, last)
      ensures t1.start == t.start && Follows(t1)
      ensures ok ==> Now(t1) == W(Sweep(AccountDeletion, {}, None))
      ensures forall p :: (p in done ==> DeletionOver(old(accounts), p, clock))
                          && (ok && DeletionOver(old(accounts), p, clock) ==> p in done)
      ensures !ok ==> DeletionOver(old(accounts), last, clock) && last !in done
      ensures healthy ==> ok
    {
      ListsAreExact(subs, accounts, clock);
      hide IdsGood, Towards, WithErased, Now, Apply, FullyErased, Anonymised, DueDeletions, RetentionOver, DeletionOver;
      ErasedNone(d);
      NoneDone(subs, accounts, next);
      ok, done, last, t1 := false, {}, 0, t;
      var due := DueDeletions(accounts, clock);
      var todo := due;
      while todo != {}
        invariant todo <= due && done == due - todo && IdsGood(d, next) && d == WithErased(old(d), done)
        invariant accounts == Anonymised(old(accounts), done, next)
        invariant t1.start == t.start && Now(t1) == W(Sweep(AccountDeletion, todo, None))
        decreases |todo|
      {
        var p :| p in todo;
        last := p;
        TowardsItself(d, p);
        var up := Attempt();
        if up {
          Taken(Now(t1), AccountDeletion, todo, p);
          t1 := Then(t1, Take(p));
          up, t1 := PurgePrincipalCiphertext(p, Sweep(AccountDeletion, todo - {p}, None), next, t1);
          if up {
            ErasedInTurn(old(d), done, {p});
            ArrivedTowards(old(d), done, p);
            up := Attempt();
          }
        }
        if !up {
          DoneErased(old(d), next, d, done, p);
          return;
        }
        DueHere(old(accounts), clock, done, next, p);
        AnonymisedOne(old(accounts), done, p, next);
        Finished(Now(t1), AccountDeletion, todo - {p}, p, next);
        accounts := accounts[p := Account(None, None, Some(next))];
        t1 := Then(t1, Step.Done);
        done, todo := done + {p}, todo - {p};
      }
      TowardsItself(d, last);
      DoneErased(old(d), next, d, done, last);
      ok := true;
    }

    /** One tick: a run of the worker's steps, from asleep to asleep. */
    method RetentionTick() returns (ok: bool, ghost run: seq<Step>)
      requires IdsGood(d, next)
      modifies `subs, `accounts, `d
      ensures IdsGood(d, next)
      ensures After(old(W(Asleep)), run) == W(Asleep)
      ensures ok ==> d == WithErased(old(d), PastRetention(old(subs), clock) + DueDeletions(old(accounts), clock))
      ensures ok ==> subs == Retired(old(subs), PastRetention(old(subs), clock))
      ensures ok ==> accounts == Anonymised(old(accounts), DueDeletions(old(accounts), clock), next)
      ensures subs.Keys == old(subs).Keys && accounts.Keys == old(accounts).Keys && d.vaults == old(d).vaults
      ensures forall p :: p in subs && !RetentionOver(old(subs), p, clock) ==> subs[p] == old(subs)[p]
      ensures forall p :: p in accounts && !DeletionOver(old(accounts), p, clock) ==> accounts[p] == old(accounts)[p]
      ensures forall p :: !RetentionOver(old(subs), p, clock) && !DeletionOver(old(accounts), p, clock) ==>
        KeptFor(old(d), d, p)
      ensures ok ==> forall p :: RetentionOver(old(subs), p, clock) ==>
        subs[p] == Subscription(Deleted, old(subs)[p].retentionUntil) && ErasedFor(old(d), d, p)
      ensures ok ==> forall p :: DeletionOver(old(accounts), p, clock) ==>
        accounts[p] == Account(None, None, Some(next)) && ErasedFor(old(d), d, p)
      ensures healthy ==> ok
    {
      hide IdsGood, WithErased, Retired, Anonymised, PastRetention, DueDeletions, Apply, Towards, FullyErased;
      hide RetentionOver, DeletionOver, KeptFor, ErasedFor;
      ghost var t, done, last := Trace(W(Asleep), []), {}, 0;
      ok := false;
      KeptItself(d);
      Turned(Now(t));
      var up := Attempt();
      if up {
        t := Then(t, Wake);
        up, done, last, t := SweepSubscriptions(t);
        SubscriptionsSwept(old(subs), subs, old(d), d, done, last, clock);
        if up {
          Turned(Now(t));
          ErasedInTurn(old(d), PastRetention(old(subs), clock), DueDeletions(accounts, clock));
          up := Attempt();
          if up {
            t := Then(t, NextSweep);
            ghost var before := d;
            ok, done, last, t := SweepDeletions(t);
            DeletionsSwept(old(accounts), accounts, before, d, done, last, next, clock);
            KeptThrough(old(d), before, d, old(subs), old(accounts), clock);
            TickMeans(old(d), old(subs), old(accounts), next, clock);
          }
        }
      }
      Turned(Now(t));
      run := Then(t, if ok then NextSweep else Crash).run;
    }
  }
}
