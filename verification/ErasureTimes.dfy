/**
 When the erasure sweeps may come, over whole runs: no subscription is erased before the retention it was
 cancelled with is over, and no account before thirty days; and where a race gets round that.
 */
module ErasureTimes {
  import opened Domain
  import opened Erasure
  import opened ErasureLaws

  lemma {:induction false} ClockGrows(w: World, run: seq<Step>, i: nat, j: nat)
    requires i <= j <= |run|
    ensures After(w, run[..i]).clock <= After(w, run[..j]).clock
  {
    if i < j {
      ClockGrows(w, run, i, j - 1);
      assert run[..j][..j - 1] == run[..j - 1];
      ClockStep(After(w, run[..j - 1]), run[j - 1]);
      hide Apply;
    }
  }

  lemma ClockStep(w: World, s: Step)
    ensures w.clock <= Apply(w, s).clock
  {
    hide VaultsOf, LettersOf, AttachmentsOf, PastRetention, DueDeletions, WithFiles;
  }

  /** The world after `j` steps is the next one's past. */
  lemma NextWorld(w: World, run: seq<Step>, j: nat)
    requires j < |run|
    ensures After(w, run[..j + 1]) == Apply(After(w, run[..j]), run[j])
  {
    hide Apply;
    assert run[..j + 1][..j] == run[..j];
  }

  // ---- Subscriptions ----

  /** CANCELED, to be retained until `end`. */
  predicate RetainedUntil(w: World, p: nat, end: int) {
    p in w.subs && w.subs[p].state == Canceled && w.subs[p].retentionUntil == Some(end)
  }

  predicate Cancels(s: Step, p: nat) {
    s.CancelSubscription? && s.principal == p
  }

  lemma RetainedStep(w: World, s: Step, p: nat, end: int)
    requires RetainedUntil(Apply(w, s), p, end)
    ensures if Cancels(s, p) then p in w.subs && end == w.clock + s.retentionDays * 86400 else RetainedUntil(w, p, end)
  {
    hide VaultsOf, LettersOf, AttachmentsOf, PastRetention, DueDeletions, WithFiles;
  }

  /** The retention of a CANCELED subscription ends the days of its last cancellation after it; `c` is that
      cancellation, if there was one. */
  lemma {:induction false} RetentionOrigin(w: World, run: seq<Step>, i: nat, p: nat, end: int) returns (c: Option<nat>)
    requires i <= |run| && RetainedUntil(After(w, run[..i]), p, end)
    ensures c.None? ==> RetainedUntil(w, p, end)
    ensures c.Some? ==> c.value < i && Cancels(run[c.value], p)
                        && end == After(w, run[..c.value]).clock + run[c.value].retentionDays * 86400
    ensures forall j :: (if c.Some? then c.value + 1 else 0) <= j < i ==> !Cancels(run[j], p)
  {
    if i == 0 {
      assert run[..0] == [];
      c := None;
    } else {
      NextWorld(w, run, i - 1);
      hide After, Apply, RetainedUntil;
      RetainedStep(After(w, run[..i - 1]), run[i - 1], p, end);
      if Cancels(run[i - 1], p) {
        c := Some(i - 1);
      } else {
        c := RetentionOrigin(w, run, i - 1, p, end);
      }
    }
  }

  /** The retention sweep has the principal on its list. */
  predicate OnList(w: World, p: nat) {
    w.worker.Sweep? && w.worker.kind == Retention && p in w.worker.due
  }

  lemma ListedStep(w: World, s: Step, p: nat)
    requires OnList(Apply(w, s), p)
    ensures OnList(w, p)
            || (s == Wake && p in w.subs && w.subs[p].retentionUntil.Some?
                && RetainedUntil(w, p, w.subs[p].retentionUntil.value) && w.subs[p].retentionUntil.value <= w.clock)
  {
    hide VaultsOf, LettersOf, AttachmentsOf, DueDeletions, WithFiles;
  }

  /** Whoever is on the list got there when the worker woke up, CANCELED with the retention over. */
  lemma {:induction false} ListedWhenOver(w: World, run: seq<Step>, k: nat, p: nat) returns (i: nat, end: int)
    requires w.worker.Asleep? && k <= |run| && OnList(After(w, run[..k]), p)
    ensures i < k && run[i] == Wake && RetainedUntil(After(w, run[..i]), p, end) && end <= After(w, run[..i]).clock
    ensures forall j :: i < j <= k ==> OnList(After(w, run[..j]), p)
  {
    assert run[..0] == [];
    NextWorld(w, run, k - 1);
    hide After, Apply, RetainedUntil, OnList;
    ListedStep(After(w, run[..k - 1]), run[k - 1], p);
    if OnList(After(w, run[..k - 1]), p) {
      i, end := ListedWhenOver(w, run, k - 1, p);
    } else {
      i, end := k - 1, After(w, run[..k - 1]).subs[p].retentionUntil.value;
    }
  }

  /** EXPIRED is written by such a take alone, over CANCELED. */
  lemma OnlyTakesExpire(w: World, s: Step, p: nat)
    ensures !SubIn(w.subs, p, Expired) && SubIn(Apply(w, s).subs, p, Expired)
            <==> Takes(w, s, Retention, p) && SubIn(w.subs, p, Canceled)
  {
    hide VaultsOf, LettersOf, AttachmentsOf, PastRetention, DueDeletions, WithFiles;
  }

  /** In any run, whenever the retention sweep takes a principal, it had listed the subscription at an
      earlier waking `i`, CANCELED; and from its last cancellation before that, `c`, the days of retention
      it was given have passed. */
  lemma TakenAfterRetention(w: World, run: seq<Step>, k: nat, p: nat) returns (i: nat, c: Option<nat>)
    requires w.worker.Asleep? && k < |run| && Takes(After(w, run[..k]), run[k], Retention, p)
    ensures i < k && run[i] == Wake && SubIn(After(w, run[..i]).subs, p, Canceled)
    ensures forall j :: (if c.Some? then c.value + 1 else 0) <= j < i ==> !Cancels(run[j], p)
    ensures match c
            case None => p in w.subs && w.subs[p].retentionUntil.Some?
                         && w.subs[p].retentionUntil.value <= After(w, run[..k]).clock
            case Some(c) => c < i && Cancels(run[c], p)
                            && After(w, run[..c]).clock + run[c].retentionDays * 86400 <= After(w, run[..k]).clock
  {
    hide After, Apply;
    var end;
    i, end := ListedWhenOver(w, run, k, p);
    c := RetentionOrigin(w, run, i, p, end);
    ClockGrows(w, run, i, k);
  }

  /** The step writes DELETED. */
  predicate Deletes(w: World, s: Step, p: nat) {
    !SubIn(w.subs, p, Deleted) && SubIn(Apply(w, s).subs, p, Deleted)
  }

  lemma DeletesStep(w: World, s: Step, p: nat)
    requires Deletes(w, s, p)
    ensures Working(w) && JobOf(w, Retention, p, w.worker.job.value.born) && SubIn(w.subs, p, Expired)
  {
    hide VaultsOf, LettersOf, AttachmentsOf, PastRetention, DueDeletions, WithFiles;
  }

  /** So does every subscription that becomes DELETED: its purge began with such a take. */
  lemma DeletedAfterRetention(w: World, run: seq<Step>, d: nat, p: nat) returns (k: nat, i: nat, c: Option<nat>)
    requires w.worker.Asleep? && d < |run| && Deletes(After(w, run[..d]), run[d], p)
    ensures i < k < d && run[k] == Take(p) && run[i] == Wake && SubIn(After(w, run[..i]).subs, p, Canceled)
    ensures forall j :: (if c.Some? then c.value + 1 else 0) <= j < i ==> !Cancels(run[j], p)
    ensures match c
            case None => p in w.subs && w.subs[p].retentionUntil.Some?
                         && w.subs[p].retentionUntil.value <= After(w, run[..d]).clock
            case Some(c) => c < i && Cancels(run[c], p)
                            && After(w, run[..c]).clock + run[c].retentionDays * 86400 <= After(w, run[..d]).clock
  {
    var u := After(w, run[..d]);
    DeletesStep(u, run[d], p);
    hide Apply, Deletes;
    k := JobTaken(w, run[..d], Retention, p, u.worker.job.value.born);
    assert run[..d][..k] == run[..k];
    hide After, Takes;
    assert Takes(After(w, run[..k]), run[k], Retention, p);
    i, c := TakenAfterRetention(w, run, k, p);
    ClockGrows(w, run, k, d);
    assert run[k] == Take(p) by { TakesIs(After(w, run[..k]), run[k], p); }
  }

  lemma TakesIs(w: World, s: Step, p: nat)
    requires Takes(w, s, Retention, p)
    ensures s == Take(p)
  {}

  /** Where that ends: the take asks for CANCELED only. A subscription that was reactivated and cancelled
      anew since the listing is expired before its new retention is over; so exactly if such a
      cancellation has moved the end past now. */
  lemma ExpiredEarlyIff(w: World, run: seq<Step>, i: nat, k: nat, p: nat)
    requires i < k < |run| && run[i] == Wake && After(w, run[..i]).worker.Asleep?
    requires (forall j :: i < j <= k ==> OnList(After(w, run[..j]), p))
        && Takes(After(w, run[..k]), run[k], Retention, p)
    requires SubIn(After(w, run[..k]).subs, p, Canceled) && After(w, run[..k]).subs[p].retentionUntil.Some?
    ensures After(w, run[..k]).subs[p].retentionUntil.value > After(w, run[..k]).clock
            <==> exists j :: LastCancel(run, i, j, k, p)
                             && After(w, run[..j]).clock + run[j].retentionDays * 86400 > After(w, run[..k]).clock
  {
    var u := After(w, run[..k]);
    var end := u.subs[p].retentionUntil.value;
    NextWorld(w, run, i);
    assert OnList(After(w, run[..i + 1]), p);
    ListedNow(After(w, run[..i]), p);
    hide After, Apply, OnList, Takes;
    var c := RetentionOrigin(w, run, k, p, end);
    ClockGrows(w, run, i, k);
    if c.Some? && i < c.value {
      assert LastCancel(run, i, c.value, k, p);
    } else {
      NoCancelSince(w, run, i, k, p, end);
    }
  }

  /** `j` is the last cancellation between `i` and `k`. */
  predicate LastCancel(run: seq<Step>, i: nat, j: int, k: nat, p: nat)
    requires k <= |run|
  {
    i < j < k && Cancels(run[j], p) && forall m :: j < m < k ==> !Cancels(run[m], p)
  }

  lemma ListedNow(w: World, p: nat)
    requires w.worker.Asleep? && OnList(Apply(w, Wake), p)
    ensures p in w.subs && w.subs[p].retentionUntil.Some? && w.subs[p].retentionUntil.value <= w.clock
    ensures RetainedUntil(w, p, w.subs[p].retentionUntil.value)
  {}

  lemma {:induction false} NoCancelSince(w: World, run: seq<Step>, i: nat, k: nat, p: nat, end: int)
    requires i <= k <= |run| && RetainedUntil(After(w, run[..k]), p, end)
    requires forall j :: i <= j < k ==> !Cancels(run[j], p)
    ensures RetainedUntil(After(w, run[..i]), p, end)
  {
    if i < k {
      NextWorld(w, run, k - 1);
      hide After, Apply, RetainedUntil;
      RetainedStep(After(w, run[..k - 1]), run[k - 1], p, end);
      NoCancelSince(w, run, i, k - 1, p, end);
    }
  }

  /** Such a run: cancelled anew for ninety days, and expired at once. */
  lemma RecancelledIsExpired()
    ensures var w := Sample(Asleep, Canceled, WRITTEN, map[]);
      var run := [Wake, Reactivate(7), CancelSubscription(7, 90), Take(7)];
      Start(w) && After(w, run).subs == map[7 := Subscription(Expired, Some(100 + 90 * 86400))]
          && After(w, run).clock == 100
  {
    var w := Sample(Asleep, Canceled, WRITTEN, map[]);
    var run := [Wake, Reactivate(7), CancelSubscription(7, 90), Take(7)];
    var w1 := Sample(Sweep(Retention, {7}, None), Canceled, WRITTEN, map[]);
    var w2 := Sample(Sweep(Retention, {7}, None), Subscribed, WRITTEN, map[]);
    var w3 := w2.(subs := map[7 := Subscription(Canceled, Some(100 + 90 * 86400))]);
    SampleStarts();
    WakeSample();
    ReactivateSample();
    assert Apply(w2, CancelSubscription(7, 90)) == w3;
    assert Apply(w3, Take(7)).subs == map[7 := Subscription(Expired, Some(100 + 90 * 86400))];
    assert Apply(w3, Take(7)).clock == 100;
    hide After, Apply, Sample, Start;
    Snoc(w, [], Wake, w1);
    assert [] + [Wake] == [Wake];
    Snoc(w, [Wake], Reactivate(7), w2);
    assert [Wake] + [Reactivate(7)] == [Wake, Reactivate(7)];
    Snoc(w, [Wake, Reactivate(7)], CancelSubscription(7, 90), w3);
    assert [Wake, Reactivate(7)] + [CancelSubscription(7, 90)] == run[..3];
    Snoc(w, run[..3], Take(7), Apply(w3, Take(7)));
    assert run[..3] + [Take(7)] == run;
  }

  // ---- Accounts ----

  /** A request is pending since `since`. */
  predicate RequestedAt(w: World, p: nat, since: int) {
    p in w.accounts && w.accounts[p].requestedAt == Some(since) && w.accounts[p].scheduledFor == Some(since + 2592000)
  }

  lemma RequestedStep(w: World, s: Step, p: nat, since: int)
    requires RequestedAt(w, p, since) && s != CancelDeletion(p) && !(s == Done && AboutToAnonymise(w, p))
    ensures RequestedAt(Apply(w, s), p, since)
  {
    hide VaultsOf, LettersOf, AttachmentsOf, PastRetention, DueDeletions, WithFiles;
  }

  /** A first request makes the account due exactly from thirty days after it on, until it is cancelled or
      anonymised, however often it is repeated: it can be cancelled until then and not after, and the
      sweep that sets out then lists it, and none before. */
  lemma {:induction false} RequestedThirtyDays(w: World, run: seq<Step>, p: nat)
    requires p in w.accounts && w.accounts[p].requestedAt == None && w.accounts[p].scheduledFor == None
    requires run != [] && run[0] == RequestDeletion(p)
    requires forall j :: 1 <= j < |run| ==>
      run[j] != CancelDeletion(p) && !(run[j] == Done && AboutToAnonymise(After(w, run[..j]), p))
    ensures var w1 := After(w, run); var over := w1.clock >= w.clock + 2592000;
      && RequestedAt(w1, p, w.clock)
      && (Apply(w1, CancelDeletion(p)).accounts
          == if over then w1.accounts else w1.accounts[p := Account(None, None, w1.accounts[p].erasedUpTo)])
      && (w1.worker == Sweep(Retention, {}, None) ==>
            Apply(w1, NextSweep).worker.Sweep? && (p in Apply(w1, NextSweep).worker.due <==> over))
  {
    var n := |run| - 1;
    if n == 0 {
      assert run[..0] == [] && After(w, []) == w;
    } else {
      hide Apply, AboutToAnonymise, RequestedAt;
      assert forall j :: 1 <= j <= n ==> run[..n][..j] == run[..j];
      RequestedThirtyDays(w, run[..n], p);
      RequestedStep(After(w, run[..n]), run[n], p, w.clock);
    }
    RequestedMeans(After(w, run), p, w.clock);
  }

  lemma RequestedMeans(w: World, p: nat, since: int)
    requires RequestedAt(w, p, since)
    ensures var over := w.clock >= since + 2592000;
      && (Apply(w, CancelDeletion(p)).accounts
          == if over then w.accounts else w.accounts[p := Account(None, None, w.accounts[p].erasedUpTo)])
      && (w.worker == Sweep(Retention, {}, None) ==>
            Apply(w, NextSweep).worker.Sweep? && (p in Apply(w, NextSweep).worker.due <==> over))
  {}
}
