/**
 What the server's handlers and workers do to the tables, in the tables' own terms: a reference for the
 methods of Beacon that does not go by way of the step system. A predicate here relates the tables
 before and after; it does not say how they are computed.
 */
module ReleaseEffects {
  import opened Domain
  import opened Scoring
  import opened ReleaseModel
  import opened Deliveries
  import opened ReleaseSafety
  import opened Escalation

  /** A begin: the vault cools off from now on; with `completes`, its event and timer are there, due after
      the cooling-off period but a second at least. */
  predicate Began(w: World, w': World, v: nat, drill: bool, coolSeconds: int, completes: bool)
    requires v < |w.vaults|
  {
    var due := w.clock + if coolSeconds < 1 then 1 else coolSeconds;
    var w1 := w.(vaults := w.vaults[v := w.vaults[v].(state := CoolingOff, coolingOffStartedAt := Some(w.clock))]);
    w' == if !completes then w1
          else w1.(events := w.events + [EventRow(v, drill, Some(due), w.clock, None, None)],
                   tickets := w.tickets + multiset{Ticket(v, |w.events|, drill, due)})
  }

  /** The row is an event of vault `v`, neither released nor cancelled. */
  predicate OpenEventOf(row: EventRow, v: nat) {
    row.vault == v && row.releasedAt == None && row.cancelledAt == None
  }

  /** The newest open event of `v`, if there is one, is cancelled now; no other event changes. */
  ghost predicate ClosesNewest(es: seq<EventRow>, es': seq<EventRow>, v: nat, clock: int) {
    || (es' == es && forall e :: 0 <= e < |es| ==> !OpenEventOf(es[e], v))
    || (exists e :: 0 <= e < |es| && OpenEventOf(es[e], v) && es' == es[e := es[e].(cancelledAt := Some(clock))]
                    && forall f :: e < f < |es| ==> !OpenEventOf(es[f], v))
  }

  lemma NewestCloses(w: World, v: nat)
    ensures match NewestOpen(w, v, |w.events|)
            case None => ClosesNewest(w.events, w.events, v, w.clock)
            case Some(e) => e < |w.events| && ClosesNewest(w.events, MarkCancelled(w, e).events, v, w.clock)
  {
    NewestOpenFinds(w, v, |w.events|);
    hide NewestOpen;
  }

  /** A cancel that got past its check. */
  ghost predicate Cancelled(w: World, w': World, v: nat, closed: bool)
    requires v < |w.vaults|
  {
    && w' == w.(vaults := w.vaults[v := w.vaults[v].(state := Active)], events := w'.events)
    && (if closed then ClosesNewest(w.events, w'.events, v, w.clock) else w'.events == w.events)
  }

  /** What perform_release has written once it stops: nothing after a failed delivery; otherwise the vault
      is RELEASED since now, or ACTIVE again after a whole drill, and the event released, unless the
      process died before. */
  predicate Closed(w: World, w': World, t: Ticket, stop: Stop) {
    && w'.vaults == (if t.vault >= |w.vaults| || stop.DeliveryFails? then w.vaults
                     else w.vaults[t.vault := w.vaults[t.vault].(
                            state := if t.drill && stop == Done then Active else Released,
                            releasedAt := Some(w.clock))])
    && w'.events == (if t.event >= |w.events| || stop.DeliveryFails? || stop == AfterReleased then w.events
                     else w.events[t.event := w.events[t.event].(releasedAt := Some(w.clock))])
  }

  /** The claims it has issued by then: all there are to issue, or the first of them. */
  ghost predicate Delivered(w: World, w': World, t: Ticket, stop: Stop) {
    && w.claims <= w'.claims
    && (if !stop.DeliveryFails? then IssuesByMode(w, t.event, t.vault, w'.claims[|w.claims|..])
        else exists rows :: IssuesByMode(w, t.event, t.vault, rows) && w'.claims[|w.claims|..] <= rows)
  }

  lemma DeliveryStopped(w: World, w': World, t: Ticket, k: nat)
    requires k <= |Delivery(w, t.event, t.vault, |w.letters|)| && w'.vaults == w.vaults && w'.events == w.events
    requires w'.claims == w.claims + Delivery(w, t.event, t.vault, |w.letters|)[..k]
    ensures Closed(w, w', t, DeliveryFails(k)) && Delivered(w, w', t, DeliveryFails(k))
  {
    DeliveryByMode(w, t.event, t.vault);
    hide Delivery, IssuesByMode;
    assert w'.claims[|w.claims|..] == Delivery(w, t.event, t.vault, |w.letters|)[..k];
  }

  lemma ClosedReads(w: World, w1: World, w': World, t: Ticket, stop: Stop)
    requires Closed(w, w', t, stop) && w1.vaults == w.vaults && w1.events == w.events && w1.clock == w.clock
    ensures Closed(w1, w', t, stop)
  {}

  /** An event letter that fires: marked as of now; then an event without a deadline; then its claims, to
      `to`; then the event is released. */
  ghost predicate Fired(w: World, w': World, l: nat, to: string, upTo: EventStop)
    requires l < |w.letters|
  {
    var row := EventRow(w.letters[l].vault, false, None, w.clock, None, None);
    && w' == w.(letters := w.letters[l := w.letters[l].(recipient := to, eventReleasedAt := Some(w.clock))],
                events := w'.events, claims := w'.claims)
    && w.claims <= w'.claims
    && match upTo
       case BeforeEvent => w'.events == w.events && w'.claims == w.claims
       case Partial(k) =>
         && w'.events == w.events + [row] && |w'.claims| == |w.claims| + k
         && exists rows :: IssuesLetter(w, |w.events|, l, to, rows) && w'.claims[|w.claims|..] <= rows
       case Complete =>
         && w'.events == w.events + [row.(releasedAt := Some(w.clock))]
         && IssuesLetter(w, |w.events|, l, to, w'.claims[|w.claims|..])
  }

  lemma LetterIssuesReads(w: World, w1: World, e: nat, l: nat, to: string, rows: seq<ClaimRow>)
    requires IssuesLetter(w, e, l, to, rows) && w1.attachments == w.attachments && w1.clock == w.clock
    ensures IssuesLetter(w1, e, l, to, rows)
  {}

  /** The recipient just before it fires is overwritten with itself. */
  lemma FiredReads(w: World, w1: World, w': World, l: nat, to: string, upTo: EventStop)
    requires l < |w.letters| && Fired(w, w', l, to, upTo)
    requires l < |w1.letters| && w == w1.(letters := w1.letters[l := w.letters[l]])
    requires w.letters[l] == w1.letters[l].(recipient := w.letters[l].recipient)
    ensures Fired(w1, w', l, to, upTo)
  {
    hide IssuesLetter;
    if upTo.Complete? {
      LetterIssuesReads(w, w1, |w.events|, l, to, w'.claims[|w.claims|..]);
    } else if upTo.Partial? {
      var rows :| IssuesLetter(w, |w.events|, l, to, rows) && w'.claims[|w.claims|..] <= rows;
      LetterIssuesReads(w, w1, |w.events|, l, to, rows);
    }
  }

  predicate Entered(before: seq<VaultRow>, after: seq<VaultRow>, v: nat) {
    v < |before| && v < |after| && before[v].state != CoolingOff && after[v].state == CoolingOff
  }

  /** Among the first `n` vaults, those that have begun to cool off have a new event each, with its
      deadline; if not `all`, perhaps only some of them. There are no other new events. */
  ghost predicate Opened(before: seq<VaultRow>, after: seq<VaultRow>, es: seq<EventRow>, es': seq<EventRow>,
                         clock: int, n: nat, all: bool) {
    && es <= es'
    && (forall e :: |es| <= e < |es'| ==>
          es'[e].vault < n && Entered(before, after, es'[e].vault)
          && es'[e] == Deadline(es'[e].vault, before[es'[e].vault], clock))
    && (forall e, f :: |es| <= e < f < |es'| ==> es'[e].vault != es'[f].vault)
    && (all ==> forall v: nat :: v < n && Entered(before, after, v) ==>
          exists e :: |es| <= e < |es'| && es'[e].vault == v)
  }

  lemma MovedState(row: VaultRow, s: VaultState, clock: int)
    ensures Moved(row, s, clock).state == s
  {}

  lemma NothingOpened(vaults: seq<VaultRow>, es: seq<EventRow>, clock: int)
    ensures Opened(vaults, vaults, es, es, clock, 0, true)
  {}

  lemma OpenedUnmoved(vaults: seq<VaultRow>, es: seq<EventRow>, clock: int, n: nat)
    ensures Opened(vaults, vaults, es, es, clock, n, true)
  {}

  lemma OpenedNone(before: seq<VaultRow>, after: seq<VaultRow>, es: seq<EventRow>, es': seq<EventRow>, clock: int,
                   v: nat, all: bool)
    requires Opened(before, after, es, es', clock, v, all) && v < |before| == |after| && after[v] == before[v]
    ensures Opened(before, after, es, es', clock, v + 1, all)
  {}

  /** Vault `v` has moved, and its deadline is recorded if it entered and `complete`. */
  lemma OpenedOne(before: seq<VaultRow>, mid: seq<VaultRow>, after: seq<VaultRow>,
                  es: seq<EventRow>, es1: seq<EventRow>, es2: seq<EventRow>, clock: int, v: nat, all: bool,
                  complete: bool)
    requires Opened(before, mid, es, es1, clock, v, all) && v < |before| == |mid| == |after| && mid[v] == before[v]
    requires after == mid[v := after[v]] && before[v].state != CoolingOff
    requires es2 == if after[v].state == CoolingOff && complete then es1 + [Deadline(v, before[v], clock)] else es1
    ensures Opened(before, after, es, es2, clock, v + 1, all && complete)
  {
    forall u: nat | all && complete && u < v + 1 && Entered(before, after, u)
      ensures exists e :: |es| <= e < |es2| && es2[e].vault == u
    {
      if u < v {
        assert Entered(before, mid, u);
        var e :| |es| <= e < |es1| && es1[e].vault == u;
        assert es2[e] == es1[e];
      } else {
        assert es2[|es1|].vault == v;
      }
    }
    forall e | |es| <= e < |es2|
      ensures es2[e].vault < v + 1 && Entered(before, after, es2[e].vault)
      ensures es2[e] == Deadline(es2[e].vault, before[es2[e].vault], clock)
      ensures e < |es1| ==> es2[e] == es1[e]
    {
      if e < |es1| {
        assert es2[e] == es1[e] && Entered(before, mid, es1[e].vault);
      }
    }
  }

  lemma OpenedSoFar(before: seq<VaultRow>, after: seq<VaultRow>, es: seq<EventRow>, es': seq<EventRow>, clock: int,
                    v: nat, untouched: bool)
    requires Opened(before, after, es, es', clock, if untouched then v else v + 1, untouched) && v < |before|
    ensures Opened(before, after, es, es', clock, |before|, false)
  {}

  // ---- A ticket that wakes up ----

  /** A ticket that won: it is used up, its vault claimed, and then released as far as `stop` says. */
  ghost predicate Elapsed(w: World, w': World, t: Ticket, stop: Stop)
    requires t.vault < |w.vaults|
  {
    var w1 := w.(vaults := w.vaults[t.vault := w.vaults[t.vault].(state := Releasing)],
        tickets := w.tickets - multiset{t});
    && w' == w1.(vaults := w'.vaults, events := w'.events, claims := w'.claims)
    && Closed(w1, w', t, stop) && Delivered(w1, w', t, stop)
  }

  lemma PerformingUnread(w: World, w': World, t: Ticket, stop: Stop, ps: multiset<Ticket>)
    requires Closed(w, w', t, stop) && Delivered(w, w', t, stop)
    ensures var w1 := w.(performing := ps); Closed(w1, w', t, stop) && Delivered(w1, w', t, stop)
  {
    var w1 := w.(performing := ps);
    forall rows
      ensures IssuesByMode(w, t.event, t.vault, rows) ==> IssuesByMode(w1, t.event, t.vault, rows)
    {
      SameIssues(w, w1, t.event, t.vault, rows);
    }
    hide IssuesByMode;
  }

  lemma SameIssues(w: World, w1: World, e: nat, v: nat, rows: seq<ClaimRow>)
    requires w1.letters == w.letters && w1.attachments == w.attachments && w1.clock == w.clock
    ensures IssuesByMode(w, e, v, rows) ==> IssuesByMode(w1, e, v, rows)
  {
    assert forall l: nat :: Sends(w1, v, l) == Sends(w, v, l);
  }

  predicate IsCooling(w: World, v: nat) {
    v < |w.vaults| && w.vaults[v].state == CoolingOff
  }

  /** The poll's turn on a listed row: nothing if its vault has moved on, else claimed and released; `ok` if
      that went through. */
  ghost predicate RowDone(w: World, w': World, t: Ticket, ok: bool) {
    if IsCooling(w, t.vault) then exists stop :: Elapsed(w, w', t, stop) && (ok <==> stop == Done)
    else ok && w' == w.(tickets := w.tickets - multiset{t})
  }

  // ---- One poll tick ----

  /** An open event whose deadline has come and whose vault is cooling off. */
  predicate FallenDue(w: World, e: nat) {
    && e < |w.events| && w.events[e].releasedAt == None && w.events[e].cancelledAt == None
    && w.events[e].deadline.Some? && w.events[e].deadline.value <= w.clock && IsCooling(w, w.events[e].vault)
  }

  predicate RowOfDue(w: World, t: Ticket) {
    FallenDue(w, t.event) && t == Ticket(w.events[t.event].vault, t.event, w.events[t.event].drill, w.clock)
  }

  /** Everything a release of `v` sends has gone out under `e`. */
  ghost predicate AllSent(w: World, claims: seq<ClaimRow>, e: nat, v: nat) {
    && (forall l: nat :: Sends(w, v, l) ==> ClaimRow(e, LetterOf(l), w.letters[l].recipient, w.clock) in claims)
    && (forall a: nat :: a < |w.attachments| && Sends(w, v, w.attachments[a].letter) ==>
          ClaimRow(e, AttachmentOf(a), w.letters[w.attachments[a].letter].recipient, w.clock) in claims)
  }

  ghost predicate HandledBy(w: World, u: World, v: nat, e: nat) {
    && FallenDue(w, e) && w.events[e].vault == v && v < |u.vaults| && e < |u.events|
    && u.events[e] == w.events[e].(releasedAt := Some(w.clock))
    && u.vaults[v].state == (if w.events[e].drill then Active else Released)
    && AllSent(w, u.claims, e, v)
  }

  /** The vault has been released under one of its due events. */
  ghost predicate Handled(w: World, u: World, v: nat) {
    exists e: nat :: HandledBy(w, u, v, e)
  }

  ghost predicate Listed(due: seq<Ticket>, n: nat, v: nat)
    requires n <= |due|
  {
    exists k :: 0 <= k < n && due[k].vault == v
  }

  /** From `w` to `u` the first `n` rows of the list have been dealt with, and nothing else has happened. */
  ghost predicate Swept(w: World, u: World, due: seq<Ticket>, n: nat, ok: bool) {
    && n <= |due| && SameLetters(w, u) && |u.vaults| == |w.vaults| && |u.events| == |w.events|
    && (forall k :: 0 <= k < n ==> !IsCooling(u, due[k].vault) && (ok ==> Handled(w, u, due[k].vault)))
    && (forall v: nat :: v < |w.vaults| && !Listed(due, n, v) ==> u.vaults[v] == w.vaults[v])
    && (forall e: nat :: e < |w.events| && !Listed(due, n, w.events[e].vault) ==> u.events[e] == w.events[e])
  }

  predicate SameLetters(w: World, u: World) {
    u.clock == w.clock && u.letters == w.letters && u.attachments == w.attachments
  }

  lemma SweptNothing(w: World, u: World, due: seq<Ticket>)
    requires u == w.(tickets := u.tickets)
    ensures Swept(w, u, due, 0, true)
  {}

  /** What one row leaves alone, and what it leaves behind. */
  lemma RowFrame(u: World, u': World, t: Ticket, ok: bool)
    requires RowDone(u, u', t, ok)
    ensures SameLetters(u, u') && u'.tickets == u.tickets - multiset{t}
    ensures |u'.vaults| == |u.vaults| && |u'.events| == |u.events| && u.claims <= u'.claims
    ensures !IsCooling(u', t.vault)
    ensures forall v: nat :: v < |u.vaults| && (v != t.vault || !IsCooling(u, t.vault)) ==> u'.vaults[v] == u.vaults[v]
    ensures forall e: nat :: e < |u.events| && (e != t.event || !IsCooling(u, t.vault)) ==> u'.events[e] == u.events[e]
  {
    hide IssuesByMode;
  }

  /** A row that goes through releases its vault. */
  lemma RowHandles(w: World, u: World, u': World, t: Ticket)
    requires RowDone(u, u', t, true) && IsCooling(u, t.vault) && RowOfDue(w, t) && SameLetters(w, u)
    requires |u.vaults| == |w.vaults| && |u.events| == |w.events| && u.events[t.event] == w.events[t.event]
    ensures HandledBy(w, u', t.vault, t.event)
  {
    var sent := u'.claims[|u.claims|..];
    IssuedAll(w, u, t.event, t.vault, sent);
    hide IssuesByMode;
    assert forall c :: c in sent ==> c in u'.claims;
  }

  lemma IssuedAll(w: World, u: World, e: nat, v: nat, rows: seq<ClaimRow>)
    requires SameLetters(w, u)
    ensures IssuesByMode(u.(vaults := w.vaults, tickets := w.tickets), e, v, rows) ==> AllSent(w, rows, e, v)
  {
    assert forall l: nat :: Sends(u, v, l) == Sends(w, v, l);
  }

  /** What was handled stays so while rows of other vaults are dealt with. */
  lemma HandledStays(w: World, u: World, u': World, v: nat, t: Ticket)
    requires Handled(w, u, v) && v != t.vault && |u'.vaults| == |u.vaults| == |w.vaults| && |u'.events| == |u.events|
    requires u.claims <= u'.claims && RowOfDue(w, t)
    requires u'.vaults[v] == u.vaults[v] && forall e: nat :: e < |u.events| && e != t.event ==>
        u'.events[e] == u.events[e]
    ensures Handled(w, u', v)
  {
    var e: nat :| HandledBy(w, u, v, e);
    assert e != t.event;
    assert forall c :: c in u.claims ==> c in u'.claims;
    assert HandledBy(w, u', v, e);
  }

  lemma SweptRow(w: World, u: World, u': World, due: seq<Ticket>, i: nat, ok: bool, rowOk: bool)
    requires Swept(w, u, due, i, ok) && i < |due| && RowDone(u, u', due[i], rowOk)
    requires forall k :: 0 <= k < |due| ==> RowOfDue(w, due[k])
    ensures Swept(w, u', due, i + 1, ok && rowOk)
  {
    var t := due[i];
    RowFrame(u, u', t, rowOk);
    hide RowDone, HandledBy, Handled;
    assert Listed(due, i + 1, t.vault);
    forall v: nat | !Listed(due, i + 1, v)
      ensures !Listed(due, i, v) && v != t.vault
    {}
    assert w.events[t.event].vault == t.vault;
    forall k | 0 <= k < i + 1
      ensures !IsCooling(u', due[k].vault) && (ok && rowOk ==> Handled(w, u', due[k].vault))
    {
      SweptOne(w, u, u', due, i, ok, rowOk, k);
    }
  }

  lemma SweptOne(w: World, u: World, u': World, due: seq<Ticket>, i: nat, ok: bool, rowOk: bool, k: nat)
    requires Swept(w, u, due, i, ok) && k <= i < |due| && RowDone(u, u', due[i], rowOk)
    requires forall k :: 0 <= k < |due| ==> RowOfDue(w, due[k])
    ensures !IsCooling(u', due[k].vault) && (ok && rowOk ==> Handled(w, u', due[k].vault))
  {
    var t, v := due[i], due[k].vault;
    RowFrame(u, u', t, rowOk);
    if v != t.vault {
      assert !IsCooling(u, v);
      if ok {
        HandledStays(w, u, u', v, t);
      }
    } else if IsCooling(u, v) {
      assert !Listed(due, i, v);
      if rowOk {
        RowHandles(w, u, u', t);
      }
    } else if Listed(due, i, v) {
      if ok {
        HandledSame(w, u, u', v);
      }
    } else {
      assert u.vaults[v] == w.vaults[v];
    }
  }

  lemma HandledSame(w: World, u: World, u': World, v: nat)
    requires Handled(w, u, v) && u'.vaults == u.vaults && u'.events == u.events && u'.claims == u.claims
    ensures Handled(w, u', v)
  {
    var e: nat :| HandledBy(w, u, v, e);
    assert HandledBy(w, u', v, e);
  }

  lemma SweptAll(w: World, u: World, due: seq<Ticket>, ok: bool)
    requires Swept(w, u, due, |due|, ok) && forall k :: 0 <= k < |due| ==> RowOfDue(w, due[k])
    requires forall e: nat :: FallenDue(w, e) ==> exists k :: 0 <= k < |due| && due[k].vault == w.events[e].vault
    ensures |u.vaults| == |w.vaults|
    ensures forall e: nat :: FallenDue(w, e) ==>
      !IsCooling(u, w.events[e].vault) && (ok ==> Handled(w, u, w.events[e].vault))
    ensures forall v: nat :: v < |w.vaults| && (forall e: nat :: FallenDue(w, e) ==> w.events[e].vault != v) ==>
      u.vaults[v] == w.vaults[v]
  {
    hide Handled;
    assert forall k :: 0 <= k < |due| ==> FallenDue(w, due[k].event) && w.events[due[k].event].vault == due[k].vault;
  }
}
