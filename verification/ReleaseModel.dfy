/**
 The dead-man's switch as a step system: database tables shared by any number of replicas,
 and volatile work that a crash loses.

 A `Ticket` is any piece of code on its way to claiming a vault: a per-request timer asleep
 in `elapse_release`, or a row the poll loop has listed and not reached yet. Both later run the
 same conditional update COOLING_OFF -> RELEASING, which tests the vault and not the event.
 `performing` holds the tickets that won and are inside `perform_release`.

 Steps are deliberately permissive. A check-then-write handler carries the state it observed,
 so a stale write is a step too. A handler may be one step, or stop after its first statement and
 have the rest done later by steps of their own, with other actors in between: an event inserted
 late, an event closed late, the statements of perform_release one by one. ReleaseCounting holds of
 all of them; ReleaseSafety says which have to be excluded for the rest, ReleaseRaces shows why.
 */
module ReleaseModel {
  import opened Domain
  import opened Scoring

  datatype VaultRow = VaultRow(
    principal: nat, state: VaultState, coolingOffSeconds: int,
    coolingOffStartedAt: Option<int>, releasedAt: Option<int>)

  /** `deadline` is cooling_off_ends_at; only event-letter releases have none. */
  datatype EventRow = EventRow(
    vault: nat, drill: bool, deadline: Option<int>, triggeredAt: int,
    releasedAt: Option<int>, cancelledAt: Option<int>)
  {
    predicate Open() {
      releasedAt.None? && cancelledAt.None?
    }

    /** Open and carrying a cooling-off deadline. */
    predicate OpenTimed() {
      Open() && deadline.Some?
    }
  }

  datatype LetterRow = LetterRow(
    vault: nat, mode: ReleaseMode, recipient: string, eventReleasedAt: Option<int>)

  datatype AttachmentRow = AttachmentRow(letter: nat)

  datatype Subject = LetterOf(letter: nat) | AttachmentOf(attachment: nat)

  /** A row of release_claim or release_attachment_claim. */
  datatype ClaimRow = ClaimRow(event: nat, subject: Subject, recipient: string, issuedAt: int)

  datatype DuressRow = DuressRow(releases: bool, triggered: bool)

  datatype Ticket = Ticket(vault: nat, event: nat, drill: bool, wakeAt: int)

  datatype World = World(
    clock: int,
    vaults: seq<VaultRow>, events: seq<EventRow>,
    letters: seq<LetterRow>, attachments: seq<AttachmentRow>, claims: seq<ClaimRow>,
    duress: map<nat, DuressRow>,
    tickets: multiset<Ticket>, performing: multiset<Ticket>)

  // ---- Statements ----

  predicate StateIs(vaults: seq<VaultRow>, v: nat, s: VaultState) {
    v < |vaults| && vaults[v].state == s
  }

  predicate InState(w: World, v: nat, s: VaultState) {
    StateIs(w.vaults, v, s)
  }

  /** set_vault_state: unconditional; the timestamp is kept when none is given. */
  function SetState(w: World, v: nat, s: VaultState, releasedAt: Option<int>): World {
    if v < |w.vaults| then
      var row := w.vaults[v].(state := s,
                              releasedAt := if releasedAt.Some? then releasedAt else w.vaults[v].releasedAt);
      w.(vaults := w.vaults[v := row])
    else w
  }

  /** claim_vault_cooling_off, once its condition is known to hold. */
  function EnterCoolingOff(w: World, v: nat): World
    requires v < |w.vaults|
  {
    var row := w.vaults[v].(state := CoolingOff, coolingOffStartedAt := Some(w.clock));
    w.(vaults := w.vaults[v := row])
  }

  /** create_release_event_with_deadline. */
  function CreateEvent(w: World, v: nat, drill: bool, deadline: Option<int>): World {
    w.(events := w.events + [EventRow(v, drill, deadline, w.clock, None, None)])
  }

  /** The row predicate of list_due_releases. */
  predicate Due(w: World, e: nat) {
    e < |w.events| && w.events[e].OpenTimed() && w.events[e].deadline.value <= w.clock
    && InState(w, w.events[e].vault, CoolingOff)
  }

  function DueTickets(w: World, n: nat): seq<Ticket>
    requires n <= |w.events|
  {
    if n == 0 then []
    else DueTickets(w, n - 1)
         + if Due(w, n - 1) then [Ticket(w.events[n - 1].vault, n - 1, w.events[n - 1].drill, w.clock)] else []
  }

  function MarkReleased(w: World, e: nat): World {
    if e < |w.events| then
      w.(events := w.events[e := w.events[e].(releasedAt := Some(w.clock))])
    else w
  }

  function MarkCancelled(w: World, e: nat): World {
    if e < |w.events| && w.events[e].Open() then
      w.(events := w.events[e := w.events[e].(cancelledAt := Some(w.clock))])
    else w
  }

  /** fetch_open_release: the newest open event; rows are in trigger order. */
  function NewestOpen(w: World, v: nat, n: nat): Option<nat>
    requires n <= |w.events|
  {
    if n == 0 then None
    else if w.events[n - 1].Open() && w.events[n - 1].vault == v then Some(n - 1)
    else NewestOpen(w, v, n - 1)
  }

  predicate InDuress(w: World, principal: nat) {
    principal in w.duress && w.duress[principal].triggered
  }

  // ---- Deliveries ----

  function AttachmentClaims(w: World, e: nat, l: nat, n: nat): seq<ClaimRow>
    requires l < |w.letters| && n <= |w.attachments|
  {
    if n == 0 then []
    else AttachmentClaims(w, e, l, n - 1)
         + if w.attachments[n - 1].letter == l
           then [ClaimRow(e, AttachmentOf(n - 1), w.letters[l].recipient, w.clock)] else []
  }

  /** deliver_letter: the letter's own claim, then one per attachment. */
  function LetterClaims(w: World, e: nat, l: nat): seq<ClaimRow>
    requires l < |w.letters|
  {
    [ClaimRow(e, LetterOf(l), w.letters[l].recipient, w.clock)]
    + AttachmentClaims(w, e, l, |w.attachments|)
  }

  predicate FiresIn(w: World, v: nat, l: nat) {
    l < |w.letters| && w.letters[l].vault == v && FiresOnSignal(w.letters[l].mode)
  }

  /** Every claim a release of vault `v` under event `e` issues, over the first `n` letters. */
  function Delivery(w: World, e: nat, v: nat, n: nat): seq<ClaimRow>
    requires n <= |w.letters|
  {
    if n == 0 then []
    else Delivery(w, e, v, n - 1) + if FiresIn(w, v, n - 1) then LetterClaims(w, e, n - 1) else []
  }

  function Prefix(rows: seq<ClaimRow>, k: nat): (p: seq<ClaimRow>)
    ensures p <= rows
  {
    if k <= |rows| then rows[..k] else rows
  }

  // ---- Handlers ----

  /** What stops perform_release: an error while delivering, a crash between the closing
      statements, or nothing. */
  datatype Stop = DeliveryFails(issued: nat) | AfterReleased | AfterMarked | Done

  datatype EventStop = BeforeEvent | Partial(issued: nat) | Complete

  /** What the aggregator concluded from one vault's signals, and the policy it applied. */
  datatype Evidence = Evidence(score: TriggerScore, threshold: real, minClasses: nat)

  function Verdict(observed: VaultState, x: Evidence): VaultState {
    Evaluate(observed, x.score, x.threshold, x.minClasses)
  }

  /** One statement of perform_release. */
  datatype Part =
    | Issue(subject: Subject, recipient: string)
    | StateReleased
    | EventMarked
    | StateActive

  datatype Step =
    | Advance(seconds: nat)
    | Begin(v: nat, drill: bool, coolSeconds: int, completes: bool)
    | Cancel(v: nat, observed: VaultState, closes: bool)
    | Aggregate(v: nat, observed: VaultState, frozen: bool, evidence: Evidence, completes: bool)
    | DuressEnter(v: nat, observed: VaultState, completes: bool)
    | Poll
    | Claim(t: Ticket)
    | Perform(t: Ticket, stop: Stop)
    | Crash(lostTickets: multiset<Ticket>, lostPerforming: multiset<Ticket>)
    | Arm(principal: nat, releases: bool)
    | Trigger(principal: nat)
    | Disarm(principal: nat)
    | EditVault(v: nat, coolingOffSeconds: int)
    | SealLetter(v: nat, mode: ReleaseMode, recipient: string, attachmentCount: nat)
    | EditLetter(l: nat, mode: ReleaseMode, recipient: string)
    | ReleaseEventLetter(l: nat, upTo: EventStop)
    | InsertEvent(v: nat, drill: bool, deadline: Option<int>, timer: bool)
    | CloseEvent(e: nat)
    | PerformWrite(t: Ticket, part: Part)
    | PerformEnd(t: Ticket)

  /** The later statements of a handler another actor has overtaken. */
  predicate HalfHandler(s: Step) {
    s.InsertEvent? || s.CloseEvent? || s.PerformWrite? || s.PerformEnd?
  }

  /** begin_release_with_cool. `completes` is false when the process dies between the claim of
      the vault and the insertion of the event. */
  function BeginStep(w: World, v: nat, drill: bool, coolSeconds: int, completes: bool): World {
    if !InState(w, v, Active) then w
    else
      var w1 := EnterCoolingOff(w, v);
      if !completes then w1
      else
        var endsAt := w.clock + Max(coolSeconds, 1);
        var w2 := CreateEvent(w1, v, drill, Some(endsAt));
        w2.(tickets := w2.tickets + multiset{Ticket(v, |w.events|, drill, endsAt)})
  }

  /** cancel_release, having read the vault in state `observed`; its update does not look again.
      `closes` is false when the event lookup or update fails or comes later (CloseEvent). */
  function CancelStep(w: World, v: nat, observed: VaultState, closes: bool): World {
    if v >= |w.vaults| || observed != CoolingOff then w
    else
      var w1 := SetState(w, v, Active, None);
      match NewestOpen(w1, v, |w1.events|)
      case None => w1
      case Some(e) => if closes then MarkCancelled(w1, e) else w1
  }

  /** Claim a vault from an observed state and record its deadline; no timer. */
  function EnterDurably(w: World, v: nat, from: VaultState, completes: bool): World {
    if !InState(w, v, from) then w
    else
      var w1 := EnterCoolingOff(w, v);
      if completes then CreateEvent(w1, v, false, Some(w.clock + w.vaults[v].coolingOffSeconds)) else w1
  }

  /** The aggregator's turn on one subscribed vault, which it read in state `observed`. `frozen` is what
      it read of its principal's duress, before it claims. */
  function AggregateStep(w: World, v: nat, observed: VaultState, frozen: bool, x: Evidence, completes: bool): World {
    var next := Verdict(observed, x);
    if v >= |w.vaults| || !Watchable(observed) || next == observed then w
    else if next == CoolingOff then
      if frozen then w else EnterDurably(w, v, observed, completes)
    else SetState(w, v, next, None)
  }

  /** The duress webhook's turn on one vault, for a principal who chose to release. The webhook
      acts on the duress row it read when it was triggered, whatever became of the row since. */
  function DuressEnterStep(w: World, v: nat, observed: VaultState, completes: bool): World {
    if Watchable(observed) then EnterDurably(w, v, observed, completes) else w
  }

  /** claim_vault_for_release by a ticket that is awake. */
  predicate Wins(w: World, t: Ticket) {
    t in w.tickets && t.wakeAt <= w.clock && InState(w, t.vault, CoolingOff)
  }

  function ClaimStep(w: World, t: Ticket): World {
    if t !in w.tickets || w.clock < t.wakeAt then w
    else
      var w1 := w.(tickets := w.tickets - multiset{t});
      if InState(w, t.vault, CoolingOff) then
        SetState(w1, t.vault, Releasing, None).(performing := w.performing + multiset{t})
      else w1
  }

  /** The statements that close a release once everything is delivered. */
  function CloseStep(w: World, t: Ticket, stop: Stop): World {
    var w1 := SetState(w, t.vault, Released, Some(w.clock));
    if stop == AfterReleased then w1
    else
      var w2 := MarkReleased(w1, t.event);
      if stop == AfterMarked || !t.drill then w2 else SetState(w2, t.vault, Active, None)
  }

  /** perform_release by a ticket that won. */
  function PerformStep(w: World, t: Ticket, stop: Stop): World {
    if t !in w.performing then w
    else
      var rows := Delivery(w, t.event, t.vault, |w.letters|);
      var w1 := w.(performing := w.performing - multiset{t});
      match stop
      case DeliveryFails(k) => w1.(claims := w.claims + Prefix(rows, k))
      case _ => CloseStep(w1.(claims := w.claims + rows), t, stop)
  }

  /** The event of a vault claimed earlier, and with `timer` the begin handler's timer. */
  function InsertEventStep(w: World, v: nat, drill: bool, deadline: Option<int>, timer: bool): World {
    var w1 := CreateEvent(w, v, drill, deadline);
    if timer && deadline.Some? then
      w1.(tickets := w1.tickets + multiset{Ticket(v, |w.events|, drill, deadline.value)})
    else w1
  }

  function PerformWriteStep(w: World, t: Ticket, part: Part): World {
    if t !in w.performing then w
    else
      match part
      case Issue(subject, recipient) => w.(claims := w.claims + [ClaimRow(t.event, subject, recipient, w.clock)])
      case StateReleased => SetState(w, t.vault, Released, Some(w.clock))
      case EventMarked => MarkReleased(w, t.event)
      case StateActive => if t.drill then SetState(w, t.vault, Active, None) else w
  }

  /** The co-steward's trigger of a held event letter: authorise_postmortem on the vault, then
      mark_letter_event_released, then a release event of its own. */
  predicate EventLetterReady(w: World, l: nat) {
    l < |w.letters| && InState(w, w.letters[l].vault, Released)
    && w.letters[l].mode == EventOnDemand && w.letters[l].eventReleasedAt.None?
  }

  function ReleaseEventLetterStep(w: World, l: nat, upTo: EventStop): World {
    if !EventLetterReady(w, l) then w
    else
      var w1 := w.(letters := w.letters[l := w.letters[l].(eventReleasedAt := Some(w.clock))]);
      if upTo.BeforeEvent? then w1
      else
        var e := |w.events|;
        var w2 := CreateEvent(w1, w.letters[l].vault, false, None);
        var rows := LetterClaims(w2, e, l);
        match upTo
        case Partial(k) => w2.(claims := w.claims + Prefix(rows, k))
        case _ => MarkReleased(w2.(claims := w.claims + rows), e)
  }

  function Apply(w: World, s: Step): World {
    match s
    case Advance(seconds) => w.(clock := w.clock + seconds)
    case Begin(v, drill, cool, completes) => BeginStep(w, v, drill, cool, completes)
    case Cancel(v, observed, closes) => CancelStep(w, v, observed, closes)
    case Aggregate(v, observed, frozen, x, completes) => AggregateStep(w, v, observed, frozen, x, completes)
    case DuressEnter(v, observed, completes) => DuressEnterStep(w, v, observed, completes)
    case Poll => w.(tickets := w.tickets + multiset(DueTickets(w, |w.events|)))
    case Claim(t) => ClaimStep(w, t)
    case Perform(t, stop) => PerformStep(w, t, stop)
    case Crash(lost, lostPerforming) =>
      w.(tickets := w.tickets - lost, performing := w.performing - lostPerforming)
    case Arm(p, releases) => w.(duress := w.duress[p := DuressRow(releases, false)])
    case Trigger(p) =>
      if p in w.duress then w.(duress := w.duress[p := w.duress[p].(triggered := true)]) else w
    case Disarm(p) => w.(duress := w.duress - {p})
    case EditVault(v, cool) =>
      if v < |w.vaults| then w.(vaults := w.vaults[v := w.vaults[v].(coolingOffSeconds := cool)]) else w
    case SealLetter(v, mode, recipient, n) =>
      if !InState(w, v, Active) then w
      else w.(letters := w.letters + [LetterRow(v, mode, recipient, None)],
              attachments := w.attachments + seq(n, _ => AttachmentRow(|w.letters|)))
    case EditLetter(l, mode, recipient) =>
      if l < |w.letters| then
        w.(letters := w.letters[l := w.letters[l].(mode := mode, recipient := recipient)])
      else w
    case ReleaseEventLetter(l, upTo) => ReleaseEventLetterStep(w, l, upTo)
    case InsertEvent(v, drill, deadline, timer) => InsertEventStep(w, v, drill, deadline, timer)
    case CloseEvent(e) => MarkCancelled(w, e)
    case PerformWrite(t, part) => PerformWriteStep(w, t, part)
    case PerformEnd(t) => w.(performing := w.performing - multiset{t})
  }

  /** The world after the first `j` steps of a run. */
  function At(w: World, run: seq<Step>, j: nat): World
    requires j <= |run|
  {
    if j == 0 then w else Apply(At(w, run, j - 1), run[j - 1])
  }

  // ---- What a step touches ----

  lemma SetStateTouches(w: World, v: nat, s: VaultState, releasedAt: Option<int>)
    ensures var w' := SetState(w, v, s, releasedAt);
      && w' == w.(vaults := w'.vaults) && |w'.vaults| == |w.vaults|
      && (v < |w.vaults| ==> w'.vaults[v].state == s)
      && forall u :: 0 <= u < |w.vaults| && u != v ==> w'.vaults[u] == w.vaults[u]
  {}

  lemma MarkReleasedTouches(w: World, e: nat)
    ensures var w' := MarkReleased(w, e);
      && w' == w.(events := w'.events) && |w'.events| == |w.events|
      && (e < |w.events| ==> w'.events[e] == w.events[e].(releasedAt := Some(w.clock)))
      && forall f :: 0 <= f < |w.events| && f != e ==> w'.events[f] == w.events[f]
  {}

  /** Where a perform_release that delivered leaves its vault. */
  function Landing(t: Ticket, stop: Stop): VaultState {
    if stop == Done && t.drill then Active else Released
  }

  lemma CloseTouches(w: World, t: Ticket, stop: Stop)
    requires !stop.DeliveryFails?
    ensures var w' := CloseStep(w, t, stop);
      && w' == w.(vaults := w'.vaults, events := w'.events) && |w'.vaults| == |w.vaults|
      && (t.vault < |w.vaults| ==> w'.vaults[t.vault].state == Landing(t, stop))
      && (forall u :: 0 <= u < |w.vaults| && u != t.vault ==> w'.vaults[u] == w.vaults[u])
      && w'.events == if stop == AfterReleased then w.events else MarkReleased(w, t.event).events
  {
    hide SetState, MarkReleased;
    var w1 := SetState(w, t.vault, Released, Some(w.clock));
    SetStateTouches(w, t.vault, Released, Some(w.clock));
    MarkReleasedTouches(w1, t.event);
    MarkReads(w, w1, t.event);
    SetStateTouches(MarkReleased(w1, t.event), t.vault, Active, None);
  }

  lemma MarkReads(w: World, w1: World, e: nat)
    requires w1.events == w.events && w1.clock == w.clock
    ensures MarkReleased(w1, e).events == MarkReleased(w, e).events
  {}

  /** The claims perform_release issues before it stops. */
  function Issued(w: World, t: Ticket, stop: Stop): seq<ClaimRow> {
    var rows := Delivery(w, t.event, t.vault, |w.letters|);
    if stop.DeliveryFails? then Prefix(rows, stop.issued) else rows
  }

  /** perform_release, table by table. */
  lemma PerformTouches(w: World, t: Ticket, stop: Stop)
    requires t in w.performing
    ensures var w' := PerformStep(w, t, stop);
      && w' == w.(vaults := w'.vaults, events := w'.events, claims := w.claims + Issued(w, t, stop),
                  performing := w.performing - multiset{t})
      && |w'.vaults| == |w.vaults|
      && (forall u :: 0 <= u < |w.vaults| && u != t.vault ==> w'.vaults[u] == w.vaults[u])
      && (t.vault < |w.vaults| ==>
            if stop.DeliveryFails? then w'.vaults == w.vaults else w'.vaults[t.vault].state == Landing(t, stop))
      && w'.events == if stop.DeliveryFails? || stop == AfterReleased then w.events
                      else MarkReleased(w, t.event).events
  {
    hide CloseStep, MarkReleased, Delivery, Prefix;
    var w1 := w.(performing := w.performing - multiset{t}, claims := w.claims + Issued(w, t, stop));
    if !stop.DeliveryFails? {
      CloseTouches(w1, t, stop);
      MarkReads(w, w1, t.event);
    }
  }

  /** A claim takes its ticket off the list, and puts it to work if it wins. */
  lemma ClaimTouches(w: World, t: Ticket)
    ensures var w' := ClaimStep(w, t);
      && w' == w.(vaults := w'.vaults, tickets := w'.tickets, performing := w'.performing)
      && (forall u :: u in w'.tickets ==> u in w.tickets)
      && (forall u :: u in w'.performing ==> u in w.performing || (u == t && Wins(w, t)))
  {
    hide SetState;
    SetStateTouches(w.(tickets := w.tickets - multiset{t}), t.vault, Releasing, None);
    assert forall u :: u in w.tickets - multiset{t} ==> u in w.tickets;
    assert forall u :: u in w.performing + multiset{t} ==> u in w.performing || u == t;
  }

  /** The event-letter trigger, table by table. */
  lemma EventLetterTouches(w: World, l: nat, upTo: EventStop)
    requires EventLetterReady(w, l)
    ensures var w' := ReleaseEventLetterStep(w, l, upTo);
      && w' == w.(letters := w.letters[l := w.letters[l].(eventReleasedAt := Some(w.clock))],
                  events := w'.events, claims := w'.claims)
      && (if upTo.BeforeEvent? then w'.events == w.events
          else |w'.events| == |w.events| + 1 && w'.events[..|w.events|] == w.events
               && w'.events[|w.events|].vault == w.letters[l].vault && w'.events[|w.events|].deadline.None?)
  {
    hide LetterClaims, Prefix;
    if !upTo.BeforeEvent? {
      var w1 := w.(letters := w.letters[l := w.letters[l].(eventReleasedAt := Some(w.clock))]);
      var w2 := CreateEvent(w1, w.letters[l].vault, false, None);
      if upTo.Complete? {
        MarkReleasedTouches(w2.(claims := w.claims + LetterClaims(w2, |w.events|, l)), |w.events|);
        hide MarkReleased;
      }
    }
  }

  /** Who may write `x` as the state of vault `v`. */
  predicate Writes(w: World, s: Step, v: nat, x: VaultState) {
    match s
    case Begin(u, _, _, _) => u == v && x == CoolingOff && InState(w, v, Active)
    case Cancel(u, observed, _) => u == v && x == Active && observed == CoolingOff
    case Aggregate(u, observed, frozen, evidence, _) =>
      && u == v && v < |w.vaults| && Watchable(observed) && x == Verdict(observed, evidence) && x != observed
      && (x == CoolingOff ==> InState(w, v, observed) && !frozen)
    case DuressEnter(u, observed, _) => u == v && x == CoolingOff && Watchable(observed) && InState(w, v, observed)
    case Claim(t) => t.vault == v && x == Releasing && Wins(w, t)
    case Perform(t, stop) => t.vault == v && t in w.performing && !stop.DeliveryFails? && x == Landing(t, stop)
    case PerformWrite(t, part) =>
      && t.vault == v && t in w.performing
      && ((x == Released && part == StateReleased) || (x == Active && part == StateActive && t.drill))
    case _ => false
  }

  /** A cancel's and an aggregator's write to a vault do not ask what state it is in; they change any
      state but the one they write. (Nor do the closing writes of perform_release.) */
  predicate Overwrites(s: Step, v: nat) {
    match s
    case Cancel(u, observed, _) => u == v && observed == CoolingOff
    case Aggregate(u, observed, frozen, evidence, _) =>
      && u == v && Watchable(observed)
      && Verdict(observed, evidence) != observed && Verdict(observed, evidence) != CoolingOff
    case _ => false
  }

  /** From `w` to `w'` the state of `v` changes only to an `x` that is written, and if it is. */
  predicate Follows(w: World, w': World, v: nat, x: VaultState, written: bool) {
    && |w'.vaults| == |w.vaults|
    && (v < |w.vaults| && written ==> InState(w', v, x))
    && (InState(w', v, x) ==> InState(w, v, x) || written)
  }

  /** Every change of a vault's state is one of these writes, and every such write takes effect. */
  lemma WhoWrites(w: World, s: Step, v: nat, x: VaultState)
    ensures Follows(w, Apply(w, s), v, x, Writes(w, s, v, x))
  {
    hide BeginStep, CancelStep, AggregateStep, DuressEnterStep, ClaimStep, PerformStep, PerformWriteStep;
    hide ReleaseEventLetterStep, DueTickets, Verdict, Wins, Landing, InDuress;
    match s
    case Begin(u, drill, cool, completes) => BeginWrites(w, u, drill, cool, completes, v, x);
    case Cancel(u, observed, closes) => CancelWrites(w, u, observed, closes, v, x);
    case Aggregate(u, observed, frozen, evidence, completes) =>
      AggregateWrites(w, u, observed, frozen, evidence, completes, v, x);
    case DuressEnter(u, observed, completes) => DuressWrites(w, u, observed, completes, v, x);
    case Claim(t) => ClaimWrites(w, t, v, x);
    case Perform(t, stop) => PerformWrites(w, t, stop, v, x);
    case ReleaseEventLetter(l, upTo) => EventLetterWrites(w, l, upTo, v, x);
    case PerformWrite(t, part) => PerformWriteWrites(w, t, part, v, x);
    case _ => OthersWriteNothing(w, s);
  }

  lemma OthersWriteNothing(w: World, s: Step)
    requires !s.Begin? && !s.Cancel? && !s.Aggregate? && !s.DuressEnter? && !s.Claim? && !s.Perform?
    requires !s.ReleaseEventLetter? && !s.PerformWrite?
    ensures |Apply(w, s).vaults| == |w.vaults|
    ensures forall v :: 0 <= v < |w.vaults| ==> Apply(w, s).vaults[v].state == w.vaults[v].state
  {
    hide DueTickets;
  }

  lemma BeginWrites(w: World, u: nat, drill: bool, cool: int, completes: bool, v: nat, x: VaultState)
    ensures Follows(w, BeginStep(w, u, drill, cool, completes), v, x,
                    Writes(w, Begin(u, drill, cool, completes), v, x))
  {}

  lemma CancelWrites(w: World, u: nat, observed: VaultState, closes: bool, v: nat, x: VaultState)
    ensures Follows(w, CancelStep(w, u, observed, closes), v, x, Writes(w, Cancel(u, observed, closes), v, x))
  {
    hide NewestOpen;
  }

  lemma AggregateWrites(w: World, u: nat, observed: VaultState, frozen: bool, evidence: Evidence, completes: bool,
        v: nat, x: VaultState)
    ensures Follows(w, AggregateStep(w, u, observed, frozen, evidence, completes), v, x,
                    Writes(w, Aggregate(u, observed, frozen, evidence, completes), v, x))
  {
    hide Verdict, InDuress;
  }

  lemma DuressWrites(w: World, u: nat, observed: VaultState, completes: bool, v: nat, x: VaultState)
    ensures Follows(w, DuressEnterStep(w, u, observed, completes), v, x,
                    Writes(w, DuressEnter(u, observed, completes), v, x))
  {}

  lemma ClaimWrites(w: World, t: Ticket, v: nat, x: VaultState)
    ensures Follows(w, ClaimStep(w, t), v, x, Writes(w, Claim(t), v, x))
  {}

  lemma PerformWrites(w: World, t: Ticket, stop: Stop, v: nat, x: VaultState)
    ensures Follows(w, PerformStep(w, t, stop), v, x, Writes(w, Perform(t, stop), v, x))
  {
    if t in w.performing {
      PerformTouches(w, t, stop);
      hide PerformStep, MarkReleased, Issued, Landing;
    } else {
      hide CloseStep;
    }
  }

  lemma EventLetterWrites(w: World, l: nat, upTo: EventStop, v: nat, x: VaultState)
    ensures Follows(w, ReleaseEventLetterStep(w, l, upTo), v, x, Writes(w, ReleaseEventLetter(l, upTo), v, x))
  {
    if EventLetterReady(w, l) {
      EventLetterTouches(w, l, upTo);
      hide ReleaseEventLetterStep;
    }
  }

  lemma PerformWriteWrites(w: World, t: Ticket, part: Part, v: nat, x: VaultState)
    ensures Follows(w, PerformWriteStep(w, t, part), v, x, Writes(w, PerformWrite(t, part), v, x))
  {}

  // ---- Events only ever close ----

  /** What an event was recorded with stays; once closed it stays closed, once cancelled so too. */
  predicate KeepsEvent(row: EventRow, row': EventRow) {
    && row'.vault == row.vault && row'.drill == row.drill && row'.deadline == row.deadline
    && (row'.Open() ==> row.Open())
    && (row.cancelledAt.Some? ==> row'.cancelledAt == row.cancelledAt)
  }

  predicate KeepsEvents(es: seq<EventRow>, es': seq<EventRow>) {
    |es| <= |es'| && forall e :: 0 <= e < |es| ==> KeepsEvent(es[e], es'[e])
  }

  lemma MarkCancelledTouches(w: World, e: nat)
    ensures var w' := MarkCancelled(w, e);
      && w' == w.(events := w'.events) && |w'.events| == |w.events|
      && (e < |w.events| && w.events[e].Open() ==> w'.events[e].cancelledAt.Some?)
      && KeepsEvents(w.events, w'.events)
  {}

  lemma CancelTouches(w: World, v: nat, observed: VaultState, closes: bool)
    ensures var w' := CancelStep(w, v, observed, closes);
      && w' == w.(vaults := w'.vaults, events := w'.events) && |w'.events| == |w.events|
      && KeepsEvents(w.events, w'.events)
  {
    hide MarkCancelled, SetState, NewestOpen;
    if v < |w.vaults| && observed == CoolingOff {
      var w1 := SetState(w, v, Active, None);
      SetStateTouches(w, v, Active, None);
      var found := NewestOpen(w1, v, |w1.events|);
      if found.Some? {
        MarkCancelledTouches(w1, found.value);
      }
    }
  }

  lemma MarkReleasedKeeps(w: World, e: nat)
    ensures KeepsEvents(w.events, MarkReleased(w, e).events)
  {
    MarkReleasedTouches(w, e);
  }

  lemma PerformKeepsEvents(w: World, t: Ticket, stop: Stop)
    ensures KeepsEvents(w.events, PerformStep(w, t, stop).events)
  {
    if t in w.performing {
      PerformTouches(w, t, stop);
      MarkReleasedKeeps(w, t.event);
      hide PerformStep, MarkReleased, Issued;
    } else {
      assert PerformStep(w, t, stop) == w;
    }
  }

  lemma EventLetterKeepsEvents(w: World, l: nat, upTo: EventStop)
    ensures KeepsEvents(w.events, ReleaseEventLetterStep(w, l, upTo).events)
  {
    var w' := ReleaseEventLetterStep(w, l, upTo);
    if EventLetterReady(w, l) {
      EventLetterTouches(w, l, upTo);
      hide ReleaseEventLetterStep;
      assert forall e :: 0 <= e < |w.events| ==> w'.events[e] == w'.events[..|w.events|][e] == w.events[e] || w' == w;
    } else {
      assert w' == w;
    }
  }

  lemma EntryKeepsEvents(w: World, s: Step)
    requires s.Begin? || s.Aggregate? || s.DuressEnter? || s.InsertEvent?
    ensures w.events <= Apply(w, s).events
  {
    hide Verdict, InDuress;
  }

  lemma PartKeepsEvents(w: World, t: Ticket, part: Part)
    ensures KeepsEvents(w.events, PerformWriteStep(w, t, part).events)
  {
    MarkReleasedKeeps(w, t.event);
    hide MarkReleased;
  }

  /** Of any step. */
  lemma StepKeepsEvents(w: World, s: Step)
    ensures KeepsEvents(w.events, Apply(w, s).events)
  {
    hide KeepsEvents, BeginStep, CancelStep, AggregateStep, DuressEnterStep, ClaimStep, PerformStep;
    hide PerformWriteStep, ReleaseEventLetterStep, DueTickets, InsertEventStep, MarkCancelled;
    match s
    case Begin(_, _, _, _) => PrefixKeeps(w.events, Apply(w, s).events) by { EntryKeepsEvents(w, s); }
    case Aggregate(_, _, _, _, _) => PrefixKeeps(w.events, Apply(w, s).events) by { EntryKeepsEvents(w, s); }
    case DuressEnter(_, _, _) => PrefixKeeps(w.events, Apply(w, s).events) by { EntryKeepsEvents(w, s); }
    case InsertEvent(_, _, _, _) => PrefixKeeps(w.events, Apply(w, s).events) by { EntryKeepsEvents(w, s); }
    case Cancel(v, observed, closes) => CancelTouches(w, v, observed, closes);
    case CloseEvent(e) => MarkCancelledTouches(w, e);
    case Claim(t) =>
      ClaimTouches(w, t);
      PrefixKeeps(w.events, w.events);
    case Perform(t, stop) => PerformKeepsEvents(w, t, stop);
    case PerformWrite(t, part) => PartKeepsEvents(w, t, part);
    case ReleaseEventLetter(l, upTo) => EventLetterKeepsEvents(w, l, upTo);
    case _ => PrefixKeeps(w.events, w.events);
  }

  lemma PrefixKeeps(es: seq<EventRow>, es': seq<EventRow>)
    requires es <= es'
    ensures KeepsEvents(es, es')
  {}

  /** The world after the first `j + 1` steps. */
  lemma NextWorld(w: World, run: seq<Step>, j: nat)
    requires j < |run|
    ensures At(w, run, j + 1) == Apply(At(w, run, j), run[j])
  {}

  lemma {:induction false} RunKeepsEvents(w: World, run: seq<Step>, i: nat, j: nat)
    requires i <= j <= |run|
    ensures KeepsEvents(At(w, run, i).events, At(w, run, j).events)
  {
    hide Apply, KeepsEvents;
    if i == j {
      PrefixKeeps(At(w, run, i).events, At(w, run, i).events);
    } else {
      RunKeepsEvents(w, run, i, j - 1);
      StepKeepsEvents(At(w, run, j - 1), run[j - 1]);
      KeepsTrans(At(w, run, i).events, At(w, run, j - 1).events, At(w, run, j).events);
    }
  }

  lemma KeepsTrans(es: seq<EventRow>, es1: seq<EventRow>, es2: seq<EventRow>)
    requires KeepsEvents(es, es1) && KeepsEvents(es1, es2)
    ensures KeepsEvents(es, es2)
  {}
}
