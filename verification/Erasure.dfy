/**
 Erasure: the retention worker's two sweeps (crates/beacon-api/src/scheduler.rs:748-804) against
 authoring, subscription changes and account-deletion requests. One worker; each of its database
 statements is a step, its row lists are snapshots, and it may crash (or fail) between any two.
 A handler that seals checks the subscription once and inserts later: `Seal` is one that nobody
 interrupts, `InsertLetter` and `Attach` are inserts of one whose check may be long past.
 Row ids come from one counter and are never reused. `erasedUpTo` is history: the counter when the
 sweep that anonymised the account set out.
 */
module Erasure {
  import opened Domain

  type Bytes = seq<nat>

  const THIRTY_DAYS: int := 30 * 24 * 60 * 60

  datatype Letter = Letter(vault: nat, ciphertext: Bytes, nonce: Bytes, drillCiphertext: Bytes, drillNonce: Bytes)

  datatype Subscription = Subscription(state: SubscriptionState, retentionUntil: Option<int>)

  datatype Account = Account(requestedAt: Option<int>, scheduledFor: Option<int>, erasedUpTo: Option<nat>)

  datatype Kind = Retention | AccountDeletion

  /** The letter at hand and the attachments listed for it. */
  datatype Hand = Hand(letter: nat, attachments: set<nat>)

  datatype Stage = Fresh | Walking(vaults: set<nat>, letters: set<nat>, hand: Option<Hand>)

  /** One principal's purge, set out on when the id counter stood at `born`. */
  datatype Job = Job(principal: nat, born: nat, stage: Stage)

  datatype Worker = Asleep | Sweep(kind: Kind, due: set<nat>, job: Option<Job>)

  /** Owner of each vault, letters, and the letter of each attachment. */
  datatype Data = Data(vaults: map<nat, nat>, letters: map<nat, Letter>, attachments: map<nat, nat>)

  datatype World = World(
    clock: int,
    next: nat,
    subs: map<nat, Subscription>,
    accounts: map<nat, Account>,
    d: Data,
    worker: Worker
  )

  datatype Step =
    | Elapse(seconds: nat)
    | CreateVault(principal: nat)
    | Seal(content: Letter, files: nat)
    | InsertLetter(content: Letter)
    | Attach(letter: nat)
    | DeleteLetter(letter: nat)
    | CancelSubscription(principal: nat, retentionDays: int)
    | Reactivate(principal: nat)
    | RequestDeletion(principal: nat)
    | CancelDeletion(principal: nat)
    | Wake
    | Take(principal: nat)
    | ListVaults
    | PickVault(vault: nat)
    | PickLetter(letter: nat)
    | PurgeAttachment(attachment: nat)
    | PurgeLetter
    | Done
    | NextSweep
    | Crash

  // ---- Statements ----

  function Blanked(l: Letter): Letter {
    Letter(l.vault, [], [], [], [])
  }

  function VaultsOf(d: Data, p: nat): set<nat> {
    set v | v in d.vaults && d.vaults[v] == p
  }

  function LettersOf(d: Data, v: nat): set<nat> {
    set l | l in d.letters && d.letters[l].vault == v
  }

  function AttachmentsOf(d: Data, l: nat): set<nat> {
    set a | a in d.attachments && d.attachments[a] == l
  }

  predicate MayAuthor(w: World, p: nat) {
    p in w.subs && AllowsAuthoring(w.subs[p].state)
  }

  /** CANCELED subscriptions whose retention window is over. */
  function PastRetention(subs: map<nat, Subscription>, clock: int): set<nat> {
    set p | p in subs && subs[p].state == Canceled && subs[p].retentionUntil.Some?
            && subs[p].retentionUntil.value <= clock
  }

  function DueDeletions(accounts: map<nat, Account>, clock: int): set<nat> {
    set p | p in accounts && accounts[p].scheduledFor.Some? && accounts[p].scheduledFor.value <= clock
  }

  predicate DeletionDue(w: World, p: nat) {
    p in DueDeletions(w.accounts, w.clock)
  }

  function SetState(w: World, p: nat, from: SubscriptionState, to: SubscriptionState): World {
    if p in w.subs && w.subs[p].state == from then w.(subs := w.subs[p := w.subs[p].(state := to)]) else w
  }

  // ---- Authoring and account steps ----

  function WithFiles(attachments: map<nat, nat>, letter: nat, from: nat, files: nat): map<nat, nat>
    decreases files
  {
    if files == 0 then attachments else WithFiles(attachments[from := letter], letter, from + 1, files - 1)
  }

  predicate MaySeal(w: World, v: nat) {
    v in w.d.vaults && MayAuthor(w, w.d.vaults[v])
  }

  function SealStep(w: World, content: Letter, files: nat): World {
    if MaySeal(w, content.vault) then
      w.(d := w.d.(letters := w.d.letters[w.next := content],
                   attachments := WithFiles(w.d.attachments, w.next, w.next + 1, files)),
         next := w.next + 1 + files)
    else w
  }

  function InsertStep(w: World, content: Letter): World {
    if content.vault in w.d.vaults
    then w.(d := w.d.(letters := w.d.letters[w.next := content]), next := w.next + 1)
    else w
  }

  function AttachStep(w: World, l: nat): World {
    if l in w.d.letters
    then w.(d := w.d.(attachments := w.d.attachments[w.next := l]), next := w.next + 1)
    else w
  }

  function WithoutLetter(d: Data, l: nat): Data {
    d.(letters := d.letters - {l}, attachments := d.attachments - AttachmentsOf(d, l))
  }

  function CancelStep(w: World, p: nat, days: int): World {
    if p in w.subs then w.(subs := w.subs[p := Subscription(Canceled, Some(w.clock + days * 86400))]) else w
  }

  function ReactivateStep(w: World, p: nat): World {
    if p in w.subs && w.subs[p].state == Canceled then w.(subs := w.subs[p := Subscription(Subscribed, None)]) else w
  }

  function RequestStep(w: World, p: nat): World {
    if p in w.accounts then
      var a := w.accounts[p];
      w.(accounts := w.accounts[p := a.(requestedAt := if a.requestedAt.Some? then a.requestedAt else Some(w.clock),
                                        scheduledFor := if a.scheduledFor.Some? then a.scheduledFor
                                                        else Some(w.clock + THIRTY_DAYS))])
    else w
  }

  function CancelDeletionStep(w: World, p: nat): World {
    if p in w.accounts && w.accounts[p].scheduledFor.Some? && w.accounts[p].scheduledFor.value > w.clock then
      w.(accounts := w.accounts[p := w.accounts[p].(requestedAt := None, scheduledFor := None)])
    else w
  }

  // ---- Worker steps ----

  function SetJob(w: World, job: Option<Job>): World
    requires w.worker.Sweep?
  {
    w.(worker := w.worker.(job := job))
  }

  function SetStage(w: World, stage: Stage): World
    requires Working(w)
  {
    SetJob(w, Some(w.worker.job.value.(stage := stage)))
  }

  predicate Working(w: World) {
    w.worker.Sweep? && w.worker.job.Some?
  }

  predicate Walk(w: World) {
    Working(w) && w.worker.job.value.stage.Walking?
  }

  function TakeStep(w: World, p: nat): World {
    if w.worker.Sweep? && w.worker.job.None? && p in w.worker.due then
      var w1 := w.(worker := w.worker.(due := w.worker.due - {p}, job := Some(Job(p, w.next, Fresh))));
      if w.worker.kind == Retention then SetState(w1, p, Canceled, Expired) else w1
    else w
  }

  function ListVaultsStep(w: World): World {
    if Working(w) && w.worker.job.value.stage.Fresh? then
      SetStage(w, Walking(VaultsOf(w.d, w.worker.job.value.principal), {}, None))
    else w
  }

  function PickVaultStep(w: World, v: nat): World {
    if Walk(w) then
      var s := w.worker.job.value.stage;
      if s.letters == {} && s.hand.None? && v in s.vaults
      then SetStage(w, Walking(s.vaults - {v}, LettersOf(w.d, v), None))
      else w
    else w
  }

  function PickLetterStep(w: World, l: nat): World {
    if Walk(w) then
      var s := w.worker.job.value.stage;
      if s.hand.None? && l in s.letters
      then SetStage(w, s.(letters := s.letters - {l}, hand := Some(Hand(l, AttachmentsOf(w.d, l)))))
      else w
    else w
  }

  function PurgeAttachmentStep(w: World, a: nat): World {
    if Walk(w) then
      var s := w.worker.job.value.stage;
      if s.hand.Some? && a in s.hand.value.attachments then
        SetStage(w, s.(hand := Some(s.hand.value.(attachments := s.hand.value.attachments - {a}))))
          .(d := w.d.(attachments := w.d.attachments - {a}))
      else w
    else w
  }

  function WithBlanked(d: Data, l: nat): Data {
    if l in d.letters then d.(letters := d.letters[l := Blanked(d.letters[l])]) else d
  }

  function PurgeLetterStep(w: World): World {
    if Walk(w) then
      var s := w.worker.job.value.stage;
      if s.hand.Some? && s.hand.value.attachments == {} then
        var l := s.hand.value.letter;
        SetStage(w, s.(hand := None))
          .(d := WithBlanked(w.d, l))
      else w
    else w
  }

  /** The purge is through: delete the subscription, or anonymise the account. */
  function DoneStep(w: World): World {
    if Walk(w) && w.worker.job.value.stage == Walking({}, {}, None) then
      var p := w.worker.job.value.principal;
      var w1 := SetJob(w, None);
      if w.worker.kind == Retention then SetState(w1, p, Expired, Deleted)
      else if p in w.accounts then w1.(accounts := w.accounts[p := Account(None, None, Some(w.worker.job.value.born))])
      else w1
    else w
  }

  function NextSweepStep(w: World): World {
    if w.worker.Sweep? && w.worker.due == {} && w.worker.job.None? then
      w.(worker := if w.worker.kind == Retention
                   then Sweep(AccountDeletion, DueDeletions(w.accounts, w.clock), None) else Asleep)
    else w
  }

  function Apply(w: World, s: Step): World {
    match s
    case Elapse(seconds) => w.(clock := w.clock + seconds)
    case CreateVault(p) => w.(d := w.d.(vaults := w.d.vaults[w.next := p]), next := w.next + 1)
    case Seal(content, files) => SealStep(w, content, files)
    case InsertLetter(content) => InsertStep(w, content)
    case Attach(l) => AttachStep(w, l)
    case DeleteLetter(l) => w.(d := WithoutLetter(w.d, l))
    case CancelSubscription(p, days) => CancelStep(w, p, days)
    case Reactivate(p) => ReactivateStep(w, p)
    case RequestDeletion(p) => RequestStep(w, p)
    case CancelDeletion(p) => CancelDeletionStep(w, p)
    case Wake => if w.worker.Asleep? then w.(worker := Sweep(Retention, PastRetention(w.subs, w.clock), None)) else w
    case Take(p) => TakeStep(w, p)
    case ListVaults => ListVaultsStep(w)
    case PickVault(v) => PickVaultStep(w, v)
    case PickLetter(l) => PickLetterStep(w, l)
    case PurgeAttachment(a) => PurgeAttachmentStep(w, a)
    case PurgeLetter => PurgeLetterStep(w)
    case Done => DoneStep(w)
    case NextSweep => NextSweepStep(w)
    case Crash => w.(worker := Asleep)
  }

  function After(w: World, run: seq<Step>): World {
    if run == [] then w else Apply(After(w, run[..|run| - 1]), run[|run| - 1])
  }

  // ---- Invariant ----

  /** Nothing of the letter is left but its row. */
  ghost predicate Erased(d: Data, l: nat) {
    l in d.letters ==> d.letters[l] == Blanked(d.letters[l]) && forall a :: a in d.attachments ==> d.attachments[a] != l
  }

  ghost predicate Owns(d: Data, p: nat, l: nat) {
    l in d.letters && d.letters[l].vault in d.vaults && d.vaults[d.letters[l].vault] == p
  }

  ghost predicate ErasedBelow(d: Data, p: nat, bound: nat) {
    forall l: nat :: Owns(d, p, l) && l < bound ==> Erased(d, l)
  }

  ghost predicate FullyErased(d: Data, p: nat) {
    forall l: nat :: Owns(d, p, l) ==> Erased(d, l)
  }

  ghost predicate IdsGood(d: Data, next: nat) {
    && (forall v :: v in d.vaults ==> v < next)
    && (forall l :: l in d.letters ==> l < next && d.letters[l].vault in d.vaults)
    && (forall a :: a in d.attachments ==> a < next && d.attachments[a] in d.letters)
  }

  /** What the walk still has before it belongs to its principal. */
  ghost predicate ScopeGood(d: Data, next: nat, p: nat, s: Stage) {
    s.Walking? ==>
      && (forall v :: v in s.vaults ==> v in d.vaults && d.vaults[v] == p)
      && (forall l :: l in s.letters ==> LetterInScope(d, next, p, l))
      && (s.hand.Some? ==> LetterInScope(d, next, p, s.hand.value.letter))
      && (s.hand.Some? ==> forall a :: a in s.hand.value.attachments ==>
            AttachmentInScope(d, next, s.hand.value.letter, a))
  }

  ghost predicate LetterInScope(d: Data, next: nat, p: nat, l: nat) {
    l < next && (l in d.letters ==> Owns(d, p, l))
  }

  ghost predicate AttachmentInScope(d: Data, next: nat, l: nat, a: nat) {
    a < next && (a in d.attachments ==> d.attachments[a] == l)
  }

  /** Still before the walk. */
  ghost predicate Ahead(d: Data, s: Stage, l: nat)
    requires l in d.letters
  {
    || s.Fresh?
    || d.letters[l].vault in s.vaults
    || l in s.letters
    || (s.hand.Some? && s.hand.value.letter == l
        && forall a :: a in d.attachments && d.attachments[a] == l ==> a in s.hand.value.attachments)
  }

  ghost predicate Coverage(d: Data, p: nat, born: nat, s: Stage) {
    forall l: nat :: Owns(d, p, l) && l < born ==> Erased(d, l) || Ahead(d, s, l)
  }

  ghost predicate JobGood(d: Data, next: nat, j: Job, reach: nat) {
    ScopeGood(d, next, j.principal, j.stage) && j.born <= next && Coverage(d, j.principal, reach, j.stage)
  }

  /** What one sweep owes one principal: of a DELETED subscription's letters nothing is left, of an
      anonymised account's nothing that it had when the sweep took it. */
  datatype Promise = Promise(principal: nat, sweep: Kind)

  /** The purge under way is the one that has to make it good. */
  predicate Serves(w: World, g: Promise) {
    Working(w) && w.worker.kind == g.sweep && w.worker.job.value.principal == g.principal
  }

  /** The purge under way is that of an expired subscription of `p`. */
  predicate PurgesExpired(w: World, p: nat) {
    Serves(w, Promise(p, Retention)) && SubIn(w.subs, p, Expired)
  }

  /** When the purge under way is through, nothing may be left of the principal's letters with an id
      below this. The retention purge of a principal who reactivated promises nothing. */
  function Reach(w: World, g: Promise): nat
    requires Working(w)
  {
    if !Serves(w, g) then 0
    else if g.sweep == AccountDeletion then w.worker.job.value.born
    else if PurgesExpired(w, g.principal) then w.next
    else 0
  }

  ghost predicate JobsGood(w: World, g: Promise) {
    Working(w) ==> JobGood(w.d, w.next, w.worker.job.value, Reach(w, g))
  }

  predicate SubIn(subs: map<nat, Subscription>, p: nat, state: SubscriptionState) {
    p in subs && subs[p].state == state
  }

  predicate AnonymisedUpTo(accounts: map<nat, Account>, p: nat, bound: nat) {
    p in accounts && accounts[p].erasedUpTo == Some(bound)
  }

  ghost predicate DeletedErased(d: Data, subs: map<nat, Subscription>, g: Promise) {
    g.sweep == Retention && SubIn(subs, g.principal, Deleted) ==> FullyErased(d, g.principal)
  }

  ghost predicate AnonymisedErased(d: Data, accounts: map<nat, Account>, g: Promise) {
    g.sweep == AccountDeletion ==>
      forall bound: nat :: AnonymisedUpTo(accounts, g.principal, bound) ==> ErasedBelow(d, g.principal, bound)
  }

  ghost predicate HistoryGood(w: World) {
    forall p: nat, bound: nat :: AnonymisedUpTo(w.accounts, p, bound) ==> bound <= w.next
  }

  /** The account sweep works on accounts. */
  ghost predicate KnownAccounts(w: World) {
    w.worker.Sweep? && w.worker.kind == AccountDeletion ==>
      && w.worker.due <= w.accounts.Keys
      && (w.worker.job.Some? ==> w.worker.job.value.principal in w.accounts)
  }

  ghost predicate Inv(w: World, g: Promise) {
    && IdsGood(w.d, w.next) && JobsGood(w, g) && KnownAccounts(w) && HistoryGood(w)
    && DeletedErased(w.d, w.subs, g) && AnonymisedErased(w.d, w.accounts, g)
  }

  // ---- Which inserts keep it ----

  /** The walk has yet to list this letter's attachments. */
  predicate StillAhead(d: Data, s: Stage, l: nat)
    requires l in d.letters
  {
    s.Fresh? || d.letters[l].vault in s.vaults || l in s.letters
  }

  /** The letter is another principal's; or no finished erasure covers it, and the purge under way comes
      to it. */
  ghost predicate AttachHarmless(w: World, l: nat, g: Promise)
    requires l in w.d.letters && w.d.letters[l].vault in w.d.vaults
  {
    w.d.vaults[w.d.letters[l].vault] == g.principal ==>
      && (g.sweep == Retention ==> !SubIn(w.subs, g.principal, Deleted))
      && (g.sweep == AccountDeletion ==>
            forall bound: nat :: AnonymisedUpTo(w.accounts, g.principal, bound) ==> bound <= l)
      && (Working(w) && l < Reach(w, g) ==> StillAhead(w.d, w.worker.job.value.stage, l))
  }

  /** A letter with nothing in it, or of another principal, or too late for the account sweep's promise;
      or one whose owner's subscription is not DELETED and, if it is being purged as EXPIRED, whose vault
      the purge has yet to list. */
  predicate InsertHarmless(w: World, content: Letter, g: Promise)
    requires content.vault in w.d.vaults
  {
    || content == Blanked(content)
    || g != Promise(w.d.vaults[content.vault], Retention)
    || (&& !SubIn(w.subs, g.principal, Deleted)
        && (PurgesExpired(w, g.principal) ==>
              w.worker.job.value.stage.Fresh? || content.vault in w.worker.job.value.stage.vaults))
  }

  ghost predicate HarmlessStep(w: World, s: Step, g: Promise)
    requires IdsGood(w.d, w.next)
  {
    match s
    case Attach(l) => l in w.d.letters ==> AttachHarmless(w, l, g)
    case InsertLetter(content) => content.vault in w.d.vaults ==> InsertHarmless(w, content, g)
    case _ => true
  }

  /** Every insert of the run is harmless where it happens, as far as this promise goes. */
  ghost predicate Careful(w: World, run: seq<Step>, g: Promise)
    requires IdsGood(w.d, w.next)
  {
    forall i | 0 <= i < |run| ::
      var w1 := After(w, run[..i]);
      IdsGood(w1.d, w1.next) && HarmlessStep(w1, run[i], g)
  }

  lemma {:induction false} RunKeepsInv(w: World, run: seq<Step>, g: Promise)
    requires Inv(w, g) && Careful(w, run, g)
    ensures Inv(After(w, run), g)
  {
    assert IdsGood(w.d, w.next);
    hide Inv, Apply, HarmlessStep, IdsGood;
    if run != [] {
      var init := run[..|run| - 1];
      CarefulPrefix(w, run, |init|, g);
      RunKeepsInv(w, init, g);
      StepKeepsInv(After(w, init), run[|run| - 1], g);
    }
  }

  lemma CarefulPrefix(w: World, run: seq<Step>, k: nat, g: Promise)
    requires IdsGood(w.d, w.next) && Careful(w, run, g) && k <= |run|
    ensures Careful(w, run[..k], g)
  {
    hide IdsGood, After, HarmlessStep;
    forall i | 0 <= i < k
      ensures var w1 := After(w, run[..k][..i]); IdsGood(w1.d, w1.next) && HarmlessStep(w1, run[..k][i], g)
    {
      assert run[..k][..i] == run[..i];
    }
  }

  /** From `d` to `d1` nothing below `bound` appears, moves or is written, except to be blanked. */
  ghost predicate Kept(d: Data, d1: Data, bound: nat) {
    && (forall v :: v in d.vaults ==> v in d1.vaults && d1.vaults[v] == d.vaults[v])
    && (forall l :: l in d1.letters && l < bound ==>
          l in d.letters && (d1.letters[l] == d.letters[l] || d1.letters[l] == Blanked(d.letters[l])))
    && (forall a :: a in d1.attachments && (a < bound || d1.attachments[a] < bound) ==>
          a in d.attachments && d1.attachments[a] == d.attachments[a])
  }

  lemma KeptLetter(d: Data, d1: Data, bound: nat, p: nat, l: nat)
    requires Kept(d, d1, bound) && IdsGood(d, bound) && l < bound && Owns(d1, p, l)
    ensures Owns(d, p, l)
    ensures Erased(d, l) ==> Erased(d1, l)
    ensures forall s :: Ahead(d, s, l) ==> Ahead(d1, s, l)
  {
    assert forall a :: a in d1.attachments && d1.attachments[a] == l ==> a in d.attachments && d.attachments[a] == l;
  }

  lemma KeptBelow(d: Data, d1: Data, next: nat, p: nat, bound: nat)
    requires Kept(d, d1, next) && IdsGood(d, next) && bound <= next && ErasedBelow(d, p, bound)
    ensures ErasedBelow(d1, p, bound)
  {
    hide Owns, Erased, Kept, IdsGood;
    forall l: nat | Owns(d1, p, l) && l < bound
      ensures Erased(d1, l)
    {
      KeptLetter(d, d1, next, p, l);
    }
  }

  lemma KeptScope(d: Data, d1: Data, next: nat, next1: nat, p: nat, s: Stage)
    requires Kept(d, d1, next) && IdsGood(d, next) && next <= next1 && ScopeGood(d, next, p, s)
    ensures ScopeGood(d1, next1, p, s)
  {}

  lemma KeptCoverage(d: Data, d1: Data, next: nat, p: nat, reach: nat, s: Stage)
    requires Kept(d, d1, next) && IdsGood(d, next) && Coverage(d, p, reach, s)
    ensures forall l: nat :: Owns(d1, p, l) && l < reach && l < next ==> Erased(d1, l) || Ahead(d1, s, l)
  {
    hide Erased, Ahead, Kept, IdsGood;
    forall l: nat | Owns(d1, p, l) && l < reach && l < next
      ensures Erased(d1, l) || Ahead(d1, s, l)
    {
      KeptLetter(d, d1, next, p, l);
    }
  }

  /** Whatever letter of the principal is new is empty, or the subscription is not DELETED and no purge
      misses the letter. */
  ghost predicate NewFine(w: World, d1: Data, g: Promise) {
    g.sweep == Retention ==>
      forall l: nat :: Owns(d1, g.principal, l) && l >= w.next ==> Erased(d1, l) || NewAllowed(w, d1, g.principal, l)
  }

  ghost predicate NewAllowed(w: World, d1: Data, p: nat, l: nat)
    requires l in d1.letters
  {
    && !SubIn(w.subs, p, Deleted)
    && (PurgesExpired(w, p) ==> Ahead(d1, w.worker.job.value.stage, l))
  }

  /** Authoring and deleting letters keep the invariant, whatever the worker is at. */
  lemma AuthoringKeepsInv(w: World, d1: Data, next1: nat, g: Promise)
    requires Inv(w, g) && Kept(w.d, d1, w.next) && w.next <= next1 && IdsGood(d1, next1) && NewFine(w, d1, g)
    ensures Inv(w.(d := d1, next := next1), g)
  {
    hide Owns, Erased, Ahead, Kept, IdsGood, JobGood, ErasedBelow, NewFine, FullyErased, Reach;
    var w1 := w.(d := d1, next := next1);
    if Working(w) {
      JobKept(w, d1, next1, g);
    }
    if g.sweep == Retention && SubIn(w.subs, g.principal, Deleted) {
      DeletedKept(w, d1, g);
    }
    forall bound: nat | g.sweep == AccountDeletion && AnonymisedUpTo(w.accounts, g.principal, bound)
      ensures ErasedBelow(d1, g.principal, bound)
    {
      KeptBelow(w.d, d1, w.next, g.principal, bound);
    }
  }

  lemma JobKept(w: World, d1: Data, next1: nat, g: Promise)
    requires Working(w) && JobGood(w.d, w.next, w.worker.job.value, Reach(w, g)) && IdsGood(w.d, w.next)
    requires Kept(w.d, d1, w.next) && w.next <= next1 && NewFine(w, d1, g)
    ensures JobGood(d1, next1, w.worker.job.value, Reach(w.(d := d1, next := next1), g))
  {
    var j := w.worker.job.value;
    KeptScope(w.d, d1, w.next, next1, j.principal, j.stage);
    KeptCoverage(w.d, d1, w.next, j.principal, Reach(w, g), j.stage);
    hide Owns, Erased, Ahead, Kept, IdsGood, ScopeGood;
    forall l: nat | Owns(d1, j.principal, l) && l < Reach(w.(d := d1, next := next1), g)
      ensures Erased(d1, l) || Ahead(d1, j.stage, l)
    {
      if l >= w.next {
        assert PurgesExpired(w, j.principal);
      }
    }
  }

  lemma DeletedKept(w: World, d1: Data, g: Promise)
    requires Kept(w.d, d1, w.next) && IdsGood(w.d, w.next) && NewFine(w, d1, g)
    requires g.sweep == Retention && SubIn(w.subs, g.principal, Deleted) && FullyErased(w.d, g.principal)
    ensures FullyErased(d1, g.principal)
  {
    hide Owns, Erased, Ahead, Kept, IdsGood;
    forall l: nat | Owns(d1, g.principal, l)
      ensures Erased(d1, l)
    {
      if l < w.next {
        KeptLetter(w.d, d1, w.next, g.principal, l);
      }
    }
  }

  lemma CreateKeepsInv(w: World, p: nat, g: Promise)
    requires Inv(w, g)
    ensures Inv(Apply(w, CreateVault(p)), g)
  {
    hide JobsGood, DeletedErased, AnonymisedErased, NewAllowed, Erased;
    var d1 := w.d.(vaults := w.d.vaults[w.next := p]);
    assert Kept(w.d, d1, w.next) && NewFine(w, d1, g);
    hide Inv;
    AuthoringKeepsInv(w, d1, w.next + 1, g);
  }

  lemma {:induction false} FilesShape(attachments: map<nat, nat>, letter: nat, from: nat, files: nat, a: nat)
    ensures var m := WithFiles(attachments, letter, from, files);
      && (a in m <==> (a in attachments || from <= a < from + files))
      && (a in m ==> m[a] == if from <= a < from + files then letter else attachments[a])
    decreases files
  {
    if files > 0 {
      FilesShape(attachments[from := letter], letter, from + 1, files - 1, a);
    }
  }

  lemma SealShape(w: World, content: Letter, files: nat)
    requires IdsGood(w.d, w.next)
    ensures var w1 := SealStep(w, content, files);
      Kept(w.d, w1.d, w.next) && IdsGood(w1.d, w1.next) && w.next <= w1.next
  {
    hide IdsGood, Kept, WithFiles;
    var w1 := SealStep(w, content, files);
    if MaySeal(w, content.vault) {
      forall a: nat
        ensures (a in w1.d.attachments <==> (a in w.d.attachments || w.next < a < w1.next))
        ensures a in w1.d.attachments ==>
          w1.d.attachments[a] == if w.next < a < w1.next then w.next else w.d.attachments[a]
      {
        FilesShape(w.d.attachments, w.next, w.next + 1, files, a);
      }
      SealedKept(w.d, w1.d, w.next, w1.next, content);
      SealedIds(w.d, w1.d, w.next, w1.next, content);
    } else {
      SameKept(w);
    }
  }

  /** `d1` has one letter more, under `next`, and its files, from there to `next1`. */
  ghost predicate Sealed(d: Data, d1: Data, next: nat, next1: nat, content: Letter) {
    && next < next1 && content.vault in d.vaults && d1.vaults == d.vaults && d1.letters == d.letters[next := content]
    && (forall a: nat :: a in d1.attachments <==> (a in d.attachments || next < a < next1))
    && (forall a: nat :: a in d1.attachments ==>
          d1.attachments[a] == if next < a < next1 then next else d.attachments[a])
  }

  lemma SealedKept(d: Data, d1: Data, next: nat, next1: nat, content: Letter)
    requires IdsGood(d, next) && Sealed(d, d1, next, next1, content)
    ensures Kept(d, d1, next)
  {}

  lemma SealedIds(d: Data, d1: Data, next: nat, next1: nat, content: Letter)
    requires IdsGood(d, next) && Sealed(d, d1, next, next1, content)
    ensures IdsGood(d1, next1)
  {}

  lemma SealKeepsInv(w: World, content: Letter, files: nat, g: Promise)
    requires Inv(w, g)
    ensures Inv(SealStep(w, content, files), g)
  {
    var w1 := SealStep(w, content, files);
    if MaySeal(w, content.vault) {
      SealShape(w, content, files);
      hide JobsGood, DeletedErased, AnonymisedErased, WithFiles, Erased, Ahead, Kept;
      forall l: nat | Owns(w1.d, g.principal, l) && l >= w.next
        ensures NewAllowed(w, w1.d, g.principal, l)
      {
        assert l == w.next && MayAuthor(w, g.principal);
      }
      hide Inv, Owns, IdsGood, NewAllowed;
      AuthoringKeepsInv(w, w1.d, w1.next, g);
    }
  }

  lemma InsertKeepsInv(w: World, content: Letter, g: Promise)
    requires Inv(w, g) && (content.vault in w.d.vaults ==> InsertHarmless(w, content, g))
    ensures Inv(InsertStep(w, content), g)
  {
    if content.vault in w.d.vaults {
      hide JobsGood, DeletedErased, AnonymisedErased;
      var w1 := InsertStep(w, content);
      assert Kept(w.d, w1.d, w.next) && IdsGood(w1.d, w1.next);
      forall l: nat | g.sweep == Retention && Owns(w1.d, g.principal, l) && l >= w.next
        ensures Erased(w1.d, l) || NewAllowed(w, w1.d, g.principal, l)
      {
        assert l == w.next;
      }
      hide Inv, Erased, NewAllowed;
      AuthoringKeepsInv(w, w1.d, w1.next, g);
    }
  }

  lemma DeleteLetterKeepsInv(w: World, l: nat, g: Promise)
    requires Inv(w, g)
    ensures Inv(w.(d := WithoutLetter(w.d, l)), g)
  {
    hide JobsGood, DeletedErased, AnonymisedErased, Erased, NewAllowed;
    var d1 := WithoutLetter(w.d, l);
    assert Kept(w.d, d1, w.next) && IdsGood(d1, w.next) && NewFine(w, d1, g);
    hide Inv;
    AuthoringKeepsInv(w, d1, w.next, g);
  }

  // ---- A late attachment ----

  function WithAttachment(d: Data, a: nat, l: nat): Data {
    d.(attachments := d.attachments[a := l])
  }

  /** Nothing changes but for the letter it belongs to, which now has something left to erase. */
  lemma AttachedFacts(d: Data, next: nat, l: nat, k: nat)
    requires IdsGood(d, next) && l in d.letters
    ensures var d1 := WithAttachment(d, next, l);
      && (forall p: nat :: Owns(d1, p, k) <==> Owns(d, p, k))
      && (Erased(d1, k) <==> Erased(d, k) && k != l)
  {
    var d1 := WithAttachment(d, next, l);
    if k == l {
      assert next in d1.attachments && d1.attachments[next] == l;
    } else {
      assert forall a :: a in d1.attachments && d1.attachments[a] == k <==> a in d.attachments && d.attachments[a] == k;
    }
  }

  lemma AttachedAhead(d: Data, next: nat, p: nat, s: Stage, l: nat, k: nat)
    requires IdsGood(d, next) && ScopeGood(d, next, p, s) && l in d.letters && k in d.letters
    ensures var d1 := WithAttachment(d, next, l);
      Ahead(d1, s, k) <==> if k == l then StillAhead(d, s, k) else Ahead(d, s, k)
  {
    var d1 := WithAttachment(d, next, l);
    assert k != l ==>
      forall a :: a in d1.attachments && d1.attachments[a] == k <==> a in d.attachments && d.attachments[a] == k;
    if s.Walking? && s.hand.Some? && k == l {
      assert next in s.hand.value.attachments ==> AttachmentInScope(d, next, s.hand.value.letter, next);
      assert next in d1.attachments && d1.attachments[next] == l;
    }
  }

  lemma AttachKeepsJob(w: World, l: nat, g: Promise)
    requires Inv(w, g) && Working(w) && l in w.d.letters
    ensures var w1 := AttachStep(w, l); var p := w.d.vaults[w.d.letters[l].vault];
      JobGood(w1.d, w1.next, w.worker.job.value, Reach(w1, g))
      <==> (w.worker.job.value.principal == p && l < Reach(w, g) ==> StillAhead(w.d, w.worker.job.value.stage, l))
  {
    var w1, j := AttachStep(w, l), w.worker.job.value;
    hide DeletedErased, AnonymisedErased;
    AttachedScope(w.d, w.next, j.principal, j.stage, l);
    assert Owns(w.d, w.d.vaults[w.d.letters[l].vault], l);
    forall k: nat
      ensures forall p: nat :: Owns(w1.d, p, k) <==> Owns(w.d, p, k)
      ensures k < Reach(w1, g) && k in w.d.letters ==> k < w.next
      ensures Erased(w1.d, k) <==> Erased(w.d, k) && k != l
      ensures k in w.d.letters ==>
        (Ahead(w1.d, j.stage, k) <==> if k == l then StillAhead(w.d, j.stage, k) else Ahead(w.d, j.stage, k))
    {
      AttachedFacts(w.d, w.next, l, k);
      if k in w.d.letters {
        AttachedAhead(w.d, w.next, j.principal, j.stage, l, k);
      }
    }
    hide IdsGood, ScopeGood, Erased, Ahead, StillAhead;
  }

  lemma AttachedScope(d: Data, next: nat, p: nat, s: Stage, l: nat)
    requires IdsGood(d, next) && ScopeGood(d, next, p, s) && l in d.letters
    ensures ScopeGood(WithAttachment(d, next, l), next + 1, p, s)
  {}

  /** A late attachment keeps the invariant exactly when it is harmless. */
  lemma AttachKeepsInvIff(w: World, l: nat, g: Promise)
    requires Inv(w, g) && l in w.d.letters
    ensures Inv(AttachStep(w, l), g) <==> AttachHarmless(w, l, g)
  {
    var w1, p := AttachStep(w, l), w.d.vaults[w.d.letters[l].vault];
    if Working(w) {
      AttachKeepsJob(w, l, g);
    }
    assert Owns(w.d, p, l);
    assert IdsGood(w1.d, w1.next);
    forall k: nat
      ensures forall q: nat :: Owns(w1.d, q, k) <==> Owns(w.d, q, k)
      ensures Erased(w1.d, k) <==> Erased(w.d, k) && k != l
    {
      AttachedFacts(w.d, w.next, l, k);
    }
    OnlyOwner(w.d, p, l);
    hide IdsGood, Owns, Erased, JobGood, Reach, StillAhead;
    assert DeletedErased(w1.d, w1.subs, g) <==> !(g == Promise(p, Retention) && SubIn(w.subs, p, Deleted)) by {
      if g == Promise(p, Retention) && SubIn(w.subs, p, Deleted) {
        assert !FullyErased(w1.d, p);
      }
    }
    assert AnonymisedErased(w1.d, w1.accounts, g)
      <==> (g == Promise(p, AccountDeletion) ==>
              forall bound: nat :: AnonymisedUpTo(w.accounts, p, bound) ==> bound <= l);
  }

  lemma OnlyOwner(d: Data, p: nat, l: nat)
    requires Owns(d, p, l)
    ensures forall q: nat :: Owns(d, q, l) ==> q == p
  {}

  /** So does a late letter. */
  lemma InsertKeepsInvIff(w: World, content: Letter, g: Promise)
    requires Inv(w, g) && content.vault in w.d.vaults
    ensures Inv(InsertStep(w, content), g) <==> InsertHarmless(w, content, g)
  {
    if InsertHarmless(w, content, g) {
      InsertKeepsInv(w, content, g);
    } else {
      var w1, p := InsertStep(w, content), w.d.vaults[content.vault];
      assert Owns(w1.d, p, w.next) && !Erased(w1.d, w.next);
      if SubIn(w.subs, p, Deleted) {
        assert !FullyErased(w1.d, p);
      } else {
        MissedLetter(w, content, g);
      }
    }
  }

  lemma MissedLetter(w: World, content: Letter, g: Promise)
    requires Inv(w, g) && content.vault in w.d.vaults && content != Blanked(content)
    requires g == Promise(w.d.vaults[content.vault], Retention) && PurgesExpired(w, g.principal)
    requires var s := w.worker.job.value.stage; !s.Fresh? && content.vault !in s.vaults
    ensures !JobsGood(InsertStep(w, content), g)
  {
    var w1, j := InsertStep(w, content), w.worker.job.value;
    assert JobGood(w.d, w.next, j, Reach(w, g));
    hide DeletedErased, AnonymisedErased;
    assert w.next in j.stage.letters ==> LetterInScope(w.d, w.next, j.principal, w.next);
    assert Owns(w1.d, j.principal, w.next) && !Erased(w1.d, w.next) && !Ahead(w1.d, j.stage, w.next);
    assert !Coverage(w1.d, j.principal, Reach(w1, g), j.stage);
  }

  // ---- The worker's steps ----

  /** Replacing the job, and the data by what it keeps. */
  lemma JobKeepsInv(w: World, d1: Data, j: Job, g: Promise)
    requires Inv(w, g) && Working(w) && Kept(w.d, d1, w.next) && IdsGood(d1, w.next)
    requires JobGood(d1, w.next, j, Reach(w, g))
    requires j.principal == w.worker.job.value.principal && j.born == w.worker.job.value.born
    ensures Inv(SetJob(w, Some(j)).(d := d1), g)
  {
    NothingNew(w, d1, g);
    AuthoringKeepsInv(w, d1, w.next, g);
    hide Owns, Erased, Ahead, Kept, IdsGood, JobGood, ErasedBelow, FullyErased;
  }

  lemma NothingNew(w: World, d1: Data, g: Promise)
    requires IdsGood(d1, w.next)
    ensures NewFine(w, d1, g)
  {}

  lemma SameKept(w: World)
    ensures Kept(w.d, w.d, w.next)
  {}

  lemma TakeKeepsInv(w: World, p: nat, g: Promise)
    requires Inv(w, g)
    ensures Inv(TakeStep(w, p), g)
  {
    hide Erased, ErasedBelow, FullyErased;
    if w.worker.Sweep? && w.worker.job.None? && p in w.worker.due {
      assert JobGood(w.d, w.next, Job(p, w.next, Fresh), w.next);
      hide Owns, Ahead, Coverage, IdsGood, ScopeGood, JobGood;
    }
  }

  lemma ListVaultsKeepsInv(w: World, g: Promise)
    requires Inv(w, g)
    ensures Inv(ListVaultsStep(w), g)
  {
    if Working(w) && w.worker.job.value.stage.Fresh? {
      var j := w.worker.job.value;
      hide Erased;
      assert JobGood(w.d, w.next, j.(stage := Walking(VaultsOf(w.d, j.principal), {}, None)), Reach(w, g));
      SameKept(w);
      hide Owns, Ahead, Kept, IdsGood, JobGood, ErasedBelow, FullyErased;
      JobKeepsInv(w, w.d, j.(stage := Walking(VaultsOf(w.d, j.principal), {}, None)), g);
    }
  }

  lemma PickVaultKeepsInv(w: World, v: nat, g: Promise)
    requires Inv(w, g)
    ensures Inv(PickVaultStep(w, v), g)
  {
    if Walk(w) {
      var j := w.worker.job.value;
      if j.stage.letters == {} && j.stage.hand.None? && v in j.stage.vaults {
        hide Erased;
        assert JobGood(w.d, w.next, j.(stage := Walking(j.stage.vaults - {v}, LettersOf(w.d, v), None)), Reach(w, g));
        SameKept(w);
        hide Owns, Ahead, Kept, IdsGood, JobGood, ErasedBelow, FullyErased;
        JobKeepsInv(w, w.d, j.(stage := Walking(j.stage.vaults - {v}, LettersOf(w.d, v), None)), g);
      }
    }
  }

  lemma PickLetterKeepsInv(w: World, l: nat, g: Promise)
    requires Inv(w, g)
    ensures Inv(PickLetterStep(w, l), g)
  {
    if Walk(w) {
      var j := w.worker.job.value;
      if j.stage.hand.None? && l in j.stage.letters {
        hide Erased;
        var s := j.stage.(letters := j.stage.letters - {l}, hand := Some(Hand(l, AttachmentsOf(w.d, l))));
        assert JobGood(w.d, w.next, j.(stage := s), Reach(w, g));
        SameKept(w);
        hide Owns, Ahead, Kept, IdsGood, JobGood, ErasedBelow, FullyErased;
        JobKeepsInv(w, w.d, j.(stage := s), g);
      }
    }
  }

  lemma PurgeAttachmentKeepsInv(w: World, a: nat, g: Promise)
    requires Inv(w, g)
    ensures Inv(PurgeAttachmentStep(w, a), g)
  {
    if Walk(w) {
      var j := w.worker.job.value;
      if j.stage.hand.Some? && a in j.stage.hand.value.attachments {
        var d1 := w.d.(attachments := w.d.attachments - {a});
        LessKept(w.d, w.next, d1);
        NothingNew(w, d1, g);
        hide DeletedErased, AnonymisedErased, Erased, NewFine, Kept, Ahead, Owns, ScopeGood, IdsGood, Coverage;
        JobKept(w, d1, w.next, g);
        AttachmentOff(d1, w.next, j, Reach(w, g), a);
        hide JobGood;
        JobKeepsInv(w, d1, j.(stage := WithoutAttachment(j.stage, a)), g);
      }
    }
  }

  lemma LessKept(d: Data, next: nat, d1: Data)
    requires IdsGood(d, next) && d1.vaults == d.vaults && d1.letters.Keys == d.letters.Keys
    requires forall l :: l in d.letters ==> d1.letters[l] == d.letters[l] || d1.letters[l] == Blanked(d.letters[l])
    requires forall a :: a in d1.attachments ==> a in d.attachments && d1.attachments[a] == d.attachments[a]
    ensures Kept(d, d1, next) && IdsGood(d1, next)
  {}

  function WithoutAttachment(s: Stage, a: nat): Stage
    requires s.Walking? && s.hand.Some?
  {
    s.(hand := Some(s.hand.value.(attachments := s.hand.value.attachments - {a})))
  }

  lemma AttachmentOff(d: Data, next: nat, j: Job, reach: nat, a: nat)
    requires JobGood(d, next, j, reach) && a !in d.attachments && j.stage.Walking? && j.stage.hand.Some?
    ensures JobGood(d, next, j.(stage := WithoutAttachment(j.stage, a)), reach)
  {
    hide Erased;
  }

  lemma PurgeLetterKeepsInv(w: World, g: Promise)
    requires Inv(w, g)
    ensures Inv(PurgeLetterStep(w), g)
  {
    if Walk(w) {
      var j := w.worker.job.value;
      if j.stage.hand.Some? && j.stage.hand.value.attachments == {} {
        var d1 := WithBlanked(w.d, j.stage.hand.value.letter);
        LessKept(w.d, w.next, d1);
        NothingNew(w, d1, g);
        hide DeletedErased, AnonymisedErased, Erased, NewFine, Kept, Ahead, Owns, ScopeGood, IdsGood, Coverage;
        JobKept(w, d1, w.next, g);
        LetterOff(d1, w.next, j, Reach(w, g));
        hide JobGood;
        JobKeepsInv(w, d1, j.(stage := j.stage.(hand := None)), g);
      }
    }
  }

  lemma LetterOff(d: Data, next: nat, j: Job, reach: nat)
    requires JobGood(d, next, j, reach) && j.stage.Walking? && j.stage.hand.Some?
    requires var h := j.stage.hand.value;
      h.attachments == {} && (h.letter in d.letters ==> d.letters[h.letter] == Blanked(d.letters[h.letter]))
    ensures JobGood(d, next, j.(stage := j.stage.(hand := None)), reach)
  {}

  lemma DoneKeepsInv(w: World, g: Promise)
    requires Inv(w, g)
    ensures Inv(DoneStep(w), g)
  {
    hide Erased;
    if Walk(w) && w.worker.job.value.stage == Walking({}, {}, None) {
      var j := w.worker.job.value;
      assert ErasedBelow(w.d, j.principal, Reach(w, g));
      assert Reach(w, g) == w.next ==> FullyErased(w.d, j.principal);
      assert forall p: nat, bound: nat :: AnonymisedUpTo(DoneStep(w).accounts, p, bound) ==>
        AnonymisedUpTo(w.accounts, p, bound)
        || (w.worker.kind == AccountDeletion && p == j.principal && bound == j.born);
      hide Owns, Coverage, ErasedBelow, FullyErased, ScopeGood, IdsGood;
    }
  }

  /** Every step but a harmful insert keeps the invariant; `HarmlessIff` has the converse. */
  lemma StepKeepsInv(w: World, s: Step, g: Promise)
    requires Inv(w, g) && HarmlessStep(w, s, g)
    ensures Inv(Apply(w, s), g)
  {
    hide Inv;
    match s
    case CreateVault(p) => CreateKeepsInv(w, p, g);
    case Seal(content, files) => SealKeepsInv(w, content, files, g);
    case InsertLetter(content) => InsertKeepsInv(w, content, g);
    case Attach(l) => if l in w.d.letters { AttachKeepsInvIff(w, l, g); }
    case DeleteLetter(l) => DeleteLetterKeepsInv(w, l, g);
    case Take(p) => TakeKeepsInv(w, p, g);
    case ListVaults => ListVaultsKeepsInv(w, g);
    case PickVault(v) => PickVaultKeepsInv(w, v, g);
    case PickLetter(l) => PickLetterKeepsInv(w, l, g);
    case PurgeAttachment(a) => PurgeAttachmentKeepsInv(w, a, g);
    case PurgeLetter => PurgeLetterKeepsInv(w, g);
    case Done => DoneKeepsInv(w, g);
    case _ => TableKeepsInv(w, s, g);
  }

  /** Steps that touch no letter. */
  lemma TableKeepsInv(w: World, s: Step, g: Promise)
    requires Inv(w, g)
    requires s.Elapse? || s.CancelSubscription? || s.Reactivate? || s.RequestDeletion? || s.CancelDeletion?
             || s.Wake? || s.NextSweep? || s.Crash?
    ensures Inv(Apply(w, s), g)
  {
    hide IdsGood, FullyErased, ErasedBelow, Owns, Erased, Ahead, ScopeGood;
    assert forall p: nat, bound: nat :: AnonymisedUpTo(Apply(w, s).accounts, p, bound) ==>
      AnonymisedUpTo(w.accounts, p, bound);
  }

  /** A step breaks the invariant exactly when it inserts a letter or file where no purge will find it. */
  lemma HarmlessIff(w: World, s: Step, g: Promise)
    requires Inv(w, g)
    ensures Inv(Apply(w, s), g) <==> HarmlessStep(w, s, g)
  {
    if HarmlessStep(w, s, g) {
      StepKeepsInv(w, s, g);
    } else {
      hide Inv, AttachHarmless, InsertHarmless;
      match s
      case Attach(l) => AttachKeepsInvIff(w, l, g);
      case InsertLetter(content) => InsertKeepsInvIff(w, content, g);
    }
  }

  // ---- What holds in every run ----

  /** Ids, the scope of the walk and the history are in order, whatever any insert does. */
  ghost predicate Ordered(w: World) {
    && IdsGood(w.d, w.next) && KnownAccounts(w) && HistoryGood(w)
    && (Working(w) ==> var j := w.worker.job.value; ScopeGood(w.d, w.next, j.principal, j.stage) && j.born <= w.next)
  }

  lemma {:induction false} UnusedId(ids: set<nat>) returns (q: nat)
    ensures forall p :: p in ids ==> p < q
    decreases |ids|
  {
    if ids == {} {
      q := 0;
    } else {
      var p :| p in ids;
      q := UnusedId(ids - {p});
      assert forall x :: x in ids ==> x == p || x in ids - {p};
      if q <= p {
        q := p + 1;
      }
    }
  }

  /** Nothing was promised to a principal without an account, and no step can break that. */
  lemma StepKeepsOrdered(w: World, s: Step)
    requires Ordered(w)
    ensures Ordered(Apply(w, s))
  {
    var q := UnusedId(w.accounts.Keys);
    var g := Promise(q, AccountDeletion);
    assert q !in w.accounts;
    hide Apply, IdsGood, ScopeGood;
    assert Inv(w, g) && HarmlessStep(w, s, g) by { assert Working(w) ==> Reach(w, g) == 0; }
    StepKeepsInv(w, s, g);
  }

  lemma {:induction false} RunKeepsOrdered(w: World, run: seq<Step>)
    requires Ordered(w)
    ensures Ordered(After(w, run))
  {
    hide Ordered, Apply;
    if run != [] {
      RunKeepsOrdered(w, run[..|run| - 1]);
      StepKeepsOrdered(After(w, run[..|run| - 1]), run[|run| - 1]);
    }
  }
}
