/**
 Trigger scoring and the aggregator's per-vault decision (crates/beacon-core/src/lib.rs and
 crates/beacon-api/src/scheduler.rs). Arithmetic is over the reals. A score is carried as the
 sum of squares under its root: ScoreThreshold shows that every threshold question about the
 clamped root is a question about that sum.
 */
module Scoring {
  import opened Domain

  datatype SignalSource =
    | Heartbeat | AppleIcloudShortcut | MicrosoftAccount | GoogleLogin | BuddyAttestation
    | GuardianAttestation | Cdr | Calendar | Email | DeathRegistry | SentinelOffline

  datatype IndependenceClass =
    | PersonalAttestation | Financial | SocialGoogle | SocialMicrosoft | SocialApple | SocialMeta
    | HumanAttestation | OfficialRecord | Infrastructure

  function ClassOf(s: SignalSource): IndependenceClass {
    match s
    case Heartbeat => PersonalAttestation
    case Cdr => Financial
    case GoogleLogin => SocialGoogle
    case MicrosoftAccount => SocialMicrosoft
    case AppleIcloudShortcut => SocialApple
    case Calendar => SocialMeta
    case Email => SocialMeta
    case BuddyAttestation => HumanAttestation
    case GuardianAttestation => HumanAttestation
    case DeathRegistry => OfficialRecord
    case SentinelOffline => Infrastructure
  }

  function DefaultWeight(s: SignalSource): real {
    match s
    case Heartbeat => 0.30
    case Cdr => 0.25
    case AppleIcloudShortcut => 0.18
    case GoogleLogin => 0.15
    case MicrosoftAccount => 0.15
    case Calendar => 0.10
    case Email => 0.10
    case BuddyAttestation => 0.20
    case GuardianAttestation => 0.40
    case DeathRegistry => 0.60
    case SentinelOffline => 0.05
  }

  datatype Observation = Observation(source: SignalSource, contribution: real, weight: real)

  /** `sumSq` stands for the score min(1, sqrt(sumSq)). */
  datatype TriggerScore = TriggerScore(sumSq: real, classes: nat)

  // ---- The score ----

  function Square(o: Observation): (q: real)
    ensures q >= 0.0
  {
    var v := o.weight * o.contribution;
    v * v
  }

  function SumSq(obs: seq<Observation>): (q: real)
    ensures q >= 0.0
  {
    if obs == [] then 0.0 else SumSq(obs[..|obs| - 1]) + Square(obs[|obs| - 1])
  }

  function Classes(obs: seq<Observation>): set<IndependenceClass> {
    set o | o in obs && o.contribution >= 0.2 :: ClassOf(o.source)
  }

  /** The loop of the scoring function. */
  method Score(obs: seq<Observation>) returns (s: TriggerScore)
    ensures s == TriggerScore(SumSq(obs), |Classes(obs)|)
  {
    var sumSq := 0.0;
    var classes: set<IndependenceClass> := {};
    for i := 0 to |obs|
      invariant sumSq == SumSq(obs[..i])
      invariant classes == Classes(obs[..i])
    {
      var v := obs[i].weight * obs[i].contribution;
      sumSq := sumSq + v * v;
      assert obs[..i + 1][..i] == obs[..i];
      assert forall o :: o in obs[..i + 1] <==> o in obs[..i] || o == obs[i];
      if obs[i].contribution >= 0.2 {
        classes := classes + {ClassOf(obs[i].source)};
      }
    }
    assert obs[..|obs|] == obs;
    s := TriggerScore(sumSq, |classes|);
  }

  /** `s` is the square root of `q`, clamped to [0, 1]. */
  predicate IsScore(q: real, s: real) {
    0.0 <= s <= 1.0 && (if q <= 1.0 then s * s == q else s == 1.0)
  }

  /** The comparison "score >= t" without a root. */
  predicate AtLeast(q: real, t: real) {
    t <= 0.0 || (t <= 1.0 && q >= t * t)
  }

  lemma PositiveProduct(a: real, b: real)
    requires a > 0.0 && b > 0.0
    ensures a * b > 0.0
  {}

  lemma SquareOrder(a: real, b: real)
    requires 0.0 <= a && 0.0 <= b
    ensures a <= b <==> a * a <= b * b
  {
    if a <= b {
      ProductMonotone(a, a, b, b);
    } else {
      PositiveProduct(a - b, a);
      ProductMonotone(b, b, b, a);
      calc {
        a * a;
        == b * a + (a - b) * a;
        > b * a;
        >= b * b;
      }
    }
  }

  lemma ScoreThreshold(q: real, s: real, t: real)
    requires IsScore(q, s)
    ensures s >= t <==> AtLeast(q, t)
  {
    if 0.0 < t <= 1.0 {
      SquareOrder(t, s);
      SquareOrder(t, 1.0);
    }
  }

  lemma {:induction false} SumSqRemove(obs: seq<Observation>, i: nat)
    requires i < |obs|
    ensures SumSq(obs) == SumSq(obs[..i] + obs[i + 1..]) + Square(obs[i])
  {
    var last := |obs| - 1;
    if i == last {
      assert obs[..i] + obs[i + 1..] == obs[..last];
    } else {
      var rest := obs[..i] + obs[i + 1..];
      SumSqRemove(obs[..last], i);
      assert rest[..|rest| - 1] == obs[..last][..i] + obs[..last][i + 1..];
    }
  }

  lemma MultisetRemove(s: seq<Observation>, i: nat)
    requires i < |s|
    ensures multiset(s[..i] + s[i + 1..]) == multiset(s) - multiset{s[i]}
  {
    assert s == s[..i] + [s[i]] + s[i + 1..];
  }

  lemma {:induction false} SumSqPermutation(a: seq<Observation>, b: seq<Observation>)
    requires multiset(a) == multiset(b)
    ensures SumSq(a) == SumSq(b)
  {
    if a == [] {
      assert |multiset(b)| == 0;
    } else {
      var n := |a| - 1;
      var i := IndexIn(b, a[n]);
      MultisetRemove(a, n);
      MultisetRemove(b, i);
      SumSqPermutation(a[..n] + a[n + 1..], b[..i] + b[i + 1..]);
      hide SumSq;
      SumSqRemove(a, n);
      SumSqRemove(b, i);
    }
  }

  lemma IndexIn(s: seq<Observation>, o: Observation) returns (i: nat)
    requires o in multiset(s)
    ensures i < |s| && s[i] == o
  {
    i :| i < |s| && s[i] == o;
  }

  /** The score does not depend on the order in which observations were gathered. */
  lemma ScorePermutation(a: seq<Observation>, b: seq<Observation>)
    requires multiset(a) == multiset(b)
    ensures SumSq(a) == SumSq(b) && Classes(a) == Classes(b)
  {
    SumSqPermutation(a, b);
    assert forall o :: o in a <==> o in multiset(a);
    assert forall o :: o in b <==> o in multiset(b);
  }

  /** `b` reports the same sources as `a`, none of them weaker. */
  predicate NoWeaker(a: seq<Observation>, b: seq<Observation>) {
    |a| == |b| && forall i :: 0 <= i < |a| ==>
      a[i].source == b[i].source
      && 0.0 <= a[i].contribution <= b[i].contribution
      && 0.0 <= a[i].weight <= b[i].weight
  }

  lemma {:induction false} SumSqMonotone(a: seq<Observation>, b: seq<Observation>)
    requires NoWeaker(a, b)
    ensures SumSq(a) <= SumSq(b)
  {
    if a != [] {
      var n := |a| - 1;
      SumSqMonotone(a[..n], b[..n]);
      SquareMonotone(a[n], b[n]);
    }
  }

  lemma SquareMonotone(a: Observation, b: Observation)
    requires 0.0 <= a.contribution <= b.contribution && 0.0 <= a.weight <= b.weight
    ensures Square(a) <= Square(b)
  {
    ProductMonotone(a.weight, a.contribution, b.weight, b.contribution);
    SquareOrder(a.weight * a.contribution, b.weight * b.contribution);
  }

  lemma ProductMonotone(a: real, b: real, c: real, d: real)
    requires 0.0 <= a <= c && 0.0 <= b <= d
    ensures 0.0 <= a * b <= c * d
  {
    assert a * b <= c * b;
    assert c * b <= c * d;
  }

  /** Strengthening evidence never withdraws an alert. */
  lemma AlertMonotone(a: seq<Observation>, b: seq<Observation>, threshold: real, minClasses: nat)
    requires NoWeaker(a, b)
    ensures Crossed(TriggerScore(SumSq(a), |Classes(a)|), threshold, minClasses)
            ==> Crossed(TriggerScore(SumSq(b), |Classes(b)|), threshold, minClasses)
  {
    SumSqMonotone(a, b);
    forall c | c in Classes(a)
      ensures c in Classes(b)
    {
      var o :| o in a && o.contribution >= 0.2 && ClassOf(o.source) == c;
      var i :| 0 <= i < |a| && a[i] == o;
      assert b[i] in b;
    }
    SubsetSize(Classes(a), Classes(b));
  }

  // ---- The decision ----

  predicate Crossed(s: TriggerScore, threshold: real, minClasses: nat) {
    AtLeast(s.sumSq, threshold) && s.classes >= minClasses
  }

  predicate Soft(s: TriggerScore, threshold: real) {
    AtLeast(s.sumSq, threshold * 0.5) && s.classes >= 1
  }

  function Evaluate(current: VaultState, s: TriggerScore, threshold: real, minClasses: nat): VaultState {
    match current
    case Active =>
      if Crossed(s, threshold, minClasses) then Alert
      else if Soft(s, threshold) then Suspicious
      else Active
    case Suspicious =>
      if Crossed(s, threshold, minClasses) then Alert
      else if !AtLeast(s.sumSq, 0.1) then Active
      else Suspicious
    case Alert => if !Soft(s, threshold) then Suspicious else CoolingOff
    case other => other
  }

  /** Every decision follows the state machine's edges in at most two hops; the only
      two-hop decision is the jump from ACTIVE to ALERT. */
  lemma EvaluateFollowsEdges(current: VaultState, s: TriggerScore, threshold: real, minClasses: nat)
    ensures var next := Evaluate(current, s, threshold, minClasses);
            next == current
            || (CanTransition(current, next) <==> !(current == Active && next == Alert))
    ensures var next := Evaluate(current, s, threshold, minClasses);
            current == Active && next == Alert ==>
              !CanTransition(current, next)
              && CanTransition(current, Suspicious) && CanTransition(Suspicious, next)
  {}

  // ---- What one tick sees ----

  datatype Subscription = Subscription(source: SignalSource, weight: real, enabled: bool)

  datatype BuddyResponse = Well | Worried | UnableToReach

  function ReleaseContribution(r: BuddyResponse): real {
    match r
    case Well => 0.0
    case Worried => 0.20
    case UnableToReach => 0.35
  }

  /** The rows one aggregator tick reads for one vault. */
  datatype Reading = Reading(
    elapsed: int,                       // seconds since the last attestation
    maxGap: int,                        // heartbeat_max_gap_seconds
    subscriptions: seq<Subscription>,
    buddySignals: seq<BuddyResponse>,   // recorded in the last 30 days
    recentPing: bool,                   // a bank webhook inside five gaps
    recentCdrSignal: bool)

  function WeightFor(subs: seq<Subscription>, source: SignalSource): Option<real> {
    if subs == [] then None
    else if subs[0].source == source && subs[0].enabled then Some(subs[0].weight)
    else WeightFor(subs[1..], source)
  }

  function Staleness(elapsed: int, maxGap: int): (c: real)
    requires maxGap > 0
    ensures 0.0 <= c <= 1.0
  {
    var r := elapsed as real / maxGap as real;
    if r < 0.0 then 0.0 else if r > 1.0 then 1.0 else r
  }

  function Strongest(signals: seq<BuddyResponse>): (c: real)
    ensures 0.0 <= c <= 0.35
  {
    if signals == [] then 0.0
    else
      var c := ReleaseContribution(signals[|signals| - 1]);
      var m := Strongest(signals[..|signals| - 1]);
      if c > m then c else m
  }

  function HeartbeatObs(r: Reading): seq<Observation>
    requires r.maxGap > 0
  {
    match WeightFor(r.subscriptions, Heartbeat)
    case None => []
    case Some(w) =>
      var c := Staleness(r.elapsed, r.maxGap);
      if c > 0.0 then [Observation(Heartbeat, c, w)] else []
  }

  function BuddyObs(r: Reading): seq<Observation> {
    match WeightFor(r.subscriptions, BuddyAttestation)
    case None => []
    case Some(w) =>
      var c := Strongest(r.buddySignals);
      if c > 0.0 then [Observation(BuddyAttestation, c, w)] else []
  }

  function BankObs(r: Reading): seq<Observation>
    requires r.maxGap > 0
  {
    match WeightFor(r.subscriptions, Cdr)
    case None => []
    case Some(w) =>
      var c := Staleness(r.elapsed, r.maxGap);
      if !r.recentPing && !r.recentCdrSignal && c > 0.0 then [Observation(Cdr, c, w)] else []
  }

  function Observe(r: Reading): seq<Observation>
    requires r.maxGap > 0
  {
    HeartbeatObs(r) + BuddyObs(r) + BankObs(r)
  }

  function ScoreOf(r: Reading): TriggerScore
    requires r.maxGap > 0
  {
    TriggerScore(SumSq(Observe(r)), |Classes(Observe(r))|)
  }

  /** One vault's turn in a tick, as far as the score: the worker pushes observations one by one. */
  method ObserveVault(r: Reading) returns (s: TriggerScore)
    requires r.maxGap > 0
    ensures s == ScoreOf(r)
  {
    var observations: seq<Observation> := [];
    var w := WeightFor(r.subscriptions, Heartbeat);
    var stale := Staleness(r.elapsed, r.maxGap);
    if w.Some? && stale > 0.0 {
      observations := observations + [Observation(Heartbeat, stale, w.value)];
    }
    w := WeightFor(r.subscriptions, BuddyAttestation);
    if w.Some? {
      var strongest := 0.0;
      for i := 0 to |r.buddySignals|
        invariant strongest == Strongest(r.buddySignals[..i])
      {
        assert r.buddySignals[..i + 1][..i] == r.buddySignals[..i];
        var c := ReleaseContribution(r.buddySignals[i]);
        strongest := if c > strongest then c else strongest;
      }
      assert r.buddySignals[..|r.buddySignals|] == r.buddySignals;
      if strongest > 0.0 {
        observations := observations + [Observation(BuddyAttestation, strongest, w.value)];
      }
    }
    w := WeightFor(r.subscriptions, Cdr);
    if w.Some? && !r.recentPing && !r.recentCdrSignal && stale > 0.0 {
      observations := observations + [Observation(Cdr, stale, w.value)];
    }
    assert observations == Observe(r);
    s := Score(observations);
  }

  // ---- The score of a reading, in numbers ----

  /** The weight of the first enabled subscription to the source, if there is one. */
  ghost predicate IsWeight(subs: seq<Subscription>, source: SignalSource, w: Option<real>) {
    match w
    case None => forall i :: 0 <= i < |subs| ==> !(subs[i].source == source && subs[i].enabled)
    case Some(weight) =>
      exists i :: 0 <= i < |subs| && subs[i] == Subscription(source, weight, true)
                  && forall j :: 0 <= j < i ==> !(subs[j].source == source && subs[j].enabled)
  }

  lemma {:induction false} WeightForIs(subs: seq<Subscription>, source: SignalSource, w: Option<real>)
    requires IsWeight(subs, source, w)
    ensures WeightFor(subs, source) == w
  {
    if subs != [] && !(subs[0].source == source && subs[0].enabled) {
      if w.Some? {
        var i :| 0 <= i < |subs| && subs[i] == Subscription(source, w.value, true)
                 && forall j :: 0 <= j < i ==> !(subs[j].source == source && subs[j].enabled);
        assert i > 0 && subs[1..][i - 1] == subs[i];
        assert forall j :: 0 <= j < i - 1 ==> subs[1..][j] == subs[j + 1];
      }
      assert IsWeight(subs[1..], source, w);
      WeightForIs(subs[1..], source, w);
    } else if subs != [] && w.Some? {
      var i :| 0 <= i < |subs| && subs[i] == Subscription(source, w.value, true)
               && forall j :: 0 <= j < i ==> !(subs[j].source == source && subs[j].enabled);
      assert i == 0;
    }
  }

  /** The share of the gap that has passed, within [0, 1]. */
  predicate IsStaleness(elapsed: int, maxGap: int, c: real) {
    if elapsed <= 0 then c == 0.0
    else if elapsed >= maxGap then c == 1.0
    else c * maxGap as real == elapsed as real
  }

  lemma StalenessIs(elapsed: int, maxGap: int, c: real)
    requires maxGap > 0 && IsStaleness(elapsed, maxGap, c)
    ensures Staleness(elapsed, maxGap) == c && 0.0 <= c <= 1.0
  {
    var r := elapsed as real / maxGap as real;
    assert r * maxGap as real == elapsed as real;
    if 0 < elapsed < maxGap {
      SameFactor(r, c, maxGap as real);
    } else if elapsed <= 0 {
      Quotient(r, 0.0, maxGap as real);
    } else {
      Quotient(1.0, r, maxGap as real);
    }
  }

  lemma SameFactor(a: real, b: real, c: real)
    requires a * c == b * c && c > 0.0
    ensures a == b
  {
    if a < b {
      PositiveProduct(b - a, c);
    } else if b < a {
      PositiveProduct(a - b, c);
    }
  }

  lemma Quotient(a: real, b: real, c: real)
    requires a * c <= b * c && c > 0.0
    ensures a <= b
  {
    if b < a {
      PositiveProduct(a - b, c);
    }
  }

  lemma {:induction false} StrongestIs(signals: seq<BuddyResponse>)
    ensures Strongest(signals) == if UnableToReach in signals then 0.35 else if Worried in signals then 0.20 else 0.0
  {
    if signals != [] {
      var n := |signals| - 1;
      StrongestIs(signals[..n]);
      assert signals == signals[..n] + [signals[n]];
    }
  }

  /** What one source adds under the root, and to the classes. */
  function Part(w: Option<real>, c: real): real {
    if w.None? then 0.0 else (w.value * c) * (w.value * c)
  }

  function Counted(w: Option<real>, c: real): nat {
    if w.Some? && c >= 0.2 then 1 else 0
  }

  /** At most one observation of the source, of strength `c`. */
  predicate Single(obs: seq<Observation>, source: SignalSource, w: Option<real>, c: real) {
    obs == if w.Some? && c > 0.0 then [Observation(source, c, w.value)] else []
  }

  lemma SingleParts(obs: seq<Observation>, source: SignalSource, w: Option<real>, c: real)
    requires Single(obs, source, w, c) && c >= 0.0
    ensures SumSq(obs) == Part(w, c)
    ensures Classes(obs) == if w.Some? && c >= 0.2 then {ClassOf(source)} else {}
  {
    if obs != [] {
      SumSqSingle(obs[0]);
      assert obs[0] in obs;
    } else if w.Some? {
      assert w.value * c == 0.0;
    }
  }

  lemma ClassesConcat(a: seq<Observation>, b: seq<Observation>)
    ensures Classes(a + b) == Classes(a) + Classes(b)
  {}

  /** The score of any reading: the first enabled weight of each of the three sources, times the staleness
      for heartbeat and bank (unless the bank was heard of) and the strongest answer for buddies, squared
      and added; a class counts from a strength of 0.2 on. */
  lemma ScoreOfReading(r: Reading, heartbeat: Option<real>, buddy: Option<real>, bank: Option<real>, stale: real)
    requires r.maxGap > 0 && IsStaleness(r.elapsed, r.maxGap, stale)
    requires IsWeight(r.subscriptions, Heartbeat, heartbeat)
    requires IsWeight(r.subscriptions, BuddyAttestation, buddy) && IsWeight(r.subscriptions, Cdr, bank)
    ensures var worry := if UnableToReach in r.buddySignals then 0.35 else if Worried in r.buddySignals then 0.20
        else 0.0;
      var silence := if r.recentPing || r.recentCdrSignal then 0.0 else stale;
      && ScoreOf(r).sumSq == Part(heartbeat, stale) + Part(buddy, worry) + Part(bank, silence)
      && ScoreOf(r).classes == Counted(heartbeat, stale) + Counted(buddy, worry) + Counted(bank, silence)
  {
    hide SumSq, Classes, HeartbeatObs, BuddyObs, BankObs, Part, IsWeight, IsStaleness, Counted;
    var h, b, k := HeartbeatObs(r), BuddyObs(r), BankObs(r);
    HeartbeatParts(r, heartbeat, stale);
    BuddyParts(r, buddy);
    BankParts(r, bank, stale);
    SumSqConcat(h + b, k);
    SumSqConcat(h, b);
    ClassesConcat(h + b, k);
    ClassesConcat(h, b);
    ThreeClasses(Classes(h), Classes(b), Classes(k));
  }

  lemma ThreeClasses(a: set<IndependenceClass>, b: set<IndependenceClass>, c: set<IndependenceClass>)
    requires a <= {PersonalAttestation} && b <= {HumanAttestation} && c <= {Financial}
    ensures |a + b + c| == |a| + |b| + |c|
  {
    assert a !! b && (a + b) !! c;
  }

  lemma HeartbeatParts(r: Reading, w: Option<real>, stale: real)
    requires r.maxGap > 0 && IsStaleness(r.elapsed, r.maxGap, stale) && IsWeight(r.subscriptions, Heartbeat, w)
    ensures SumSq(HeartbeatObs(r)) == Part(w, stale)
    ensures Classes(HeartbeatObs(r)) <= {PersonalAttestation} && |Classes(HeartbeatObs(r))| == Counted(w, stale)
  {
    WeightForIs(r.subscriptions, Heartbeat, w);
    StalenessIs(r.elapsed, r.maxGap, stale);
    SingleParts(HeartbeatObs(r), Heartbeat, w, stale);
  }

  lemma BuddyParts(r: Reading, w: Option<real>)
    requires IsWeight(r.subscriptions, BuddyAttestation, w)
    ensures var worry := if UnableToReach in r.buddySignals then 0.35 else if Worried in r.buddySignals then 0.20
        else 0.0;
      && SumSq(BuddyObs(r)) == Part(w, worry)
      && Classes(BuddyObs(r)) <= {HumanAttestation} && |Classes(BuddyObs(r))| == Counted(w, worry)
  {
    WeightForIs(r.subscriptions, BuddyAttestation, w);
    StrongestIs(r.buddySignals);
    SingleParts(BuddyObs(r), BuddyAttestation, w, Strongest(r.buddySignals));
  }

  lemma BankParts(r: Reading, w: Option<real>, stale: real)
    requires r.maxGap > 0 && IsStaleness(r.elapsed, r.maxGap, stale) && IsWeight(r.subscriptions, Cdr, w)
    ensures var silence := if r.recentPing || r.recentCdrSignal then 0.0 else stale;
      && SumSq(BankObs(r)) == Part(w, silence)
      && Classes(BankObs(r)) <= {Financial} && |Classes(BankObs(r))| == Counted(w, silence)
  {
    WeightForIs(r.subscriptions, Cdr, w);
    StalenessIs(r.elapsed, r.maxGap, stale);
    SingleParts(BankObs(r), Cdr, w, if r.recentPing || r.recentCdrSignal then 0.0 else stale);
  }

  /** Two sources share a class exactly if both are attested by people, or both read the social accounts. */
  lemma ClassesApart(a: SignalSource, b: SignalSource)
    ensures ClassOf(a) == ClassOf(b) <==>
      a == b || (a in {BuddyAttestation, GuardianAttestation} && b in {BuddyAttestation, GuardianAttestation})
      || (a in {Calendar, Email} && b in {Calendar, Email})
  {}

  // ---- What the default weights can and cannot do ----

  predicate DefaultWeights(subs: seq<Subscription>) {
    forall s :: s in subs ==> s.weight == DefaultWeight(s.source)
  }

  lemma {:induction false} WeightForDefault(subs: seq<Subscription>, source: SignalSource)
    requires DefaultWeights(subs)
    ensures WeightFor(subs, source).Some? ==> WeightFor(subs, source).value == DefaultWeight(source)
  {
    if subs != [] {
      assert subs[0] in subs;
      assert forall s :: s in subs[1..] ==> s in subs;
      WeightForDefault(subs[1..], source);
    }
  }

  lemma {:induction false} SumSqConcat(a: seq<Observation>, b: seq<Observation>)
    ensures SumSq(a + b) == SumSq(a) + SumSq(b)
  {
    if b == [] {
      assert a + b == a;
    } else {
      assert (a + b)[..|a + b| - 1] == a + b[..|b| - 1];
      SumSqConcat(a, b[..|b| - 1]);
    }
  }

  lemma SumSqSingle(o: Observation)
    ensures SumSq([o]) == Square(o)
  {
    assert [o][..0] == [];
  }

  /** An observation at most `cap` strong with weight `w` adds at most (w * cap)^2. */
  lemma SquareAtMost(o: Observation, w: real, cap: real)
    requires o.weight == w && 0.0 <= w && 0.0 <= o.contribution <= cap
    ensures Square(o) <= (w * cap) * (w * cap)
  {
    ProductMonotone(w, o.contribution, w, cap);
    SquareOrder(w * o.contribution, w * cap);
  }

  /** The most the three sources the aggregator reads can add up to: 0.30^2 + 0.07^2 + 0.25^2. */
  const DEFAULT_CEILING: real := 0.1574

  /** At most one observation, of one source, with one weight. */
  lemma OneAtMost(obs: seq<Observation>, source: SignalSource, w: real, cap: real)
    requires |obs| <= 1 && 0.0 <= w && 0.0 <= cap
    requires forall o :: o in obs ==> o.source == source && o.weight == w && 0.0 <= o.contribution <= cap
    ensures SumSq(obs) <= (w * cap) * (w * cap)
  {
    if obs != [] {
      assert obs == [obs[0]];
      SumSqSingle(obs[0]);
      SquareAtMost(obs[0], w, cap);
    } else {
      SquareOrder(0.0, w * cap);
    }
  }

  lemma HeartbeatCeiling(r: Reading)
    requires r.maxGap > 0 && DefaultWeights(r.subscriptions)
    ensures SumSq(HeartbeatObs(r)) <= 0.09
  {
    WeightForDefault(r.subscriptions, Heartbeat);
    OneAtMost(HeartbeatObs(r), Heartbeat, 0.30, 1.0);
  }

  lemma BuddyCeiling(r: Reading)
    requires DefaultWeights(r.subscriptions)
    ensures SumSq(BuddyObs(r)) <= 0.0049
  {
    WeightForDefault(r.subscriptions, BuddyAttestation);
    OneAtMost(BuddyObs(r), BuddyAttestation, 0.20, 0.35);
  }

  lemma BankCeiling(r: Reading)
    requires r.maxGap > 0 && DefaultWeights(r.subscriptions)
    ensures SumSq(BankObs(r)) <= 0.0625
  {
    WeightForDefault(r.subscriptions, Cdr);
    OneAtMost(BankObs(r), Cdr, 0.25, 1.0);
  }

  lemma AtMostThreeClasses(r: Reading)
    requires r.maxGap > 0
    ensures |Classes(Observe(r))| <= 3
  {
    var all := {PersonalAttestation, HumanAttestation, Financial};
    forall o | o in Observe(r)
      ensures ClassOf(o.source) in all
    {
      assert o in HeartbeatObs(r) || o in BuddyObs(r) || o in BankObs(r);
    }
    SubsetSize(Classes(Observe(r)), all);
  }

  lemma DefaultScoreCeiling(r: Reading)
    requires r.maxGap > 0 && DefaultWeights(r.subscriptions)
    ensures ScoreOf(r).sumSq <= DEFAULT_CEILING
    ensures ScoreOf(r).classes <= 3
  {
    HeartbeatCeiling(r);
    BuddyCeiling(r);
    BankCeiling(r);
    AtMostThreeClasses(r);
    SumSqConcat(HeartbeatObs(r) + BuddyObs(r), BankObs(r));
    SumSqConcat(HeartbeatObs(r), BuddyObs(r));
    hide SumSq;
    hide Classes;
    hide HeartbeatObs;
    hide BuddyObs;
    hide BankObs;
  }

  /** The strongest reading default weights allow. */
  function Loudest(): (r: Reading) {
    Reading(1, 1, [Subscription(Heartbeat, 0.30, true), Subscription(BuddyAttestation, 0.20, true),
                   Subscription(Cdr, 0.25, true)], [UnableToReach], false, false)
  }

  lemma LoudestScore()
    ensures DefaultWeights(Loudest().subscriptions)
    ensures ScoreOf(Loudest()) == TriggerScore(DEFAULT_CEILING, 3)
  {
    var r := Loudest();
    var subs := r.subscriptions;
    assert WeightFor(subs[1..], BuddyAttestation) == Some(0.20);
    assert subs[1..][1..] == subs[2..];
    assert WeightFor(subs[2..], Cdr) == Some(0.25);
    var h, b, k := Observation(Heartbeat, 1.0, 0.30), Observation(BuddyAttestation, 0.35, 0.20),
      Observation(Cdr, 1.0, 0.25);
    assert r.buddySignals[..0] == [];
    assert Strongest(r.buddySignals) == 0.35;
    assert Staleness(1, 1) == 1.0;
    assert HeartbeatObs(r) == [h];
    assert BuddyObs(r) == [b];
    assert BankObs(r) == [k];
    SumSqConcat([h] + [b], [k]);
    SumSqConcat([h], [b]);
    SumSqSingle(h);
    SumSqSingle(b);
    SumSqSingle(k);
    var obs := Observe(r);
    assert obs == [h, b, k];
    assert h in obs && b in obs && k in obs;
    assert Classes(obs) == {PersonalAttestation, HumanAttestation, Financial};
  }

  /** With default weights some reading can raise an alert if and only if the threshold is at
      most the ceiling's root and no more than three classes are asked for. The shipped policy
      (threshold 0.7, three classes) is outside that range. */
  lemma DefaultAlertPossible(threshold: real, minClasses: nat)
    ensures (exists r: Reading :: r.maxGap > 0 && DefaultWeights(r.subscriptions)
                                  && Crossed(ScoreOf(r), threshold, minClasses))
            <==> AtLeast(DEFAULT_CEILING, threshold) && minClasses <= 3
  {
    if AtLeast(DEFAULT_CEILING, threshold) && minClasses <= 3 {
      LoudestScore();
      assert Crossed(ScoreOf(Loudest()), threshold, minClasses);
    }
    forall r: Reading | r.maxGap > 0 && DefaultWeights(r.subscriptions)
                        && Crossed(ScoreOf(r), threshold, minClasses)
      ensures AtLeast(DEFAULT_CEILING, threshold) && minClasses <= 3
    {
      DefaultScoreCeiling(r);
    }
  }

  // ---- All eleven sources ----

  /** At most one report of each source, at its default weight. */
  predicate DefaultReports(obs: seq<Observation>) {
    && (forall o :: o in obs ==> 0.0 <= o.contribution <= 1.0 && o.weight == DefaultWeight(o.source))
    && (forall i, j :: 0 <= i < j < |obs| ==> obs[i].source != obs[j].source)
  }

  /** All of these sources at full strength. */
  function Full(sources: seq<SignalSource>): seq<Observation> {
    if sources == [] then []
    else
      var n := |sources| - 1;
      Full(sources[..n]) + [Observation(sources[n], 1.0, DefaultWeight(sources[n]))]
  }

  lemma {:induction false} FullIsMost(obs: seq<Observation>, sources: seq<SignalSource>)
    requires DefaultReports(obs) && forall o :: o in obs ==> o.source in sources
    ensures SumSq(obs) <= SumSq(Full(sources))
    decreases |sources|
  {
    if obs == [] {
      assert SumSq(obs) == 0.0;
    } else {
      assert obs[0].source in sources;
      var n := |sources| - 1;
      var last := Observation(sources[n], 1.0, DefaultWeight(sources[n]));
      assert sources == sources[..n] + [sources[n]];
      if i :| 0 <= i < |obs| && obs[i].source == sources[n] {
        var rest := obs[..i] + obs[i + 1..];
        SumSqRemove(obs, i);
        assert forall o :: o in rest ==> o in obs && o.source != sources[n];
        FullIsMost(rest, sources[..n]);
        SquareMonotone(obs[i], last);
      } else {
        FullIsMost(obs, sources[..n]);
      }
    }
  }

  const ALL_BUT_REGISTRY: seq<SignalSource> :=
    [GuardianAttestation, Heartbeat, Cdr, BuddyAttestation, AppleIcloudShortcut, GoogleLogin, MicrosoftAccount,
     Calendar, Email, SentinelOffline]

  lemma FullSnoc(sources: seq<SignalSource>, s: SignalSource)
    ensures Full(sources + [s]) == Full(sources) + [Observation(s, 1.0, DefaultWeight(s))]
    ensures SumSq(Full(sources + [s])) == SumSq(Full(sources)) + DefaultWeight(s) * DefaultWeight(s)
  {
    hide DefaultWeight;
    assert (sources + [s])[..|sources|] == sources;
    var full, o := Full(sources), Observation(s, 1.0, DefaultWeight(s));
    assert (full + [o])[..|full|] == full;
    assert o.weight * o.contribution == DefaultWeight(s);
  }

  /** The sums in order of the weights, and the order. */
  lemma FullSums()
    ensures SumSq(Full(ALL_BUT_REGISTRY)) == 0.4524 && SumSq(Full(ALL_BUT_REGISTRY + [DeathRegistry])) == 0.8124
    ensures forall i, j :: 0 <= i < j < 10 ==> DefaultWeight(ALL_BUT_REGISTRY[i]) >= DefaultWeight(ALL_BUT_REGISTRY[j])
  {
    hide SumSq, Full;
    var a := ALL_BUT_REGISTRY;
    var sums := [0.0, 0.16, 0.25, 0.3125, 0.3525, 0.3849, 0.4074, 0.4299, 0.4399, 0.4499, 0.4524];
    assert SumSq(Full([])) == 0.0 by { NoSum(); }
    var i := 0;
    while i < 10
      invariant 0 <= i <= 10 && SumSq(Full(a[..i])) == sums[i]
    {
      FullSnoc(a[..i], a[i]);
      assert a[..i] + [a[i]] == a[..i + 1];
      WeightSquare(i);
      i := i + 1;
    }
    assert a[..10] == a;
    FullSnoc(a, DeathRegistry);
  }

  lemma NoSum()
    ensures SumSq(Full([])) == 0.0
  {}

  lemma WeightSquare(i: nat)
    requires i < 10
    ensures DefaultWeight(ALL_BUT_REGISTRY[i]) * DefaultWeight(ALL_BUT_REGISTRY[i])
            == [0.16, 0.09, 0.0625, 0.04, 0.0324, 0.0225, 0.0225, 0.01, 0.01, 0.0025][i]
  {}

  lemma {:induction false} FullReports(sources: seq<SignalSource>)
    requires forall i, j :: 0 <= i < j < |sources| ==> sources[i] != sources[j]
    ensures |Full(sources)| == |sources|
    ensures forall i :: 0 <= i < |sources| ==>
        Full(sources)[i] == Observation(sources[i], 1.0, DefaultWeight(sources[i]))
    ensures DefaultReports(Full(sources))
  {
    if sources != [] {
      FullReports(sources[..|sources| - 1]);
    }
  }

  /** Of all eleven sources, the ones the aggregator does not read included: without the death registry
      no reports at default weights reach a threshold whose square is above 0.4524, and so not the shipped
      one; with it, up to 0.8124. */
  lemma ReachableThresholds(threshold: real)
    ensures (exists obs :: DefaultReports(obs) && (forall o: Observation :: o in obs ==> o.source != DeathRegistry)
                           && AtLeast(SumSq(obs), threshold))
            <==> AtLeast(0.4524, threshold)
    ensures (exists obs :: DefaultReports(obs) && AtLeast(SumSq(obs), threshold)) <==> AtLeast(0.8124, threshold)
    ensures !AtLeast(0.4524, 0.7) && AtLeast(0.8124, 0.7)
  {
    FullSums();
    FullReports(ALL_BUT_REGISTRY);
    FullReports(ALL_BUT_REGISTRY + [DeathRegistry]);
    hide SumSq, Full, DefaultReports, DefaultWeight;
    forall obs | DefaultReports(obs) && AtLeast(SumSq(obs), threshold)
      ensures AtLeast(0.8124, threshold)
      ensures (forall o: Observation :: o in obs ==> o.source != DeathRegistry) ==> AtLeast(0.4524, threshold)
    {
      FullIsMost(obs, ALL_BUT_REGISTRY + [DeathRegistry]);
      if forall o: Observation :: o in obs ==> o.source != DeathRegistry {
        FullIsMost(obs, ALL_BUT_REGISTRY);
      }
    }
  }

  // ---- Calm readings ----

  /** A score below both 0.1 and half the threshold. */
  predicate Calm(s: TriggerScore, threshold: real) {
    !AtLeast(s.sumSq, 0.1) && !AtLeast(s.sumSq, threshold * 0.5)
  }

  /** A calm score never crosses the full threshold either. */
  lemma CalmNeverCrosses(s: TriggerScore, threshold: real, minClasses: nat)
    requires Calm(s, threshold)
    ensures !Crossed(s, threshold, minClasses)
  {
    if 0.0 < threshold <= 1.0 {
      SquareOrder(threshold * 0.5, threshold);
    }
  }

  /** Shortly after a heartbeat, with no recent worry and no bank silence to count, the reading is
      calm: the staleness must stay under 0.1 / weight and half the threshold / weight. */
  lemma HeartbeatCalms(r: Reading, w: real, threshold: real)
    requires r.maxGap > 0
    requires WeightFor(r.subscriptions, Heartbeat) == Some(w) && w >= 0.0
    requires WeightFor(r.subscriptions, Cdr).None? || r.recentPing || r.recentCdrSignal
    requires Strongest(r.buddySignals) == 0.0
    requires w * Staleness(r.elapsed, r.maxGap) < 0.1
    requires w * Staleness(r.elapsed, r.maxGap) < threshold * 0.5
    ensures Calm(ScoreOf(r), threshold)
  {
    var v := w * Staleness(r.elapsed, r.maxGap);
    assert Observe(r) == HeartbeatObs(r);
    if Observe(r) != [] {
      SumSqSingle(Observe(r)[0]);
      assert SumSq(Observe(r)) == v * v;
    }
    ProductMonotone(0.0, 0.0, w, Staleness(r.elapsed, r.maxGap));
    SquareOrder(threshold * 0.5, v);
    SquareOrder(0.1, v);
  }
}
