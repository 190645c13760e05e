/**
 The migration runner (crates/beacon-db/src/lib.rs:150-312). Migrations are named by their position
 in the embedded list of `n`; the first three have a marker table by which a database set up before
 the runner existed is recognised. Any number of booters run, fail and crash. They queue for an
 advisory lock, but its connection may die while the holder, which works over other connections
 of its pool, goes on. A migration's SQL and its row are one transaction; `commits` is history.
 */
module Migrations {
  import opened Domain

  const MARKED: nat := 3

  datatype At =
    | Looking(i: nat, count: nat)
    | Probing(i: nat, count: nat)
    | Marking(i: nat, count: nat)
    | Running(i: nat, count: nat)
    | Finished(count: nat)

  datatype World = World(
    tracking: bool,
    applied: set<nat>,
    tables: set<nat>,
    commits: map<nat, nat>,
    lock: Option<nat>,
    booters: map<nat, At>
  )

  datatype Step =
    | Acquire(b: nat)
    | LoseLock
    | Look(b: nat)
    | Probe(b: nat)
    | Mark(b: nat)
    | Commit(b: nat, ok: bool)
    | Crash(b: nat)

  function Freed(lock: Option<nat>, b: nat): Option<nat> {
    if lock == Some(b) then None else lock
  }

  function Gone(w: World, b: nat): World {
    w.(booters := w.booters - {b}, lock := Freed(w.lock, b))
  }

  function Put(w: World, b: nat, at: At): World {
    w.(booters := w.booters[b := at])
  }

  function Commits(w: World, i: nat): nat {
    if i in w.commits then w.commits[i] else 0
  }

  /** CREATE TABLE IF NOT EXISTS schema_migrations is the holder's first statement. */
  function AcquireStep(w: World, b: nat): World {
    if w.lock.None? && b !in w.booters
    then w.(lock := Some(b), tracking := true, booters := w.booters[b := Looking(0, 0)]) else w
  }

  function LookStep(n: nat, w: World, b: nat): World {
    if b in w.booters && w.booters[b].Looking? then
      var Looking(i, count) := w.booters[b];
      if i >= n then Put(w, b, Finished(count)).(lock := Freed(w.lock, b))
      else if i in w.applied then Put(w, b, Looking(i + 1, count))
      else Put(w, b, if i < MARKED then Probing(i, count) else Running(i, count))
    else w
  }

  function ProbeStep(w: World, b: nat): World {
    if b in w.booters && w.booters[b].Probing? then
      var Probing(i, count) := w.booters[b];
      Put(w, b, if i in w.tables then Marking(i, count) else Running(i, count))
    else w
  }

  /** ON CONFLICT DO NOTHING. */
  function MarkStep(w: World, b: nat): World {
    if b in w.booters && w.booters[b].Marking? then
      var Marking(i, count) := w.booters[b];
      Put(w, b, Looking(i + 1, count)).(applied := w.applied + {i})
    else w
  }

  /** The primary key on the name refuses a second row, and with it the whole transaction. */
  function CommitStep(w: World, b: nat, ok: bool): World {
    if b in w.booters && w.booters[b].Running? then
      var Running(i, count) := w.booters[b];
      if ok && i !in w.applied then
        Put(w, b, Looking(i + 1, count + 1))
          .(applied := w.applied + {i}, tables := if i < MARKED then w.tables + {i} else w.tables,
            commits := w.commits[i := Commits(w, i) + 1])
      else Gone(w, b)
    else w
  }

  function Apply(n: nat, w: World, s: Step): World {
    match s
    case Acquire(b) => AcquireStep(w, b)
    case LoseLock => w.(lock := None)
    case Look(b) => LookStep(n, w, b)
    case Probe(b) => ProbeStep(w, b)
    case Mark(b) => MarkStep(w, b)
    case Commit(b, ok) => CommitStep(w, b, ok)
    case Crash(b) => Gone(w, b)
  }

  function After(n: nat, w: World, run: seq<Step>): World {
    if run == [] then w else Apply(n, After(n, w, run[..|run| - 1]), run[|run| - 1])
  }

  /** The applied migrations are a prefix of the embedded list. */
  predicate Prefix(n: nat, applied: set<nat>) {
    forall i :: i in applied ==> i < n && forall j :: 0 <= j < i ==> j in applied
  }

  predicate AllBefore(applied: set<nat>, i: nat) {
    forall j :: 0 <= j < i ==> j in applied
  }

  predicate BooterGood(n: nat, w: World, at: At) {
    match at
    case Finished(_) => w.tracking && AllBefore(w.applied, n)
    case Looking(i, _) => w.tracking && AllBefore(w.applied, i) && i <= n
    case Probing(i, _) => w.tracking && AllBefore(w.applied, i) && i < n
    case Marking(i, _) => w.tracking && AllBefore(w.applied, i) && i < n
    case Running(i, _) => w.tracking && AllBefore(w.applied, i) && i < n
  }

  predicate BootersGood(n: nat, w: World) {
    forall b :: b in w.booters ==> BooterGood(n, w, w.booters[b])
  }

  predicate CommitsGood(w: World) {
    forall i :: i in w.commits ==> w.commits[i] <= 1 && i in w.applied
  }

  predicate Inv(n: nat, w: World) {
    Prefix(n, w.applied) && BootersGood(n, w) && CommitsGood(w)
  }

  lemma StepKeepsInv(n: nat, w: World, s: Step)
    requires Inv(n, w)
    ensures Inv(n, Apply(n, w, s))
  {
    if s.Commit? {
      CommitKeepsInv(n, w, s.b, s.ok);
      hide CommitStep, Inv;
    }
  }

  lemma CommitKeepsInv(n: nat, w: World, b: nat, ok: bool)
    requires Inv(n, w)
    ensures Inv(n, CommitStep(w, b, ok))
  {}

  lemma {:induction false} RunKeepsInv(n: nat, w: World, run: seq<Step>)
    requires Inv(n, w)
    ensures Inv(n, After(n, w, run))
  {
    if run != [] {
      hide Inv, Apply;
      RunKeepsInv(n, w, run[..|run| - 1]);
      StepKeepsInv(n, After(n, w, run[..|run| - 1]), run[|run| - 1]);
    }
  }

  predicate Start(n: nat, w: World) {
    w.booters == map[] && w.commits == map[] && Prefix(n, w.applied)
  }

  /** Whoever boots, fails or crashes, and whether or not the lock holds: each migration's SQL
      commits at most once, and the applied set stays a prefix if it started as one. */
  lemma CommitsAtMostOnce(n: nat, w: World, run: seq<Step>, i: nat)
    requires Start(n, w)
    ensures Commits(After(n, w, run), i) <= 1
    ensures Prefix(n, After(n, w, run).applied)
    ensures Commits(After(n, w, run), i) == 1 ==> i in After(n, w, run).applied && i !in w.applied
  {
    RunKeepsInv(n, w, run);
    AppliedNotCommitted(n, w, run, i);
  }

  lemma {:induction false} AppliedNotCommitted(n: nat, w: World, run: seq<Step>, i: nat)
    ensures w.applied <= After(n, w, run).applied && w.tables <= After(n, w, run).tables
    ensures w.tracking ==> After(n, w, run).tracking
    ensures i in w.applied ==> Commits(After(n, w, run), i) == Commits(w, i)
  {
    if run != [] {
      hide Apply, Commits;
      AppliedNotCommitted(n, w, run[..|run| - 1], i);
      GrowsStep(n, After(n, w, run[..|run| - 1]), run[|run| - 1], i);
    }
  }

  lemma GrowsStep(n: nat, w: World, s: Step, i: nat)
    ensures w.applied <= Apply(n, w, s).applied && w.tables <= Apply(n, w, s).tables
    ensures w.tracking ==> Apply(n, w, s).tracking
    ensures i in w.applied ==> Commits(Apply(n, w, s), i) == Commits(w, i)
  {}

  // ---- Legacy databases ----

  predicate Spared(w: World, i: nat) {
    i in w.tables && Commits(w, i) == 0 && forall b :: b in w.booters ==>
        !(w.booters[b].Running? && w.booters[b].i == i)
  }

  lemma SparedStep(n: nat, w: World, s: Step, i: nat)
    requires i < MARKED && Spared(w, i)
    ensures Spared(Apply(n, w, s), i)
  {}

  lemma {:induction false} LegacySpared(n: nat, w: World, run: seq<Step>, i: nat)
    requires Start(n, w) && i < MARKED && i in w.tables
    ensures Spared(After(n, w, run), i)
  {
    if run != [] {
      hide Apply, Spared;
      LegacySpared(n, w, run[..|run| - 1], i);
      SparedStep(n, After(n, w, run[..|run| - 1]), run[|run| - 1], i);
    }
  }

  /** A migration whose tables were there before the runner never has its SQL run, and is recorded
      once any booter has got past it. */
  lemma LegacyNeverRerun(n: nat, w: World, run: seq<Step>, i: nat, b: nat)
    requires Start(n, w) && i < MARKED && i < n && i in w.tables
    ensures Commits(After(n, w, run), i) == 0
    ensures var w1 := After(n, w, run);
      b in w1.booters && (w1.booters[b].Finished? || w1.booters[b].i > i) ==> i in w1.applied
  {
    LegacySpared(n, w, run, i);
    RunKeepsInv(n, w, run);
    hide After;
    var w1 := After(n, w, run);
    if b in w1.booters {
      assert BooterGood(n, w1, w1.booters[b]);
    }
  }

  /** A migration that is committed is recorded with it, and its table was not there before. */
  predicate Accounted(w0: World, w: World, i: nat) {
    && (i in w.applied && i !in w0.applied ==> (Commits(w, i) == 0 ==> i < 3 && i in w0.tables))
    && (i in w.tables && i !in w0.tables ==> Commits(w, i) > 0)
    && (forall b :: b in w.booters && w.booters[b].Probing? && w.booters[b].i == i ==> i < 3)
    && (forall b :: b in w.booters && w.booters[b].Marking? && w.booters[b].i == i ==> i < 3 && i in w.tables)
  }

  lemma AccountedStep(n: nat, w0: World, w: World, s: Step, i: nat)
    requires Accounted(w0, w, i)
    ensures Accounted(w0, Apply(n, w, s), i)
  {
    hide Freed;
  }

  lemma {:induction false} RunAccounted(n: nat, w: World, run: seq<Step>, i: nat)
    requires Start(n, w)
    ensures Accounted(w, After(n, w, run), i)
  {
    if run != [] {
      hide Apply, Accounted;
      RunAccounted(n, w, run[..|run| - 1], i);
      AccountedStep(n, w, After(n, w, run[..|run| - 1]), run[|run| - 1], i);
    }
  }

  /** Over any number of booters, crashes and lost locks: of the migrations recorded since the start exactly
      those were recorded without their SQL that are among the first three and had their table then; the
      SQL of every other was committed, once. */
  lemma RecordedUnrunIff(n: nat, w: World, run: seq<Step>, i: nat)
    requires Start(n, w)
    ensures var w1 := After(n, w, run);
      i in w1.applied && i !in w.applied ==>
        (Commits(w1, i) == 0 <==> i < 3 && i in w.tables) && (Commits(w1, i) == 1 <==> !(i < 3 && i in w.tables))
  {
    RunAccounted(n, w, run, i);
    CommitsAtMostOnce(n, w, run, i);
    if i < 3 && i in w.tables {
      LegacySpared(n, w, run, i);
    }
    hide After;
  }

  // ---- Who writes what ----

  predicate Stands(w: World, b: nat, at: At) {
    b in w.booters && w.booters[b] == at
  }

  /** A migration is recorded by a booter that marks it, or by one that has run it and commits; its SQL
      counts as committed in the second case only. Nothing recorded is ever removed. */
  lemma WhoRecords(n: nat, w: World, s: Step, i: nat)
    ensures var w1 := Apply(n, w, s);
      var commits := s.Commit? && s.ok && exists count :: Stands(w, s.b, Running(i, count));
      && w.applied <= w1.applied
      && (i in w1.applied
          <==> i in w.applied || commits || (s.Mark? && exists count :: Stands(w, s.b, Marking(i, count))))
      && Commits(w1, i) == Commits(w, i) + if commits && i !in w.applied then 1 else 0
  {
    if (s.Commit? || s.Mark?) && s.b in w.booters {
      if w.booters[s.b].Running? {
        assert Stands(w, s.b, Running(w.booters[s.b].i, w.booters[s.b].count));
      } else if w.booters[s.b].Marking? {
        assert Stands(w, s.b, Marking(w.booters[s.b].i, w.booters[s.b].count));
      }
    }
  }

  /** A booter starts at the first migration, with the lock, if nobody holds it; it is gone after a crash or
      a commit that fails or is refused, with its lock, if it still had it, and nothing else. */
  lemma WhoComesAndGoes(n: nat, w: World, s: Step, b: nat)
    ensures var w1 := Apply(n, w, s);
      var refused := s.Commit? && s.b == b
                     && exists i, count :: Stands(w, b, Running(i, count)) && (!s.ok || i in w.applied);
      && (b !in w.booters ==>
            (b in w1.booters <==> s == Acquire(b) && w.lock == None)
            && (b in w1.booters ==> w1.booters[b] == Looking(0, 0) && w1.lock == Some(b) && w1.tracking))
      && (b in w.booters ==>
            (b !in w1.booters <==> s == Crash(b) || refused)
            && (b !in w1.booters ==>
                  w1 == w.(booters := w.booters - {b}, lock := if w.lock == Some(b) then None else w.lock))
            && (s == Acquire(b) ==> w1 == w))
  {
    if s.Commit? && s.b in w.booters && w.booters[s.b].Running? {
      assert Stands(w, s.b, Running(w.booters[s.b].i, w.booters[s.b].count));
    }
  }

  // ---- What a finished run means ----

  /** `verify_migrations`: the first migration missing, if any. */
  function FirstMissing(n: nat, w: World, i: nat): (r: Option<nat>)
    decreases n - i
    ensures r.Some? ==> i <= r.value < n && r.value !in w.applied && forall j :: i <= j < r.value ==> j in w.applied
    ensures r.None? ==> forall j :: i <= j < n ==> j in w.applied
  {
    if i >= n then None else if i !in w.applied then Some(i) else FirstMissing(n, w, i + 1)
  }

  function Verify(n: nat, w: World): Option<nat> {
    if !w.tracking then Some(0) else FirstMissing(n, w, 0)
  }

  /** Once a booter has finished with Ok, verification succeeds, then and ever after. */
  lemma FinishedVerifies(n: nat, w: World, run: seq<Step>, more: seq<Step>, b: nat)
    requires Start(n, w)
    requires var w1 := After(n, w, run); b in w1.booters && w1.booters[b].Finished?
    ensures Verify(n, After(n, After(n, w, run), more)) == None
  {
    RunKeepsInv(n, w, run);
    AppliedNotCommitted(n, After(n, w, run), more, 0);
    hide After;
    var w1 := After(n, w, run);
    assert BooterGood(n, w1, w1.booters[b]);
  }

  predicate Idle(n: nat, w: World, before: set<nat>) {
    && AllBefore(w.applied, n)
    && forall b :: b in w.booters && b !in before ==>
         (w.booters[b].Looking? || w.booters[b].Finished?) && w.booters[b].count == 0
  }

  lemma IdleStep(n: nat, w: World, s: Step, before: set<nat>)
    requires BootersGood(n, w) && Idle(n, w, before)
    ensures Idle(n, Apply(n, w, s), before)
  {}

  /** When everything is applied, a run started then applies nothing: it returns 0. */
  lemma {:induction false} NextRunReturnsZero(n: nat, w: World, run: seq<Step>, b: nat)
    requires Inv(n, w) && AllBefore(w.applied, n)
    ensures Idle(n, After(n, w, run), w.booters.Keys)
    ensures var w1 := After(n, w, run);
      b in w1.booters && b !in w.booters && w1.booters[b].Finished? ==> w1.booters[b] == Finished(0)
  {
    if run != [] {
      hide Apply, Idle, Inv;
      var init := run[..|run| - 1];
      NextRunReturnsZero(n, w, init, b);
      RunKeepsInv(n, w, init);
      GoodOf(n, After(n, w, init));
      IdleStep(n, After(n, w, init), run[|run| - 1], w.booters.Keys);
    }
    IdleCount(n, After(n, w, run), w.booters.Keys, b) by { if run == [] { assert Idle(n, w, w.booters.Keys); } }
  }

  lemma GoodOf(n: nat, w: World)
    requires Inv(n, w)
    ensures BootersGood(n, w)
  {}

  lemma IdleCount(n: nat, w: World, before: set<nat>, b: nat)
    requires Idle(n, w, before)
    ensures b in w.booters && b !in before && w.booters[b].Finished? ==> w.booters[b] == Finished(0)
  {}

  // ---- The lock ----

  predicate Holds(w: World) {
    && (forall b :: b in w.booters && !w.booters[b].Finished? ==> w.lock == Some(b))
    && (forall b :: b in w.booters && (w.booters[b].Probing? || w.booters[b].Marking? || w.booters[b].Running?) ==>
          w.booters[b].i !in w.applied)
  }

  lemma HoldsStep(n: nat, w: World, s: Step)
    requires Holds(w) && s != LoseLock
    ensures Holds(Apply(n, w, s))
  {}

  /** As long as the lock holds, no two booters work at once and no commit meets the primary key:
      a transaction that executes commits. */
  lemma {:induction false} LockPreventsConflict(n: nat, w: World, run: seq<Step>, b: nat)
    requires Start(n, w) && forall k :: 0 <= k < |run| ==> run[k] != LoseLock
    ensures Holds(After(n, w, run))
    ensures var w1 := After(n, w, run);
      b in w1.booters && w1.booters[b].Running? ==>
        Apply(n, w1, Commit(b, true)).booters[b] == Looking(w1.booters[b].i + 1, w1.booters[b].count + 1)
  {
    if run != [] {
      hide Apply, Holds;
      LockPreventsConflict(n, w, run[..|run| - 1], b);
      HoldsStep(n, After(n, w, run[..|run| - 1]), run[|run| - 1]);
    }
    CommitGoes(n, After(n, w, run), b) by { if run == [] { assert Holds(w); } }
  }

  lemma CommitGoes(n: nat, w: World, b: nat)
    requires Holds(w)
    ensures b in w.booters && w.booters[b].Running? ==>
      Apply(n, w, Commit(b, true)).booters[b] == Looking(w.booters[b].i + 1, w.booters[b].count + 1)
  {}

  /** The worlds of a race for one migration, after `k` steps. */
  function Racing(k: nat): World {
    var run := Running(0, 0);
    match k
    case 0 => World(true, {}, {}, map[], None, map[])
    case 1 => World(true, {}, {}, map[], Some(1), map[1 := Looking(0, 0)])
    case 2 => World(true, {}, {}, map[], Some(1), map[1 := Probing(0, 0)])
    case 3 => World(true, {}, {}, map[], Some(1), map[1 := run])
    case 4 => World(true, {}, {}, map[], None, map[1 := run])
    case 5 => World(true, {}, {}, map[], Some(2), map[1 := run, 2 := Looking(0, 0)])
    case 6 => World(true, {}, {}, map[], Some(2), map[1 := run, 2 := Probing(0, 0)])
    case 7 => World(true, {}, {}, map[], Some(2), map[1 := run, 2 := run])
    case 8 => World(true, {0}, {0}, map[0 := 1], Some(2), map[1 := run, 2 := Looking(1, 1)])
    case _ => World(true, {0}, {0}, map[0 := 1], Some(2), map[2 := Looking(1, 1)])
  }

  lemma FirstBooter()
    ensures Apply(1, Racing(0), Acquire(1)) == Racing(1) && Apply(1, Racing(1), Look(1)) == Racing(2)
    ensures Apply(1, Racing(2), Probe(1)) == Racing(3) && Apply(1, Racing(3), LoseLock) == Racing(4)
  {}

  lemma SecondBooter()
    ensures Apply(1, Racing(4), Acquire(2)) == Racing(5)
    ensures Apply(1, Racing(5), Look(2)) == Racing(6)
    ensures Apply(1, Racing(6), Probe(2)) == Racing(7)
  {}

  lemma SecondCommits()
    ensures Apply(1, Racing(7), Commit(2, true)) == Racing(8)
  {}

  lemma FirstTurnedAway()
    ensures Apply(1, Racing(8), Commit(1, true)) == Racing(9)
  {
    assert map[1 := Running(0, 0), 2 := Looking(1, 1)] - {1} == map[2 := Looking(1, 1)];
  }

  /** Without it a booter can fail, though no harm is done: two see the same migration missing, and
      the second to commit is turned away. */
  lemma LostLockFailsBooter()
    ensures var run := [Acquire(1), Look(1), Probe(1), LoseLock,
                        Acquire(2), Look(2), Probe(2), Commit(2, true), Commit(1, true)];
      Start(1, Racing(0)) && After(1, Racing(0), run) == Racing(9)
  {
    FirstBooter();
    SecondBooter();
    SecondCommits();
    FirstTurnedAway();
    assert Start(1, Racing(0));
    hide Apply, After, Racing, Start, Prefix;
    var run := [Acquire(1), Look(1), Probe(1), LoseLock,
                Acquire(2), Look(2), Probe(2), Commit(2, true), Commit(1, true)];
    Unfold(1, Racing(0), run, 0, Racing(0), Racing(1));
    Unfold(1, Racing(0), run, 1, Racing(1), Racing(2));
    Unfold(1, Racing(0), run, 2, Racing(2), Racing(3));
    Unfold(1, Racing(0), run, 3, Racing(3), Racing(4));
    Unfold(1, Racing(0), run, 4, Racing(4), Racing(5));
    Unfold(1, Racing(0), run, 5, Racing(5), Racing(6));
    Unfold(1, Racing(0), run, 6, Racing(6), Racing(7));
    Unfold(1, Racing(0), run, 7, Racing(7), Racing(8));
    Unfold(1, Racing(0), run, 8, Racing(8), Racing(9));
    assert run[..9] == run;
  }

  lemma Unfold(n: nat, w: World, run: seq<Step>, k: nat, wk: World, wk1: World)
    requires k < |run| && (k == 0 ==> wk == w) && (k > 0 ==> After(n, w, run[..k]) == wk) && Apply(n, wk, run[k]) == wk1
    ensures After(n, w, run[..k + 1]) == wk1
  {
    hide Apply;
    assert run[..k + 1][..k] == run[..k];
  }

  lemma PrefixGrows(n: nat, applied: set<nat>, i: nat)
    requires Prefix(n, applied) && AllBefore(applied, i) && i < n
    ensures Prefix(n, applied + {i}) && AllBefore(applied + {i}, i + 1)
  {}

  // ---- The code ----

  lemma AfterSnoc(n: nat, w: World, run: seq<Step>, s: Step)
    ensures After(n, w, run + [s]) == Apply(n, After(n, w, run), s)
  {
    hide Apply;
    assert (run + [s])[..|run|] == run;
  }

  // What the statements of booter 0 do, alone and holding the lock.

  lemma NoStep(n: nat, w: World)
    ensures After(n, w, []) == w
  {}

  predicate Alone(w: World, at: At) {
    w.lock == Some(0) && w.booters == map[0 := at]
  }

  lemma AcquireAlone(n: nat, w: World)
    requires w.lock == None && w.booters == map[]
    ensures Apply(n, w, Acquire(0)) == w.(tracking := true, lock := Some(0), booters := map[0 := Looking(0, 0)])
  {}

  lemma LookAlone(n: nat, w: World, i: nat, count: nat)
    requires Alone(w, Looking(i, count)) && i < n
    ensures Apply(n, w, Look(0)) == w.(booters := map[0 :=
      if i in w.applied then Looking(i + 1, count) else if i < MARKED then Probing(i, count) else Running(i, count)])
  {}

  lemma ProbeAlone(n: nat, w: World, i: nat, count: nat)
    requires Alone(w, Probing(i, count))
    ensures Apply(n, w, Probe(0))
            == w.(booters := map[0 := if i in w.tables then Marking(i, count) else Running(i, count)])
  {}

  lemma MarkAlone(n: nat, w: World, i: nat, count: nat)
    requires Alone(w, Marking(i, count))
    ensures Apply(n, w, Mark(0)) == w.(applied := w.applied + {i}, booters := map[0 := Looking(i + 1, count)])
  {}

  lemma CommitAlone(n: nat, w: World, i: nat, count: nat)
    requires Alone(w, Running(i, count)) && i !in w.applied
    ensures Apply(n, w, Commit(0, true))
            == w.(applied := w.applied + {i}, tables := if i < MARKED then w.tables + {i} else w.tables,
                  commits := w.commits[i := Commits(w, i) + 1], booters := map[0 := Looking(i + 1, count + 1)])
  {}

  lemma FinishAlone(n: nat, w: World, i: nat, count: nat)
    requires Alone(w, Looking(i, count)) && i >= n
    ensures Apply(n, w, Look(0)) == w.(lock := None, booters := map[0 := Finished(count)])
  {}

  lemma CrashAlone(n: nat, w: World, at: At)
    requires Alone(w, at)
    ensures Apply(n, w, Crash(0)) == w.(lock := None, booters := map[])
  {}

  /** What has been done by the time the loop looks at migration `i`. */
  predicate Progress(applied0: set<nat>, tables0: set<nat>, applied: set<nat>, tables: set<nat>, ran: set<nat>,
          i: nat) {
    && applied0 <= applied && ran <= applied - applied0
    && (forall k :: k in applied - applied0 ==> k < i)
    && tables0 <= tables && (forall k :: k in tables - tables0 ==> k in ran)
    && (forall k :: k in ran && k < MARKED ==> k !in tables0)
    && (forall k :: k in applied - applied0 - ran ==> k < MARKED && k in tables)
  }

  lemma NoneBefore(applied: set<nat>)
    ensures AllBefore(applied, 0)
  {}

  lemma ProgressStart(applied: set<nat>, tables: set<nat>)
    ensures Progress(applied, tables, applied, tables, {}, 0)
  {}

  lemma ProgressStep(applied0: set<nat>, tables0: set<nat>, applied: set<nat>, tables: set<nat>, ran: set<nat>,
                     i: nat, ranIt: bool)
    requires Progress(applied0, tables0, applied, tables, ran, i)
    requires ranIt <==> i !in applied && !(i < MARKED && i in tables)
    ensures Progress(applied0, tables0, applied + {i}, if ranIt && i < MARKED then tables + {i} else tables,
                     if ranIt then ran + {i} else ran, i + 1)
    ensures |if ranIt then ran + {i} else ran| == |ran| + if ranIt then 1 else 0
  {
    assert forall k :: k in applied + {i} - applied0 ==> k in applied - applied0 || k == i;
    if ranIt {
      assert forall k :: k in applied + {i} - applied0 - (ran + {i}) ==> k in applied - applied0 - ran;
    }
  }

  lemma ProgressMeans(applied0: set<nat>, tables0: set<nat>, applied: set<nat>, tables: set<nat>, ran: set<nat>,
                      i: nat, n: nat)
    requires Progress(applied0, tables0, applied, tables, ran, i) && i <= n
    ensures AllBefore(applied0, n) ==> applied == applied0 && ran == {}
    ensures applied0 <= applied && ran <= applied - applied0
    ensures forall k :: k in applied - applied0 ==> (k in ran <==> !(k < 3 && k in tables0))
  {
    forall k | k in applied - applied0
      ensures k in ran <==> !(k < 3 && k in tables0)
    {
      assert k !in ran ==> k in applied - applied0 - ran;
      assert k in tables && k !in tables0 ==> k in tables - tables0;
    }
    if AllBefore(applied0, n) {
      forall k | k in applied
        ensures k in applied0
      {
        assert k in applied0 || k in applied - applied0;
      }
      assert applied == applied0;
    }
  }

  class Database {
    /** While this holds, no statement fails. */
    const healthy: bool
    var tracking: bool
    var applied: set<nat>
    var tables: set<nat>
    ghost var commits: map<nat, nat>

    constructor (healthy: bool)
      ensures this.healthy == healthy && !tracking && applied == {} && tables == {} && commits == map[]
    {
      this.healthy := healthy;
      tracking, applied, tables, commits := false, {}, {}, map[];
    }

    ghost function W(lock: Option<nat>, booters: map<nat, At>): World
      reads this
    {
      World(tracking, applied, tables, commits, lock, booters)
    }

    /** Whether the next statement succeeds. */
    method Attempt() returns (up: bool)
      ensures healthy ==> up
    {
      up := *;
      up := up || healthy;
    }

    /** One migration that is not recorded yet, by booter 0 holding the lock. */
    method MigrateOne(n: nat, i: nat, ghost count: nat, ghost start: World, ghost before: seq<Step>)
      returns (ok: bool, ran: bool, ghost run: seq<Step>)
      requires i < n && i !in applied && After(n, start, before) == W(Some(0), map[0 := Looking(i, count)])
      modifies this
      ensures tracking == old(tracking)
      ensures After(n, start, run)
              == if ok then W(Some(0), map[0 := Looking(i + 1, if ran then count + 1 else count)]) else W(None, map[])
      ensures ok ==> applied == old(applied) + {i} && (ran <==> !(i < MARKED && i in old(tables)))
      ensures tables == if ok && ran && i < MARKED then old(tables) + {i} else old(tables)
      ensures !ok ==> applied == old(applied)
      ensures healthy ==> ok
    {
      hide After, Apply, Commits;
      ok, ran := true, false;
      ghost var w := W(Some(0), map[0 := Looking(i, count)]);
      LookAlone(n, w, i, count);
      AfterSnoc(n, start, before, Look(0));
      run := before + [Look(0)];
      if i < MARKED {
        w := W(Some(0), map[0 := Probing(i, count)]);
        ProbeAlone(n, w, i, count);
        AfterSnoc(n, start, run, Probe(0));
        run := run + [Probe(0)];
        if i in tables {
          w := W(Some(0), map[0 := Marking(i, count)]);
          MarkAlone(n, w, i, count);
          AfterSnoc(n, start, run, Mark(0));
          run := run + [Mark(0)];
          applied := applied + {i};
          return;
        }
      }
      w := W(Some(0), map[0 := Running(i, count)]);
      var up := Attempt();
      if !up {
        CrashAlone(n, w, Running(i, count));
        AfterSnoc(n, start, run, Crash(0));
        return false, false, run + [Crash(0)];
      }
      CommitAlone(n, w, i, count);
      AfterSnoc(n, start, run, Commit(0, true));
      run := run + [Commit(0, true)];
      ran := true;
      commits := commits[i := Commits(w, i) + 1];
      applied := applied + {i};
      tables := if i < MARKED then tables + {i} else tables;
    }

    /** The loop's turn on migration `i`: nothing if it is recorded, else `MigrateOne`. */
    method LookAt(n: nat, i: nat, ghost count: nat, ghost start: World, ghost before: seq<Step>)
      returns (ok: bool, ran: bool, ghost run: seq<Step>)
      requires i < n && After(n, start, before) == W(Some(0), map[0 := Looking(i, count)])
      modifies this
      ensures tracking == old(tracking)
      ensures After(n, start, run)
              == if ok then W(Some(0), map[0 := Looking(i + 1, if ran then count + 1 else count)]) else W(None, map[])
      ensures applied == if ok then old(applied) + {i} else old(applied)
      ensures ok ==> (ran <==> i !in old(applied) && !(i < MARKED && i in old(tables)))
      ensures tables == if ok && ran && i < MARKED then old(tables) + {i} else old(tables)
      ensures healthy ==> ok
    {
      hide After, Apply;
      ghost var w := W(Some(0), map[0 := Looking(i, count)]);
      var up := Attempt();
      if !up {
        CrashAlone(n, w, Looking(i, count));
        AfterSnoc(n, start, before, Crash(0));
        return false, false, before + [Crash(0)];
      }
      if i in applied {
        assert applied + {i} == applied;
        LookAlone(n, w, i, count);
        AfterSnoc(n, start, before, Look(0));
        return true, false, before + [Look(0)];
      }
      ok, ran, run := MigrateOne(n, i, count, start, before);
    }

    /** Runs what is missing, in order, and says how many it ran; a failing statement ends it with
        everything before it recorded. `ran` are the migrations whose SQL was committed. It is a run
        of one booter. */
    method MigrateLocked(n: nat) returns (count: Option<nat>, ghost ran: set<nat>, ghost run: seq<Step>)
      requires Prefix(n, applied)
      modifies this
      ensures After(n, old(W(None, map[])), run)
              == W(None, if count.Some? then map[0 := Finished(count.value)] else map[])
      ensures Prefix(n, applied) && (count.Some? || old(tracking) ==> tracking)
      ensures old(applied) <= applied && ran <= applied - old(applied)
      ensures forall i :: i in applied - old(applied) ==> (i in ran <==> !(i < 3 && i in old(tables)))
      ensures healthy ==> count.Some?
      ensures count.Some? ==> AllBefore(applied, n) && count.value == |ran|
      ensures AllBefore(old(applied), n) ==> applied == old(applied) && (count.Some? ==> count == Some(0))
    {
      hide Prefix, After, Apply, Progress, AllBefore;
      ProgressStart(applied, tables);
      NoneBefore(applied);
      ghost var start := W(None, map[]);
      ran, count, run := {}, None, [];
      assert After(n, start, []) == start by { NoStep(n, start); }
      var up := Attempt();
      if !up {
        return;
      }
      AcquireAlone(n, start);
      AfterSnoc(n, start, run, Acquire(0));
      run := run + [Acquire(0)];
      tracking := true;
      var done: nat := 0;
      var i: nat := 0;
      while i < n
        invariant 0 <= i <= n && tracking && Prefix(n, applied) && AllBefore(applied, i)
        invariant After(n, start, run) == W(Some(0), map[0 := Looking(i, done)])
        invariant Progress(old(applied), old(tables), applied, tables, ran, i) && done == |ran|
      {
        ghost var appliedBefore, tablesBefore := applied, tables;
        var ok, ranIt;
        ok, ranIt, run := LookAt(n, i, done, start, run);
        if !ok {
          ProgressMeans(old(applied), old(tables), applied, tables, ran, i, n);
          return;
        }
        PrefixGrows(n, appliedBefore, i);
        ProgressStep(old(applied), old(tables), appliedBefore, tablesBefore, ran, i, ranIt);
        if ranIt {
          done, ran := done + 1, ran + {i};
        }
        i := i + 1;
      }
      ProgressMeans(old(applied), old(tables), applied, tables, ran, i, n);
      FinishAlone(n, W(Some(0), map[0 := Looking(i, done)]), i, done);
      AfterSnoc(n, start, run, Look(0));
      run := run + [Look(0)];
      count := Some(done);
    }

    /** The first missing migration, without applying anything. */
    method VerifyMigrations(n: nat) returns (missing: Option<nat>)
      requires n > 0
      ensures missing.Some? ==> missing.value < n
      ensures missing.Some? && tracking ==> AllBefore(applied, missing.value) && missing.value !in applied
      ensures !tracking ==> missing == Some(0)
      ensures missing.None? <==> tracking && AllBefore(applied, n)
    {
      if !tracking {
        return Some(0);
      }
      var i := 0;
      while i < n
        invariant 0 <= i <= n && AllBefore(applied, i)
      {
        if i !in applied {
          return Some(i);
        }
        i := i + 1;
      }
      return None;
    }
  }
}
