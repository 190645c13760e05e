/**
 The move handler itself (crates/beacon-api/src/routes.rs:490-561), statement by statement, over
 the tables it updates. Its effect is a run of the steps of RegionMoves, so what is proved there of
 every run holds of it, alone or interleaved; alone, it is also shown to reach its goal.
 Which calls fail is left open.
 */
module RegionService {
  import opened Domain
  import opened BlobKeys
  import opened RegionMoves

  lemma {:induction false} AfterConcat(b: Backend, w: World, r: seq<Step>, q: seq<Step>)
    ensures After(b, w, r + q) == After(b, After(b, w, r), q)
    ensures Mishaps(b, w, r + q) == Mishaps(b, w, r) + Mishaps(b, After(b, w, r), q)
    decreases |q|
  {
    hide Apply, Mishap;
    if q == [] {
      assert r + q == r;
    } else {
      var n := |q| - 1;
      AfterConcat(b, w, r, q[..n]);
      assert (r + q)[..|r + q| - 1] == r + q[..n];
    }
  }

  lemma OneStep(b: Backend, w: World, s: Step)
    ensures After(b, w, [s]) == Apply(b, w, s)
    ensures Mishaps(b, w, [s]) == if Mishap(b, w, s) then 1 else 0
  {
    hide Apply, Mishap;
    assert [s][..0] == [];
    assert After(b, w, []) == w && Mishaps(b, w, []) == 0;
  }

  class Service {
    const backend: Backend
    /** While this holds, no call fails of itself. */
    const healthy: bool
    var rows: map<nat, Row>
    var blobs: map<Location, Bytes>
    var vaults: map<nat, string>
    ghost var sealed: map<nat, Bytes>
    ghost var owner: map<string, nat>
    ghost var shown: set<string>

    constructor (backend: Backend, healthy: bool)
      ensures this.backend == backend && this.healthy == healthy && Inv(backend, W(map[]))
    {
      this.backend, this.healthy := backend, healthy;
      rows, blobs, vaults, sealed, owner, shown := map[], map[], map[], map[], map[], {};
    }

    /** The world as another handler sees it while this one is as `movers` says. */
    ghost function W(movers: map<nat, Mover>): World
      reads this
    {
      World(rows, blobs, vaults, movers, sealed, owner, shown)
    }

    /** Whether the next call succeeds. */
    method Attempt() returns (up: bool)
      ensures healthy ==> up
    {
      up := *;
      up := up || healthy;
    }

    /** One attachment: fetch, copy, repoint, delete the source. */
    method MoveOne(vault: nat, target: string, it: Item, id: string, ghost rest: seq<Item>)
      returns (ok: bool, deleteFailed: bool, ghost steps: seq<Step>)
      requires it.att in rows && rows[it.att] == Row(vault, it.key)
      requires ParseKey(it.key).0 != Some(target)
      requires IsRegion(target) && NewId(W(map[]), id)
      modifies this
      ensures After(backend, old(W(map[0 := Mover(vault, target, [it] + rest, Idle)])), steps)
              == W(if ok then map[0 := Mover(vault, target, rest, Idle)] else map[])
      ensures Mishaps(backend, old(W(map[0 := Mover(vault, target, [it] + rest, Idle)])), steps)
              <= if ok && !deleteFailed then 0 else 1
      ensures vaults == old(vaults) && it.att in rows && rows == old(rows)[it.att := Row(vault, rows[it.att].key)]
      ensures ok && backend.Router? ==> ParseKey(rows[it.att].key).0 == Some(target)
      ensures owner.Keys <= old(owner).Keys + {id}
      ensures healthy && Readable(backend, old(blobs), it.key) && Served(backend, target) ==> ok && !deleteFailed
    {
      hide After, Mishaps, Mishap, Apply, Locate, IsRegion, ParseKey, IdOf, KeyFor, Configured;
      hide BeginStep, GetStep, PutStep, RepointStep, DeleteStep;
      assert id !in owner && ':' !in id;
      ReadableIs(backend, blobs, it.key);
      hide NewId, Readable, Served;
      ok, deleteFailed, steps := false, false, [];
      ghost var w := W(map[0 := Mover(vault, target, [it] + rest, Idle)]);
      ghost var start := w;
      NoStep(backend, start);
      PutKeyLocates(backend, target, id);

      var source := Locate(backend, it.key);
      var up := Attempt();
      GetDone(backend, start, steps, w, it, rest, up);
      steps := steps + [Get(0, up)];
      if !(up && Configured(backend, source) && source in blobs) {
        return;
      }
      var bytes := blobs[source];
      w := W(map[0 := Mover(vault, target, [it] + rest, Fetched(bytes))]);

      var outcome: PutOutcome := *;
      outcome := if healthy then Stored else outcome;
      var newKey := KeyFor(backend, target, id);
      var copy := Locate(backend, newKey);
      ServedIsConfigured(backend, copy, target);
      PutDone(backend, start, steps, w, it, rest, id, outcome);
      steps := steps + [Put(0, id, outcome)];
      if outcome == Refused || !Configured(backend, copy) {
        return;
      }
      blobs, owner := blobs[copy := bytes], owner[id := it.att];
      if outcome == StoredButFailed {
        return;
      }
      ok, deleteFailed, steps := SwitchOver(vault, target, it, newKey, rest, start, steps);
    }

    /** With the copy in place: repoint the row, then delete the source. */
    method SwitchOver(vault: nat, target: string, it: Item, newKey: string, ghost rest: seq<Item>,
          ghost start: World, ghost before: seq<Step>)
      returns (ok: bool, deleteFailed: bool, ghost steps: seq<Step>)
      requires it.att in rows && rows[it.att] == Row(vault, it.key)
      requires After(backend, start, before) == W(map[0 := Mover(vault, target, [it] + rest, Copied(newKey))])
      modifies this
      ensures After(backend, start, steps) == W(if ok then map[0 := Mover(vault, target, rest, Idle)] else map[])
      ensures Mishaps(backend, start, steps) <= Mishaps(backend, start, before) + if ok && !deleteFailed then 0 else 1
      ensures vaults == old(vaults) && owner == old(owner)
      ensures rows == if ok then old(rows)[it.att := Row(vault, newKey)] else old(rows)
      ensures healthy && Configured(backend, Locate(backend, it.key)) ==> ok && !deleteFailed
    {
      hide After, Mishaps, Locate, IdOf, ParseKey, Configured;
      ghost var w := W(map[0 := Mover(vault, target, [it] + rest, Copied(newKey))]);
      ok := Attempt();
      var up := Attempt();
      var source := Locate(backend, it.key);
      deleteFailed := ok && !(up && Configured(backend, source));
      ghost var w';
      steps, w' := SwitchDone(backend, start, before, w, vault, target, it, newKey, rest, ok, up);
      if ok {
        rows, shown := rows[it.att := Row(vault, newKey)], shown + {IdOf(newKey)};
        if !deleteFailed {
          blobs := blobs - {source};
        }
      }
    }

    /** One turn of the loop: an attachment already in the target region is passed over. */
    method MoveItem(vault: nat, target: string, it: Item, id: string, ghost rest: seq<Item>,
          ghost start: World, ghost before: seq<Step>)
      returns (ok: bool, deleteFailed: bool, ghost run: seq<Step>)
      requires it.att in rows && rows[it.att] == Row(vault, it.key)
      requires IsRegion(target) && NewId(W(map[]), id)
      requires After(backend, start, before) == W(map[0 := Mover(vault, target, [it] + rest, Idle)])
      modifies this
      ensures After(backend, start, run) == W(if ok then map[0 := Mover(vault, target, rest, Idle)] else map[])
      ensures Mishaps(backend, start, run) <= Mishaps(backend, start, before) + if ok && !deleteFailed then 0 else 1
      ensures vaults == old(vaults) && it.att in rows && rows == old(rows)[it.att := Row(vault, rows[it.att].key)]
      ensures ok && backend.Router? ==> ParseKey(rows[it.att].key).0 == Some(target)
      ensures owner.Keys <= old(owner).Keys + {id}
      ensures healthy && Inv(backend, start) && Served(backend, target) ==> ok && !deleteFailed
    {
      hide After, Mishaps, Mishap, Apply, Locate, IsRegion, ParseKey, NewId, Inv, Readable, Served;
      ghost var w := W(map[0 := Mover(vault, target, [it] + rest, Idle)]);
      if ParseKey(it.key).0 == Some(target) {
        SkipDone(backend, start, before, w, it, rest);
        return true, false, before + [Skip(0)];
      }
      if Inv(backend, start) {
        RunKeepsInv(backend, start, before);
        RowsReadable(backend, w, it.att);
      }
      ghost var steps;
      ok, deleteFailed, steps := MoveOne(vault, target, it, id, rest);
      AfterConcat(backend, start, before, steps);
      run := before + steps;
    }

    /** The closing update of the vault's region. */
    method UpdateVault(vault: nat, target: string, ghost start: World, ghost before: seq<Step>)
      returns (moved: bool, ghost run: seq<Step>)
      requires After(backend, start, before) == W(map[0 := Mover(vault, target, [], Idle)])
      modifies `vaults
      ensures After(backend, start, run) == W(map[]) && Mishaps(backend, start, run) == Mishaps(backend, start, before)
      ensures vaults == if moved then old(vaults)[vault := target] else old(vaults)
      ensures healthy ==> moved
    {
      hide After, Mishaps;
      ghost var w := W(map[0 := Mover(vault, target, [], Idle)]);
      moved := Attempt();
      if moved {
        FinishDone(backend, start, before, w);
        vaults := vaults[vault := target];
      } else {
        CrashDone(backend, start, before, w);
      }
      run := before + [if moved then Finish(0) else Crash(0)];
    }

    /** The loop over the listing. */
    method MoveAll(vault: nat, target: string, listing: seq<Item>, ids: seq<string>, ghost start: World,
          ghost before: seq<Step>)
      returns (ok: bool, failedDeletes: nat, ghost run: seq<Step>)
      requires IsRegion(target) && Listing(rows, vault, listing)
      requires |ids| == |listing| && forall i :: 0 <= i < |ids| ==> NewId(W(map[]), ids[i])
      requires forall i, j :: 0 <= i < j < |ids| ==> ids[i] != ids[j]
      requires After(backend, start, before) == W(map[0 := Mover(vault, target, listing, Idle)])
      requires Mishaps(backend, start, before) == 0
      modifies this
      ensures After(backend, start, run) == W(if ok then map[0 := Mover(vault, target, [], Idle)] else map[])
      ensures Mishaps(backend, start, run) <= failedDeletes + if ok then 0 else 1
      ensures vaults == old(vaults)
      ensures healthy && Inv(backend, start) && Served(backend, target) ==> ok && failedDeletes == 0
      ensures OthersKept(old(rows), rows, vault)
      ensures ok ==> Halfway(old(rows), rows, vault, target, listing, |listing|, backend.Router?)
    {
      hide After, Mishaps, Mishap, Apply, Locate, IsRegion, ParseKey, NewId, Listing, Halfway, OthersKept;
      hide Inv, Readable, Served;
      HalfwayStart(rows, vault, target, listing, backend.Router?);
      ok, failedDeletes, run := true, 0, before;
      assert listing[0..] == listing;
      var i := 0;
      while i < |listing|
        invariant 0 <= i <= |listing|
        invariant After(backend, start, run) == W(map[0 := Mover(vault, target, listing[i..], Idle)])
        invariant Mishaps(backend, start, run) <= failedDeletes
        invariant vaults == old(vaults)
        invariant Halfway(old(rows), rows, vault, target, listing, i, backend.Router?)
        invariant forall j :: i <= j < |ids| ==> NewId(W(map[]), ids[j])
        invariant ok && (healthy && Inv(backend, start) && Served(backend, target) ==> failedDeletes == 0)
      {
        assert listing[i..] == [listing[i]] + listing[i + 1..];
        ghost var w := W(map[]);
        HalfwayItem(old(rows), rows, vault, target, listing, i, backend.Router?);
        var deleteFailed;
        ok, deleteFailed, run := MoveItem(vault, target, listing[i], ids[i], listing[i + 1..], start, run);
        HalfwayMoves(old(rows), w.rows, vault, target, listing, i, backend.Router?, rows, ok);
        if !ok {
          return;
        }
        IdsStayNew(w, W(map[]), ids, i);
        failedDeletes := failedDeletes + if deleteFailed then 1 else 0;
        i := i + 1;
      }
      assert listing[i..] == [];
      HalfwayKept(old(rows), rows, vault, target, listing, i, backend.Router?);
    }

    /** A run that completes its loop leaves every key of the vault, and then the vault, in the
        target region; a run that does not leaves the vault where it was, and so does a target that is
        no region. Where nothing is broken and no call fails, it completes. `ids` are the UUIDs the
        store draws, `listing` the rows in the order the database returns them. */
    method MoveVaultRegion(vault: nat, target: string, listing: seq<Item>, ids: seq<string>)
      returns (moved: bool, failedDeletes: nat, ghost run: seq<Step>)
      requires vault in vaults && Listing(rows, vault, listing)
      requires |ids| == |listing| && forall i :: 0 <= i < |ids| ==> NewId(W(map[]), ids[i])
      requires forall i, j :: 0 <= i < j < |ids| ==> ids[i] != ids[j]
      modifies this
      ensures W(map[]) == After(backend, old(W(map[])), run)
      ensures Mishaps(backend, old(W(map[])), run) <= failedDeletes + if moved then 0 else 1
      ensures vaults == if moved then old(vaults)[vault := target] else old(vaults)
      ensures target !in {"ap-southeast-2", "eu-central-1", "us-east-1"} ==> !moved && W(map[]) == old(W(map[]))
      ensures healthy && old(Inv(backend, W(map[]))) && Served(backend, target) ==>
        failedDeletes == 0 && (moved <==> target in {"ap-southeast-2", "eu-central-1", "us-east-1"})
      ensures OthersKept(old(rows), rows, vault)
      ensures moved && target != old(vaults)[vault] && backend.Router? ==>
        forall a :: a in rows && rows[a].vault == vault ==> ParseKey(rows[a].key).0 == Some(target)
    {
      hide After, Mishaps, Mishap, Apply, Locate, IsRegion, ParseKey, NewId, Listing, Halfway, OthersKept;
      hide Inv, Readable, Served;
      moved, failedDeletes, run := false, 0, [];
      ghost var start := W(map[]);
      NoStep(backend, start);
      HalfwayStart(rows, vault, target, listing, backend.Router?);
      RegionsAre(target);
      if !IsRegion(target) {
        return;
      }
      if target == vaults[vault] {
        assert vaults == vaults[vault := target];
        return true, 0, run;
      }
      BeginDone(backend, start, run, start, vault, target, listing);
      run := run + [Begin(0, vault, target, listing)];
      var ok;
      ok, failedDeletes, run := MoveAll(vault, target, listing, ids, start, run);
      if ok {
        HalfwayEnd(old(rows), rows, vault, target, listing, backend.Router?);
        moved, run := UpdateVault(vault, target, start, run);
      }
    }
  }

  /** The same attachments in the same vaults, and those of other vaults as they were. */
  predicate OthersKept(rows0: map<nat, Row>, rows: map<nat, Row>, vault: nat) {
    && rows.Keys == rows0.Keys
    && (forall a :: a in rows ==> rows[a].vault == rows0[a].vault)
    && (forall a :: a in rows && rows[a].vault != vault ==> rows[a] == rows0[a])
  }

  /** The first `i` of the listing have been moved, the rest are as listed. */
  predicate Halfway(rows0: map<nat, Row>, rows: map<nat, Row>, vault: nat, target: string, listing: seq<Item>,
                    i: nat, routed: bool) {
    && OthersKept(rows0, rows, vault)
    && (forall j :: i <= j < |listing| ==> listing[j].att in rows && rows[listing[j].att] == Row(vault, listing[j].key))
    && (routed ==> forall j :: 0 <= j < i && j < |listing| ==>
          listing[j].att in rows && ParseKey(rows[listing[j].att].key).0 == Some(target))
  }

  /** The blob is where its key says. */
  predicate Readable(b: Backend, blobs: map<Location, Bytes>, key: string) {
    Configured(b, Locate(b, key)) && Locate(b, key) in blobs
  }

  /** There is a store for the region. */
  predicate Served(b: Backend, region: string) {
    b.Router? ==> region in b.stores
  }

  lemma ReadableIs(b: Backend, blobs: map<Location, Bytes>, key: string)
    ensures Readable(b, blobs, key) ==> Configured(b, Locate(b, key)) && Locate(b, key) in blobs
  {}

  lemma ServedIsConfigured(b: Backend, l: Location, region: string)
    requires b.Router? ==> l.region == region
    ensures Served(b, region) ==> Configured(b, l)
  {}

  lemma RegionsAre(target: string)
    ensures IsRegion(target) <==> target in {"ap-southeast-2", "eu-central-1", "us-east-1"}
  {}

  lemma RowsReadable(b: Backend, w: World, a: nat)
    requires Inv(b, w) && a in w.rows
    ensures Readable(b, w.blobs, w.rows[a].key)
  {
    assert RowGood(b, w, a);
  }

  lemma HalfwayStart(rows: map<nat, Row>, vault: nat, target: string, listing: seq<Item>, routed: bool)
    requires Listing(rows, vault, listing)
    ensures Halfway(rows, rows, vault, target, listing, 0, routed) && OthersKept(rows, rows, vault)
  {}

  lemma HalfwayItem(rows0: map<nat, Row>, rows: map<nat, Row>, vault: nat, target: string, listing: seq<Item>,
                    i: nat, routed: bool)
    requires Halfway(rows0, rows, vault, target, listing, i, routed) && i < |listing|
    ensures listing[i].att in rows && rows[listing[i].att] == Row(vault, listing[i].key)
  {}

  lemma HalfwayMoves(rows0: map<nat, Row>, rows: map<nat, Row>, vault: nat, target: string, listing: seq<Item>,
                     i: nat, routed: bool, rows1: map<nat, Row>, moved: bool)
    requires Listing(rows0, vault, listing) && i < |listing|
    requires Halfway(rows0, rows, vault, target, listing, i, routed)
    requires listing[i].att in rows1
    requires rows1 == rows[listing[i].att := Row(vault, rows1[listing[i].att].key)]
    requires moved && routed ==> ParseKey(rows1[listing[i].att].key).0 == Some(target)
    ensures OthersKept(rows0, rows1, vault)
    ensures moved ==> Halfway(rows0, rows1, vault, target, listing, i + 1, routed)
  {
    hide ParseKey;
  }

  lemma HalfwayEnd(rows0: map<nat, Row>, rows: map<nat, Row>, vault: nat, target: string, listing: seq<Item>,
                   routed: bool)
    requires Listing(rows0, vault, listing) && Halfway(rows0, rows, vault, target, listing, |listing|, routed)
    ensures OthersKept(rows0, rows, vault)
    ensures routed ==> forall a :: a in rows && rows[a].vault == vault ==> ParseKey(rows[a].key).0 == Some(target)
  {
    hide ParseKey;
    forall a | routed && a in rows && rows[a].vault == vault
      ensures ParseKey(rows[a].key).0 == Some(target)
    {
      assert Item(a, rows0[a].key) in listing;
    }
  }

  lemma HalfwayKept(rows0: map<nat, Row>, rows: map<nat, Row>, vault: nat, target: string, listing: seq<Item>,
                    i: nat, routed: bool)
    requires Halfway(rows0, rows, vault, target, listing, i, routed)
    ensures OthersKept(rows0, rows, vault)
  {}

  /** Drawing one id leaves the later ones new. */
  lemma IdsStayNew(w: World, w1: World, ids: seq<string>, i: nat)
    requires i < |ids| && forall j :: i <= j < |ids| ==> NewId(w, ids[j])
    requires w1.owner.Keys <= w.owner.Keys + {ids[i]} && forall j :: i < j < |ids| ==> ids[j] != ids[i]
    ensures forall j :: i < j < |ids| ==> NewId(w1, ids[j])
  {}

  lemma SameNewIds(w: World, w1: World)
    requires w1.owner == w.owner
    ensures forall id :: NewId(w1, id) <==> NewId(w, id)
  {}

  lemma NoStep(b: Backend, w: World)
    ensures After(b, w, []) == w && Mishaps(b, w, []) == 0
  {}

  lemma Extend(b: Backend, w: World, steps: seq<Step>, s: Step)
    ensures After(b, w, steps + [s]) == Apply(b, After(b, w, steps), s)
    ensures Mishaps(b, w, steps + [s]) == Mishaps(b, w, steps) + if Mishap(b, After(b, w, steps), s) then 1 else 0
  {
    hide Apply, Mishap;
    AfterConcat(b, w, steps, [s]);
    OneStep(b, After(b, w, steps), s);
  }

  // What each step does to a world in which handler 0 alone is at work, on `it`.

  predicate AtWork(w: World, it: Item, rest: seq<Item>) {
    w.movers.Keys == {0} && w.movers[0].todo == [it] + rest
  }

  lemma BeginDone(b: Backend, start: World, steps: seq<Step>, w: World, vault: nat, target: string, listing: seq<Item>)
    requires After(b, start, steps) == w
    requires w.movers == map[] && vault in w.vaults && target != w.vaults[vault]
    requires IsRegion(target) && Listing(w.rows, vault, listing)
    ensures After(b, start, steps + [Begin(0, vault, target, listing)])
            == w.(movers := map[0 := Mover(vault, target, listing, Idle)])
    ensures Mishaps(b, start, steps + [Begin(0, vault, target, listing)]) == Mishaps(b, start, steps)
  {
    hide After, Mishaps, IsRegion, Listing;
    Extend(b, start, steps, Begin(0, vault, target, listing));
  }

  lemma SkipDone(b: Backend, start: World, steps: seq<Step>, w: World, it: Item, rest: seq<Item>)
    requires After(b, start, steps) == w
    requires AtWork(w, it, rest) && w.movers[0].at == Idle && ParseKey(it.key).0 == Some(w.movers[0].target)
    ensures After(b, start, steps + [Skip(0)]) == w.(movers := map[0 := w.movers[0].(todo := rest)])
    ensures Mishaps(b, start, steps + [Skip(0)]) == Mishaps(b, start, steps)
  {
    hide After, Mishaps, ParseKey;
    Extend(b, start, steps, Skip(0));
  }

  lemma CrashDone(b: Backend, start: World, steps: seq<Step>, w: World)
    requires After(b, start, steps) == w
    requires w.movers.Keys == {0} && w.movers[0].todo == []
    ensures After(b, start, steps + [Crash(0)]) == w.(movers := map[])
    ensures Mishaps(b, start, steps + [Crash(0)]) == Mishaps(b, start, steps)
  {
    Extend(b, start, steps, Crash(0));
  }

  lemma FinishDone(b: Backend, start: World, steps: seq<Step>, w: World)
    requires After(b, start, steps) == w
    requires w.movers.Keys == {0} && w.movers[0].todo == []
    ensures After(b, start, steps + [Finish(0)])
            == w.(vaults := w.vaults[w.movers[0].vault := w.movers[0].target], movers := map[])
    ensures Mishaps(b, start, steps + [Finish(0)]) == Mishaps(b, start, steps)
  {
    Extend(b, start, steps, Finish(0));
  }

  lemma GetDone(b: Backend, start: World, steps: seq<Step>, w: World, it: Item, rest: seq<Item>, ok: bool)
    requires After(b, start, steps) == w
    requires AtWork(w, it, rest) && w.movers[0].at == Idle && ParseKey(it.key).0 != Some(w.movers[0].target)
    ensures var l := Locate(b, it.key);
      After(b, start, steps + [Get(0, ok)]) == w.(movers := if ok && Configured(b, l) && l in w.blobs
                                              then map[0 := w.movers[0].(at := Fetched(w.blobs[l]))] else map[])
    ensures Mishaps(b, start, steps + [Get(0, ok)]) == Mishaps(b, start, steps)
  {
    hide After, Mishaps, Locate, Configured, ParseKey;
    Extend(b, start, steps, Get(0, ok));
  }

  lemma PutDone(b: Backend, start: World, steps: seq<Step>, w: World, it: Item, rest: seq<Item>,
                id: string, outcome: PutOutcome)
    requires After(b, start, steps) == w
    requires AtWork(w, it, rest) && w.movers[0].at.Fetched? && id !in w.owner && ':' !in id
    ensures var key := KeyFor(b, w.movers[0].target, id);
      var l := Locate(b, key);
      After(b, start, steps + [Put(0, id, outcome)])
      == if outcome == Refused || !Configured(b, l) then w.(movers := map[])
         else w.(blobs := w.blobs[l := w.movers[0].at.bytes], owner := w.owner[id := it.att],
                 movers := if outcome == Stored then map[0 := w.movers[0].(at := Copied(key))] else map[])
    ensures Mishaps(b, start, steps + [Put(0, id, outcome)])
            <= Mishaps(b, start, steps) + if outcome == StoredButFailed then 1 else 0
  {
    PutAlone(b, w, it, rest, id, outcome);
    hide After, Mishaps, Locate, Configured, KeyFor, PutStep;
    Extend(b, start, steps, Put(0, id, outcome));
  }

  lemma PutAlone(b: Backend, w: World, it: Item, rest: seq<Item>, id: string, outcome: PutOutcome)
    requires AtWork(w, it, rest) && w.movers[0].at.Fetched? && NewId(w, id)
    ensures var key := KeyFor(b, w.movers[0].target, id);
      var l := Locate(b, key);
      PutStep(b, w, 0, id, outcome)
      == if outcome == Refused || !Configured(b, l) then w.(movers := map[])
         else w.(blobs := w.blobs[l := w.movers[0].at.bytes], owner := w.owner[id := it.att],
                 movers := if outcome == Stored then map[0 := w.movers[0].(at := Copied(key))] else map[])
  {
    hide Locate, Configured, KeyFor, NewId;
    var key := KeyFor(b, w.movers[0].target, id);
    OnlyMover(w.movers, w.movers[0].(at := Copied(key)));
    assert w.movers - {0} == map[];
  }

  lemma RepointDone(b: Backend, start: World, steps: seq<Step>, w: World, it: Item, rest: seq<Item>, ok: bool)
    requires After(b, start, steps) == w
    requires AtWork(w, it, rest) && w.movers[0].at.Copied?
    requires it.att in w.rows && w.rows[it.att].key == it.key
    ensures var key := w.movers[0].at.newKey;
      After(b, start, steps + [Repoint(0, ok)])
      == if ok then w.(rows := w.rows[it.att := w.rows[it.att].(key := key)], shown := w.shown + {IdOf(key)},
                       movers := map[0 := w.movers[0].(at := Repointed)])
         else w.(movers := map[])
    ensures Mishaps(b, start, steps + [Repoint(0, ok)]) == Mishaps(b, start, steps) + if !ok then 1 else 0
  {
    hide After, Mishaps, IdOf;
    Extend(b, start, steps, Repoint(0, ok));
  }

  lemma DeleteDone(b: Backend, start: World, steps: seq<Step>, w: World, it: Item, rest: seq<Item>, ok: bool)
    requires After(b, start, steps) == w
    requires AtWork(w, it, rest) && w.movers[0].at.Repointed?
    ensures var l := Locate(b, it.key);
      After(b, start, steps + [Delete(0, ok)]) == w.(blobs := if ok && Configured(b, l) then w.blobs - {l} else w.blobs,
                                       movers := map[0 := w.movers[0].(at := Idle, todo := rest)])
    ensures Mishaps(b, start, steps + [Delete(0, ok)])
            == Mishaps(b, start, steps) + if !(ok && Configured(b, Locate(b, it.key))) then 1 else 0
  {
    DeleteAlone(b, w, it, rest, ok);
    hide After, Mishaps, Locate, Configured, DeleteStep;
    Extend(b, start, steps, Delete(0, ok));
  }

  /** The two together. */
  lemma SwitchDone(b: Backend, start: World, before: seq<Step>, w: World, vault: nat, target: string, it: Item,
                   newKey: string, rest: seq<Item>, repointed: bool, up: bool)
    returns (steps: seq<Step>, w': World)
    requires After(b, start, before) == w
    requires w.movers == map[0 := Mover(vault, target, [it] + rest, Copied(newKey))]
    requires it.att in w.rows && w.rows[it.att] == Row(vault, it.key)
    ensures After(b, start, steps) == w'
    ensures w' == if !repointed then w.(movers := map[])
                  else w.(rows := w.rows[it.att := Row(vault, newKey)], shown := w.shown + {IdOf(newKey)},
                          blobs := if up && Configured(b, Locate(b, it.key)) then w.blobs - {Locate(b, it.key)}
                              else w.blobs,
                          movers := map[0 := Mover(vault, target, rest, Idle)])
    ensures Mishaps(b, start, steps)
            == Mishaps(b, start, before) + if repointed && up && Configured(b, Locate(b, it.key)) then 0 else 1
  {
    hide After, Mishaps, Locate, IdOf, Configured;
    RepointDone(b, start, before, w, it, rest, repointed);
    steps := before + [Repoint(0, repointed)];
    if repointed {
      DeleteDone(b, start, steps, After(b, start, steps), it, rest, up);
      steps := steps + [Delete(0, up)];
    }
    w' := After(b, start, steps);
  }

  lemma DeleteAlone(b: Backend, w: World, it: Item, rest: seq<Item>, ok: bool)
    requires AtWork(w, it, rest) && w.movers[0].at.Repointed?
    ensures var l := Locate(b, it.key);
      DeleteStep(b, w, 0, ok) == w.(blobs := if ok && Configured(b, l) then w.blobs - {l} else w.blobs,
                                    movers := map[0 := w.movers[0].(at := Idle, todo := rest)])
    ensures DeleteReady(w, 0)
  {
    hide Locate, Configured;
    assert w.movers[0].todo[1..] == rest;
    OnlyMover(w.movers, w.movers[0].(at := Idle, todo := rest));
  }

  lemma OnlyMover(movers: map<nat, Mover>, v: Mover)
    requires movers.Keys == {0}
    ensures movers[0 := v] == map[0 := v]
  {}
}
