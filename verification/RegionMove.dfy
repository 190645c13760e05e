/**
 Moving a vault's attachments to another region (crates/beacon-api/src/routes.rs:490-561): for each
 attachment put a copy in the target, repoint the row, delete the source. One step is one call to
 the blob store or one SQL statement; any number of movers, seals and deletions interleave, and a
 mover may crash or fail between any two steps. `sealed`, `owner` and `shown` are history: what was
 sealed for each attachment, for which attachment an id was drawn, and the ids that have stood in
 a row.
 */
module RegionMoves {
  import opened Domain
  import opened BlobKeys

  type Bytes = seq<nat>

  datatype Row = Row(vault: nat, key: string)

  datatype Item = Item(att: nat, key: string)

  datatype Progress = Idle | Fetched(bytes: Bytes) | Copied(newKey: string) | Repointed

  /** One handler: `todo` is what is left of the listing it took at the start. */
  datatype Mover = Mover(vault: nat, target: string, todo: seq<Item>, at: Progress)

  datatype World = World(
    rows: map<nat, Row>,
    blobs: map<Location, Bytes>,
    vaults: map<nat, string>,
    movers: map<nat, Mover>,
    sealed: map<nat, Bytes>,
    owner: map<string, nat>,
    shown: set<string>
  )

  /** A failed `put` may still have stored the object. */
  datatype PutOutcome = Stored | Refused | StoredButFailed

  datatype Step =
    | Begin(m: nat, vault: nat, target: string, listing: seq<Item>)
    | Skip(m: nat)
    | Get(m: nat, ok: bool)
    | Put(m: nat, id: string, outcome: PutOutcome)
    | Repoint(m: nat, ok: bool)
    | Delete(m: nat, ok: bool)
    | Finish(m: nat)
    | Crash(m: nat)
    | Seal(att: nat, vault: nat, region: string, bytes: Bytes, id: string, recorded: bool)
    | Purge(att: nat, ok: bool)

  predicate Listing(rows: map<nat, Row>, vault: nat, listing: seq<Item>) {
    && (forall i :: 0 <= i < |listing| ==> listing[i].att in rows && rows[listing[i].att] == Row(vault, listing[i].key))
    && (forall i, j :: 0 <= i < j < |listing| ==> listing[i].att != listing[j].att)
    && (forall a :: a in rows && rows[a].vault == vault ==> Item(a, rows[a].key) in listing)
  }

  /** Ids are random UUIDs: never drawn twice, no colon. */
  predicate NewId(w: World, id: string) {
    id !in w.owner && ':' !in id
  }

  function Drop(w: World, m: nat): (w1: World)
    ensures w1.movers - {m} == w.movers - {m}
  {
    w.(movers := w.movers - {m})
  }

  function Advance(w: World, m: nat, at: Progress): (w1: World)
    requires m in w.movers
    ensures w1.movers - {m} == w.movers - {m}
  {
    w.(movers := w.movers[m := w.movers[m].(at := at)])
  }

  function Next(w: World, m: nat): (w1: World)
    requires m in w.movers && w.movers[m].todo != []
    ensures w1.movers - {m} == w.movers - {m}
  {
    w.(movers := w.movers[m := w.movers[m].(at := Idle, todo := w.movers[m].todo[1..])])
  }

  /** The store keeps `bytes` under a fresh id drawn for attachment `att`. */
  function Store(b: Backend, w: World, region: string, id: string, att: nat, bytes: Bytes): World {
    w.(blobs := w.blobs[Locate(b, KeyFor(b, region, id)) := bytes], owner := w.owner[id := att])
  }

  /** The attachment a mover is at, when it has begun work on one (or may begin). */
  predicate At(w: World, m: nat, target: bool) {
    && m in w.movers && w.movers[m].todo != []
    && (ParseKey(w.movers[m].todo[0].key).0 == Some(w.movers[m].target) <==> target)
  }

  function BeginStep(w: World, m: nat, vault: nat, target: string, listing: seq<Item>): (w1: World)
    ensures w1.sealed == w.sealed
  {
    if m !in w.movers && vault in w.vaults && IsRegion(target) && target != w.vaults[vault]
       && Listing(w.rows, vault, listing)
    then w.(movers := w.movers[m := Mover(vault, target, listing, Idle)])
    else w
  }

  function GetStep(b: Backend, w: World, m: nat, ok: bool): (w1: World)
    ensures w1.sealed == w.sealed
  {
    if At(w, m, false) && w.movers[m].at.Idle? then
      var l := Locate(b, w.movers[m].todo[0].key);
      if ok && Configured(b, l) && l in w.blobs then Advance(w, m, Fetched(w.blobs[l])) else Drop(w, m)
    else w
  }

  predicate PutReady(w: World, m: nat, id: string) {
    && m in w.movers && w.movers[m].todo != [] && w.movers[m].at.Fetched? && NewId(w, id)
  }

  function PutStep(b: Backend, w: World, m: nat, id: string, outcome: PutOutcome): (w1: World)
    ensures w1.sealed == w.sealed
  {
    if PutReady(w, m, id) then
      var v := w.movers[m];
      if outcome == Refused || !Configured(b, Locate(b, KeyFor(b, v.target, id))) then Drop(w, m)
      else
        var w1 := Store(b, w, v.target, id, v.todo[0].att, v.at.bytes);
        if outcome == Stored then Advance(w1, m, Copied(KeyFor(b, v.target, id))) else Drop(w1, m)
    else w
  }

  predicate RepointReady(w: World, m: nat) {
    m in w.movers && w.movers[m].todo != [] && w.movers[m].at.Copied?
  }

  /** UPDATE attachment SET storage_key: no row, no effect, and still success. */
  function RepointStep(w: World, m: nat, ok: bool): (w1: World)
    ensures w1.sealed == w.sealed
  {
    if RepointReady(w, m) then
      var a, key := w.movers[m].todo[0].att, w.movers[m].at.newKey;
      if !ok then Drop(w, m)
      else if a in w.rows then
        Advance(w.(rows := w.rows[a := w.rows[a].(key := key)], shown := w.shown + {IdOf(key)}), m, Repointed)
      else Advance(w, m, Repointed)
    else w
  }

  predicate DeleteReady(w: World, m: nat) {
    m in w.movers && w.movers[m].todo != [] && w.movers[m].at.Repointed?
  }

  /** The delete of the source is best effort: its failure is ignored. */
  function DeleteStep(b: Backend, w: World, m: nat, ok: bool): (w1: World)
    ensures w1.sealed == w.sealed
  {
    if DeleteReady(w, m) then
      var l := Locate(b, w.movers[m].todo[0].key);
      Next(if ok && Configured(b, l) then w.(blobs := w.blobs - {l}) else w, m)
    else w
  }

  function FinishStep(w: World, m: nat): (w1: World)
    ensures w1.sealed == w.sealed
  {
    if m in w.movers && w.movers[m].todo == [] then
      Drop(w.(vaults := w.vaults[w.movers[m].vault := w.movers[m].target]), m)
    else w
  }

  predicate SealReady(b: Backend, w: World, att: nat, region: string, id: string) {
    att !in w.sealed && NewId(w, id) && IsRegion(region) && Configured(b, Locate(b, KeyFor(b, region, id)))
  }

  function SealStep(b: Backend, w: World, att: nat, vault: nat, region: string, bytes: Bytes,
                    id: string, recorded: bool): World {
    if SealReady(b, w, att, region, id) then
      var w1 := Store(b, w, region, id, att, bytes).(sealed := w.sealed[att := bytes]);
      if recorded then w1.(rows := w.rows[att := Row(vault, KeyFor(b, region, id))], shown := w.shown + {id}) else w1
    else w
  }

  function PurgeStep(b: Backend, w: World, att: nat, ok: bool): (w1: World)
    ensures w1.sealed == w.sealed
  {
    if att in w.rows then
      var l := Locate(b, w.rows[att].key);
      w.(rows := w.rows - {att}, blobs := if ok && Configured(b, l) then w.blobs - {l} else w.blobs)
    else w
  }

  function Apply(b: Backend, w: World, s: Step): World {
    match s
    case Begin(m, vault, target, listing) => BeginStep(w, m, vault, target, listing)
    case Skip(m) => if At(w, m, true) && w.movers[m].at.Idle? then Next(w, m) else w
    case Get(m, ok) => GetStep(b, w, m, ok)
    case Put(m, id, outcome) => PutStep(b, w, m, id, outcome)
    case Repoint(m, ok) => RepointStep(w, m, ok)
    case Delete(m, ok) => DeleteStep(b, w, m, ok)
    case Finish(m) => FinishStep(w, m)
    case Crash(m) => Drop(w, m)
    case Seal(att, vault, region, bytes, id, recorded) => SealStep(b, w, att, vault, region, bytes, id, recorded)
    case Purge(att, ok) => PurgeStep(b, w, att, ok)
  }

  function After(b: Backend, w: World, run: seq<Step>): World {
    if run == [] then w else Apply(b, After(b, w, run[..|run| - 1]), run[|run| - 1])
  }

  // ---- No loss ----

  /** What a reader of attachment `a` is served. */
  function Fetch(b: Backend, w: World, a: nat): Option<Bytes> {
    if a !in w.rows then None else
      var l := Locate(b, w.rows[a].key);
      if Configured(b, l) && l in w.blobs then Some(w.blobs[l]) else None
  }

  predicate Owned(w: World, key: string, a: nat) {
    IdOf(key) in w.owner && w.owner[IdOf(key)] == a
  }

  predicate RowGood(b: Backend, w: World, a: nat)
    requires a in w.rows
  {
    var key := w.rows[a].key;
    && a in w.sealed && Owned(w, key, a) && IdOf(key) in w.shown
    && Configured(b, Locate(b, key)) && Locate(b, key) in w.blobs
  }

  predicate RowsGood(b: Backend, w: World) {
    forall a :: a in w.rows ==> RowGood(b, w, a)
  }

  predicate BlobGood(w: World, l: Location)
    requires l in w.blobs
  {
    l.id in w.owner && w.owner[l.id] in w.sealed && w.blobs[l] == w.sealed[w.owner[l.id]]
  }

  predicate BlobsGood(w: World) {
    forall l :: l in w.blobs ==> BlobGood(w, l)
  }

  predicate HistoryGood(w: World) {
    (forall id :: id in w.owner ==> w.owner[id] in w.sealed) && (forall id :: id in w.shown ==> id in w.owner)
  }

  predicate ItemGood(w: World, it: Item) {
    Owned(w, it.key, it.att) && IdOf(it.key) in w.shown
  }

  predicate ProgressGood(b: Backend, w: World, v: Mover)
    requires v.todo != []
  {
    var it := v.todo[0];
    match v.at
    case Idle => true
    case Fetched(bytes) => it.att in w.sealed && bytes == w.sealed[it.att]
    case Copied(key) =>
      Owned(w, key, it.att) && IdOf(key) !in w.shown && Configured(b, Locate(b, key)) && Locate(b, key) in w.blobs
    case Repointed => it.att in w.rows ==> IdOf(w.rows[it.att].key) != IdOf(it.key)
  }

  predicate MoverGood(b: Backend, w: World, v: Mover) {
    && IsRegion(v.target)
    && (forall i :: 0 <= i < |v.todo| ==> ItemGood(w, v.todo[i]))
    && (if v.todo == [] then v.at.Idle? else ProgressGood(b, w, v))
  }

  predicate MoversGood(b: Backend, w: World) {
    forall m :: m in w.movers ==> MoverGood(b, w, w.movers[m])
  }

  /** Copies in flight are copies of their own. */
  predicate CopiesApart(w: World) {
    forall m, n :: m in w.movers && n in w.movers && m != n && w.movers[m].at.Copied? && w.movers[n].at.Copied? ==>
      IdOf(w.movers[m].at.newKey) != IdOf(w.movers[n].at.newKey)
  }

  predicate Inv(b: Backend, w: World) {
    RowsGood(b, w) && BlobsGood(w) && HistoryGood(w) && MoversGood(b, w) && CopiesApart(w)
  }

  lemma {:induction false} RunKeepsInv(b: Backend, w: World, run: seq<Step>)
    requires Inv(b, w)
    ensures Inv(b, After(b, w, run))
  {
    hide Inv, Apply;
    if run != [] {
      RunKeepsInv(b, w, run[..|run| - 1]);
      StepKeepsInv(b, After(b, w, run[..|run| - 1]), run[|run| - 1]);
    }
  }

  lemma StepKeepsInv(b: Backend, w: World, s: Step)
    requires Inv(b, w)
    ensures Inv(b, Apply(b, w, s))
  {
    hide Inv;
    match s
    case Begin(m, vault, target, listing) => BeginKeepsInv(b, w, m, vault, target, listing);
    case Skip(m) => NextKeepsInv(b, w, m);
    case Get(m, ok) => GetKeepsInv(b, w, m, ok);
    case Put(m, id, outcome) => PutKeepsInv(b, w, m, id, outcome);
    case Repoint(m, ok) => RepointKeepsInv(b, w, m, ok);
    case Delete(m, ok) => DeleteKeepsInv(b, w, m, ok);
    case Finish(m) => FinishKeepsInv(b, w, m);
    case Crash(m) => DropKeepsInv(b, w, m);
    case Seal(att, vault, region, bytes, id, recorded) => SealKeepsInv(b, w, att, vault, region, bytes, id, recorded);
    case Purge(att, ok) => PurgeKeepsInv(b, w, att, ok);
  }

  lemma FinishKeepsInv(b: Backend, w: World, m: nat)
    requires Inv(b, w)
    ensures Inv(b, FinishStep(w, m))
  {
    hide Locate, IdOf;
  }

  lemma BeginKeepsInv(b: Backend, w: World, m: nat, vault: nat, target: string, listing: seq<Item>)
    requires Inv(b, w)
    ensures Inv(b, BeginStep(w, m, vault, target, listing))
  {
    hide Locate, IdOf;
  }

  lemma NextKeepsInv(b: Backend, w: World, m: nat)
    requires Inv(b, w)
    ensures m in w.movers && w.movers[m].todo != [] ==> Inv(b, Next(w, m))
  {
    hide Locate, IdOf;
  }

  lemma DropKeepsInv(b: Backend, w: World, m: nat)
    requires Inv(b, w)
    ensures Inv(b, Drop(w, m))
  {
    hide Locate, IdOf;
  }

  lemma GetKeepsInv(b: Backend, w: World, m: nat, ok: bool)
    requires Inv(b, w)
    ensures Inv(b, GetStep(b, w, m, ok))
  {
    hide Locate, IdOf;
    DropKeepsInv(b, w, m);
  }

  lemma AdvanceKeepsInv(b: Backend, w: World, m: nat, at: Progress)
    requires Inv(b, w) && m in w.movers && w.movers[m].todo != [] && ProgressGood(b, w, w.movers[m].(at := at))
    requires at.Copied? ==> forall n :: n in w.movers && w.movers[n].at.Copied? ==>
      IdOf(w.movers[n].at.newKey) != IdOf(at.newKey)
    ensures Inv(b, Advance(w, m, at))
  {
    hide Locate, IdOf;
  }

  /** A new blob under a fresh id disturbs nothing. */
  lemma StoreKeepsInv(b: Backend, w: World, region: string, id: string, att: nat, bytes: Bytes)
    requires Inv(b, w) && NewId(w, id) && IsRegion(region) && att in w.sealed && w.sealed[att] == bytes
    ensures Inv(b, Store(b, w, region, id, att, bytes))
  {
    PutKeyLocates(b, region, id);
    hide Locate, IdOf, KeyFor, Configured, IsRegion;
    var w1 := Store(b, w, region, id, att, bytes);
    StoreKeepsTables(b, w, w1, Locate(b, KeyFor(b, region, id)), att);
    hide RowsGood, BlobsGood;
    forall m | m in w1.movers
      ensures MoverGood(b, w1, w1.movers[m])
    {
      StoreKeepsMover(b, w, w1, w.movers[m], id);
    }
  }

  lemma StoreKeepsTables(b: Backend, w: World, w1: World, l: Location, att: nat)
    requires RowsGood(b, w) && BlobsGood(w) && HistoryGood(w) && l.id !in w.owner && att in w.sealed
    requires w1 == w.(blobs := w.blobs[l := w.sealed[att]], owner := w.owner[l.id := att])
    ensures RowsGood(b, w1) && BlobsGood(w1) && HistoryGood(w1)
  {
    hide Locate, IdOf, Configured;
  }

  lemma StoreKeepsMover(b: Backend, w: World, w1: World, v: Mover, id: string)
    requires MoverGood(b, w, v) && id !in w.owner && HistoryGood(w)
    requires w1.rows == w.rows && w1.sealed == w.sealed && w1.shown == w.shown
    requires id in w1.owner && w1.owner == w.owner[id := w1.owner[id]]
    requires forall l :: l in w.blobs ==> l in w1.blobs
    ensures MoverGood(b, w1, v)
  {
    hide Locate, IdOf, Configured, IsRegion;
  }

  lemma PutKeepsInv(b: Backend, w: World, m: nat, id: string, outcome: PutOutcome)
    requires Inv(b, w)
    ensures Inv(b, PutStep(b, w, m, id, outcome))
  {
    hide Locate, IdOf, KeyFor, Configured;
    if PutReady(w, m, id) {
      DropKeepsInv(b, w, m);
      var v := w.movers[m];
      assert MoverGood(b, w, v);
      hide Inv;
      PutKeyLocates(b, v.target, id);
      StoreKeepsInv(b, w, v.target, id, v.todo[0].att, v.at.bytes);
      var w1 := Store(b, w, v.target, id, v.todo[0].att, v.at.bytes);
      DropKeepsInv(b, w1, m);
      if Configured(b, Locate(b, KeyFor(b, v.target, id))) {
        CopiesKnown(b, w, id);
        AdvanceKeepsInv(b, w1, m, Copied(KeyFor(b, v.target, id)));
      }
    }
  }

  lemma CopiesKnown(b: Backend, w: World, id: string)
    requires Inv(b, w) && id !in w.owner
    ensures forall n :: n in w.movers && w.movers[n].at.Copied? ==> IdOf(w.movers[n].at.newKey) != id
    ensures id !in w.shown
  {}

  lemma RepointKeepsInv(b: Backend, w: World, m: nat, ok: bool)
    requires Inv(b, w)
    ensures Inv(b, RepointStep(w, m, ok))
  {
    hide Locate, IdOf, Configured, IsRegion;
    DropKeepsInv(b, w, m);
    if ok && m in w.movers && w.movers[m].todo != [] && w.movers[m].at.Copied? {
      var a, key := w.movers[m].todo[0].att, w.movers[m].at.newKey;
      assert MoverGood(b, w, w.movers[m]);
      if a in w.rows {
        var w1 := w.(rows := w.rows[a := w.rows[a].(key := key)], shown := w.shown + {IdOf(key)});
        var w2 := Advance(w1, m, Repointed);
        assert RowsGood(b, w2);
        forall n | n in w2.movers
          ensures MoverGood(b, w2, w2.movers[n])
        {
          assert MoverGood(b, w, w.movers[n]);
          if n != m {
            assert w.movers[n].at.Copied? ==> IdOf(w.movers[n].at.newKey) != IdOf(key);
            RepointKeepsMover(b, w, w2, a, key, w.movers[n]);
          }
        }
      } else {
        AdvanceKeepsInv(b, w, m, Repointed);
      }
    }
  }

  lemma RepointKeepsMover(b: Backend, w: World, w1: World, a: nat, key: string, v: Mover)
    requires MoverGood(b, w, v) && a in w.rows && IdOf(key) !in w.shown
    requires w1.rows == w.rows[a := Row(w.rows[a].vault, key)] && w1.shown == w.shown + {IdOf(key)}
    requires w1.blobs == w.blobs && w1.owner == w.owner && w1.sealed == w.sealed
    requires v.at.Copied? ==> IdOf(v.at.newKey) != IdOf(key)
    ensures MoverGood(b, w1, v)
  {
    hide Locate, IdOf, Configured, IsRegion;
  }

  lemma DeleteKeepsInv(b: Backend, w: World, m: nat, ok: bool)
    requires Inv(b, w)
    ensures Inv(b, DeleteStep(b, w, m, ok))
  {
    hide Inv, Locate, Configured;
    if DeleteReady(w, m) {
      var l := Locate(b, w.movers[m].todo[0].key);
      if ok && Configured(b, l) {
        SourceUnused(b, w, m);
        BlobGone(b, w, l);
        NextKeepsInv(b, w.(blobs := w.blobs - {l}), m);
      } else {
        NextKeepsInv(b, w, m);
      }
    }
  }

  /** Once the row is repointed, no row and no copy in flight is at the source. */
  lemma SourceUnused(b: Backend, w: World, m: nat)
    requires Inv(b, w) && DeleteReady(w, m)
    ensures Unused(b, w, Locate(b, w.movers[m].todo[0].key))
  {
    assert MoverGood(b, w, w.movers[m]);
    var it := w.movers[m].todo[0];
    assert ItemGood(w, it);
    LocateId(b, it.key);
    forall a | a in w.rows
      ensures Locate(b, w.rows[a].key) != Locate(b, it.key)
    {
      assert RowGood(b, w, a);
      LocateId(b, w.rows[a].key);
    }
    forall n | n in w.movers && w.movers[n].todo != [] && w.movers[n].at.Copied?
      ensures Locate(b, w.movers[n].at.newKey) != Locate(b, it.key)
    {
      assert MoverGood(b, w, w.movers[n]);
      LocateId(b, w.movers[n].at.newKey);
    }
  }

  predicate Unused(b: Backend, w: World, l: Location) {
    && (forall a :: a in w.rows ==> Locate(b, w.rows[a].key) != l)
    && (forall n :: n in w.movers && w.movers[n].todo != [] && w.movers[n].at.Copied? ==>
          Locate(b, w.movers[n].at.newKey) != l)
  }

  lemma LocateId(b: Backend, key: string)
    ensures Locate(b, key).id == IdOf(key)
  {}

  lemma BlobGone(b: Backend, w: World, l: Location)
    requires Inv(b, w) && Unused(b, w, l)
    ensures Inv(b, w.(blobs := w.blobs - {l}))
  {
    hide Locate, IdOf, Configured, IsRegion;
  }

  lemma SealKeepsInv(b: Backend, w: World, att: nat, vault: nat, region: string, bytes: Bytes, id: string,
          recorded: bool)
    requires Inv(b, w)
    ensures Inv(b, SealStep(b, w, att, vault, region, bytes, id, recorded))
  {
    if NewId(w, id) && IsRegion(region) && att !in w.sealed {
      PutKeyLocates(b, region, id);
      hide Locate, IdOf, KeyFor, Configured, IsRegion;
      var w0 := w.(sealed := w.sealed[att := bytes]);
      SealedGrows(b, w, att, bytes);
      StoreKeepsInv(b, w0, region, id, att, bytes);
      var w1 := Store(b, w0, region, id, att, bytes);
      CopiesKnown(b, w0, id);
      if Configured(b, Locate(b, KeyFor(b, region, id))) {
        RecordKeepsInv(b, w1, att, vault, KeyFor(b, region, id));
      }
    }
  }

  lemma SealedGrows(b: Backend, w: World, att: nat, bytes: Bytes)
    requires Inv(b, w) && att !in w.sealed
    ensures Inv(b, w.(sealed := w.sealed[att := bytes])) && att !in w.rows
  {
    hide Locate, IdOf, Configured, IsRegion;
  }

  lemma RecordKeepsInv(b: Backend, w: World, att: nat, vault: nat, key: string)
    requires Inv(b, w) && att !in w.rows && att in w.sealed && Owned(w, key, att)
    requires Configured(b, Locate(b, key)) && Locate(b, key) in w.blobs
    requires forall n :: n in w.movers && w.movers[n].at.Copied? ==> IdOf(w.movers[n].at.newKey) != IdOf(key)
    requires forall n, i :: n in w.movers && 0 <= i < |w.movers[n].todo| ==> IdOf(w.movers[n].todo[i].key) != IdOf(key)
    ensures Inv(b, w.(rows := w.rows[att := Row(vault, key)], shown := w.shown + {IdOf(key)}))
  {
    hide Locate, IdOf, Configured, IsRegion;
  }

  lemma PurgeKeepsInv(b: Backend, w: World, att: nat, ok: bool)
    requires Inv(b, w)
    ensures Inv(b, PurgeStep(b, w, att, ok))
  {
    hide Locate, IdOf, Configured, IsRegion;
  }

  predicate SealedKept(w: World, w1: World) {
    forall a :: a in w.sealed ==> a in w1.sealed && w1.sealed[a] == w.sealed[a]
  }

  lemma {:induction false} RunKeepsSealed(b: Backend, w: World, run: seq<Step>)
    ensures SealedKept(w, After(b, w, run))
  {
    if run != [] {
      hide Apply;
      RunKeepsSealed(b, w, run[..|run| - 1]);
      StepKeepsSealed(b, After(b, w, run[..|run| - 1]), run[|run| - 1]);
    }
  }

  lemma StepKeepsSealed(b: Backend, w: World, s: Step)
    ensures SealedKept(w, Apply(b, w, s))
  {
    hide Locate, KeyFor, Configured, IsRegion, At;
    hide BeginStep, GetStep, PutStep, RepointStep, DeleteStep, FinishStep, PurgeStep;
    match s
    case Seal(_, _, _, _, _, _) =>
    case _ => assert Apply(b, w, s).sealed == w.sealed;
  }

  /** No loss: after any interleaving of movers, seals, deletions, failures, crashes and re-runs,
      every attachment still recorded reads back the bytes sealed for it. */
  lemma NothingLost(b: Backend, w: World, run: seq<Step>, a: nat)
    requires Inv(b, w)
    ensures var w1 := After(b, w, run);
      && (a in w1.rows ==> a in w1.sealed && Fetch(b, w1, a) == Some(w1.sealed[a]))
      && (a in w.rows && a in w1.rows ==> Fetch(b, w1, a) == Fetch(b, w, a))
  {
    hide After;
    RunKeepsInv(b, w, run);
    RunKeepsSealed(b, w, run);
    var w1 := After(b, w, run);
    if a in w1.rows {
      assert RowGood(b, w1, a) && BlobGood(w1, Locate(b, w1.rows[a].key));
    }
    if a in w.rows {
      assert RowGood(b, w, a) && BlobGood(w, Locate(b, w.rows[a].key));
    }
  }

  /** A mover passes over an attachment exactly if its key says the target already, and otherwise fetches
      it. */
  lemma SkipsOrFetches(b: Backend, w: World, m: nat, ok: bool)
    requires m in w.movers && w.movers[m].todo != [] && w.movers[m].at == Idle
    ensures var there := ParseKey(w.movers[m].todo[0].key).0 == Some(w.movers[m].target);
      && (there ==> Apply(b, w, Get(m, ok)) == w && m in Apply(b, w, Skip(m)).movers
                    && Apply(b, w, Skip(m)).movers[m].todo == w.movers[m].todo[1..])
      && (!there ==> Apply(b, w, Skip(m)) == w
                     && (m in Apply(b, w, Get(m, ok)).movers <==> ok && Fetchable(b, w, w.movers[m].todo[0].key)))
  {
    hide ParseKey, Locate;
  }

  predicate Fetchable(b: Backend, w: World, key: string) {
    Configured(b, Locate(b, key)) && Locate(b, key) in w.blobs
  }

  /** The listing of a vault has each of its rows once, in some order; there always is one. */
  lemma {:induction false} ListingExists(rows: map<nat, Row>, vault: nat) returns (listing: seq<Item>)
    ensures Listing(rows, vault, listing)
    ensures forall a :: a in rows && rows[a].vault == vault <==> exists it :: it in listing && it.att == a
    decreases |rows|
  {
    if rows == map[] {
      listing := [];
    } else {
      var a :| a in rows;
      var rest := rows - {a};
      assert rest.Keys == rows.Keys - {a};
      var others := ListingExists(rest, vault);
      listing := if rows[a].vault == vault then others + [Item(a, rows[a].key)] else others;
      forall k | k in rows && rows[k].vault == vault
        ensures Item(k, rows[k].key) in listing
      {
        if k != a {
          assert k in rest && Item(k, rest[k].key) in others;
        } else {
          assert listing[|others|] == Item(k, rows[k].key);
        }
      }
    }
  }

  /** A file sealed and recorded reads back at once, wherever it was put, and no other row changes. */
  lemma SealedReads(b: Backend, w: World, att: nat, vault: nat, region: string, bytes: Bytes, id: string)
    requires att !in w.sealed && NewId(w, id) && region in {"ap-southeast-2", "eu-central-1", "us-east-1"}
    requires b.Router? ==> region in b.stores
    ensures var w1 := Apply(b, w, Seal(att, vault, region, bytes, id, true));
      && att in w1.rows && w1.rows[att].vault == vault && w1.rows == w.rows[att := w1.rows[att]]
      && Fetch(b, w1, att) == Some(bytes)
      && (b.Router? ==> ParseKey(w1.rows[att].key).0 == Some(region))
  {
    PutKeyLocates(b, region, id);
    hide Locate, ParseKey, KeyFor;
  }

  /** A deleted file's row is gone, and its blob too unless that failed; nothing else is. */
  lemma PurgedIsGone(b: Backend, w: World, att: nat, ok: bool)
    requires Inv(b, w) && att in w.rows
    ensures var w1, l := Apply(b, w, Purge(att, ok)), Locate(b, w.rows[att].key);
      && w1.rows == w.rows - {att} && w1.blobs == (if ok then w.blobs - {l} else w.blobs)
      && forall a :: a in w.rows && a != att ==> Fetch(b, w1, a) == Fetch(b, w, a)
  {
    hide Locate, IdOf, MoversGood, CopiesApart;
    assert RowGood(b, w, att);
    forall a | a in w.rows && a != att
      ensures Locate(b, w.rows[a].key).id != Locate(b, w.rows[att].key).id
    {
      assert RowGood(b, w, a);
      assert IdOf(w.rows[a].key) != IdOf(w.rows[att].key);
    }
  }

  // ---- Orphans ----

  function Referenced(b: Backend, w: World): set<Location> {
    set a | a in w.rows :: Locate(b, w.rows[a].key)
  }

  /** The blob a mover is responsible for: the copy not yet recorded, or the source not yet deleted. */
  function HeldBy(b: Backend, v: Mover): set<Location> {
    if v.todo == [] then {} else
      match v.at
      case Copied(key) => {Locate(b, key)}
      case Repointed => {Locate(b, v.todo[0].key)}
      case _ => {}
  }

  function Held(b: Backend, movers: map<nat, Mover>): set<Location> {
    set m, l | m in movers && l in HeldBy(b, movers[m]) :: l
  }

  function Unreferenced(b: Backend, w: World): set<Location> {
    w.blobs.Keys - Referenced(b, w)
  }

  function Stray(b: Backend, w: World): set<Location> {
    Unreferenced(b, w) - Held(b, w.movers)
  }

  /** The events that may leave a blob behind: a crash or failed repoint of a mover holding one, a
      failed delete, a put that stored but failed, a seal whose row was not recorded, and a repoint
      overtaken by another mover or by the deletion of the attachment. */
  predicate Mishap(b: Backend, w: World, s: Step) {
    match s
    case Put(m, id, outcome) => PutReady(w, m, id) && outcome == StoredButFailed
    case Repoint(m, ok) => RepointReady(w, m) && (!ok || Overtaken(w, w.movers[m].todo[0]))
    case Delete(m, ok) => DeleteReady(w, m) && !(ok && Configured(b, Locate(b, w.movers[m].todo[0].key)))
    case Crash(m) => RepointReady(w, m) || DeleteReady(w, m)
    case Seal(att, _, region, _, id, recorded) => SealReady(b, w, att, region, id) && !recorded
    case Purge(att, ok) => att in w.rows && !(ok && Configured(b, Locate(b, w.rows[att].key)))
    case _ => false
  }

  /** The row no longer stands as the mover listed it. */
  predicate Overtaken(w: World, it: Item) {
    it.att !in w.rows || w.rows[it.att].key != it.key
  }

  function Mishaps(b: Backend, w: World, run: seq<Step>): nat {
    if run == [] then 0 else
      var init := run[..|run| - 1];
      Mishaps(b, w, init) + if Mishap(b, After(b, w, init), run[|run| - 1]) then 1 else 0
  }

  predicate IsStray(b: Backend, w: World, l: Location) {
    && l in w.blobs
    && (forall a :: a in w.rows ==> Locate(b, w.rows[a].key) != l)
    && (forall m :: m in w.movers ==> l !in HeldBy(b, w.movers[m]))
  }

  lemma StrayIff(b: Backend, w: World, l: Location)
    ensures l in Stray(b, w) <==> IsStray(b, w, l)
  {
    hide Locate, HeldBy;
    if IsStray(b, w, l) {
      assert l !in Referenced(b, w);
      assert l !in Held(b, w.movers);
    }
  }

  /** The blob that a mishap leaves behind. */
  function LeftBehind(b: Backend, w: World, s: Step): Location {
    match s
    case Put(m, id, _) => Locate(b, KeyFor(b, if m in w.movers then w.movers[m].target else "", id))
    case Repoint(m, ok) =>
      if m in w.movers && w.movers[m].todo != [] && w.movers[m].at.Copied? then
        var a := w.movers[m].todo[0].att;
        Locate(b, if ok && a in w.rows then w.rows[a].key else w.movers[m].at.newKey)
      else Location("", "")
    case Delete(m, _) => Locate(b, if m in w.movers && w.movers[m].todo != [] then w.movers[m].todo[0].key else "")
    case Crash(m) =>
      if m in w.movers && w.movers[m].at.Copied? then Locate(b, w.movers[m].at.newKey)
      else Locate(b, if m in w.movers && w.movers[m].todo != [] then w.movers[m].todo[0].key else "")
    case Seal(_, _, region, _, id, _) => Locate(b, KeyFor(b, region, id))
    case Purge(att, _) => Locate(b, if att in w.rows then w.rows[att].key else "")
    case _ => Location("", "")
  }

  /** If a step touches only mover `m` and the row of `a`, a stray that neither of them pointed at
      before was a stray before, or is a new blob. */
  lemma StrayElsewhere(b: Backend, w: World, w1: World, m: nat, a: nat, l: Location)
    requires IsStray(b, w1, l)
    requires w.movers - {m} == w1.movers - {m} && w.rows - {a} == w1.rows - {a}
    requires m in w.movers ==> l !in HeldBy(b, w.movers[m])
    requires a in w.rows ==> Locate(b, w.rows[a].key) != l
    ensures l in w.blobs ==> IsStray(b, w, l)
  {
    hide Locate, HeldBy;
    forall n | n in w.movers && n != m
      ensures l !in HeldBy(b, w.movers[n])
    {
      assert n in w.movers - {m};
      assert w1.movers[n] == (w1.movers - {m})[n] == w.movers[n];
    }
    forall c | c in w.rows && c != a
      ensures Locate(b, w.rows[c].key) != l
    {
      assert c in w.rows - {a};
      assert w1.rows[c] == (w1.rows - {a})[c] == w.rows[c];
    }
  }

  predicate Explained(b: Backend, w: World, s: Step, l: Location) {
    IsStray(b, w, l) || (Mishap(b, w, s) && l == LeftBehind(b, w, s))
  }

  lemma NewStray(b: Backend, w: World, s: Step, l: Location)
    requires Inv(b, w) && IsStray(b, Apply(b, w, s), l)
    ensures Explained(b, w, s, l)
  {
    hide Locate, ParseKey, IdOf, KeyFor, IsRegion, Listing, Inv, IsStray, Mishap, LeftBehind, HeldBy;
    match s
    case Begin(m, _, _, _) => QuietStray(b, w, s, m, l);
    case Skip(m) => QuietStray(b, w, s, m, l);
    case Get(m, _) => QuietStray(b, w, s, m, l);
    case Put(m, id, outcome) => PutStray(b, w, m, id, outcome, l);
    case Repoint(m, ok) => RepointStray(b, w, m, ok, l);
    case Delete(m, ok) => DeleteStray(b, w, m, ok, l);
    case Finish(m) => QuietStray(b, w, s, m, l);
    case Crash(m) => CrashStray(b, w, m, l);
    case Seal(att, vault, region, bytes, id, recorded) => SealStray(b, w, att, vault, region, bytes, id, recorded, l);
    case Purge(att, ok) => PurgeStray(b, w, att, ok, l);
  }

  /** Steps by which a mover holding nothing ends up holding nothing. */
  lemma QuietStray(b: Backend, w: World, s: Step, m: nat, l: Location)
    requires IsStray(b, Apply(b, w, s), l)
    requires s == Skip(m) || s == Finish(m) || (s.Get? && s.m == m) || (s.Begin? && s.m == m)
    ensures IsStray(b, w, l)
  {
    QuietShape(b, w, s, m);
    hide Locate, Apply, HeldBy, IsStray;
    if Apply(b, w, s) != w {
      StrayRowsSame(b, w, Apply(b, w, s), m, l);
    }
  }

  lemma QuietShape(b: Backend, w: World, s: Step, m: nat)
    requires s == Skip(m) || s == Finish(m) || (s.Get? && s.m == m) || (s.Begin? && s.m == m)
    ensures var w1 := Apply(b, w, s);
      w1 == w || (w1.rows == w.rows && w1.blobs == w.blobs && w1.movers - {m} == w.movers - {m}
                  && (m in w.movers ==> HeldBy(b, w.movers[m]) == {}))
  {
    hide Locate, ParseKey, IdOf, KeyFor, IsRegion, Listing, Configured;
    match s
    case Begin(_, _, _, _) => assert w.movers - {m} == Apply(b, w, s).movers - {m};
    case Skip(_) =>
    case Get(_, _) =>
    case Finish(_) =>
  }

  lemma StrayRowsSame(b: Backend, w: World, w1: World, m: nat, l: Location)
    requires IsStray(b, w1, l) && w.rows == w1.rows && w.movers - {m} == w1.movers - {m}
    requires m in w.movers ==> l !in HeldBy(b, w.movers[m])
    ensures l in w.blobs ==> IsStray(b, w, l)
    ensures l in w1.blobs
  {
    hide Locate, HeldBy;
    StrayElsewhere(b, w, w1, m, 0, l);
  }

  lemma CrashStray(b: Backend, w: World, m: nat, l: Location)
    requires IsStray(b, Drop(w, m), l)
    ensures Explained(b, w, Crash(m), l)
  {
    hide Locate, ParseKey, IdOf, IsStray;
    if !(m in w.movers && l in HeldBy(b, w.movers[m])) {
      StrayRowsSame(b, w, Drop(w, m), m, l);
    }
  }

  lemma PutShape(b: Backend, w: World, m: nat, id: string, outcome: PutOutcome)
    requires PutReady(w, m, id)
    ensures var w1, l := PutStep(b, w, m, id, outcome), LeftBehind(b, w, Put(m, id, outcome));
      && w1.rows == w.rows && w1.movers - {m} == w.movers - {m} && HeldBy(b, w.movers[m]) == {}
      && (if outcome == Refused || !Configured(b, l) then w1.blobs == w.blobs else w1.blobs.Keys == w.blobs.Keys + {l})
      && (outcome == Stored && Configured(b, l) ==> m in w1.movers && HeldBy(b, w1.movers[m]) == {l})
  {
    hide Locate, ParseKey, IdOf, KeyFor, Configured;
  }

  lemma PutStray(b: Backend, w: World, m: nat, id: string, outcome: PutOutcome, l: Location)
    requires IsStray(b, PutStep(b, w, m, id, outcome), l)
    ensures Explained(b, w, Put(m, id, outcome), l)
  {
    if PutReady(w, m, id) {
      PutShape(b, w, m, id, outcome);
      hide Locate, PutStep, LeftBehind, PutReady, HeldBy;
      StrayRowsSame(b, w, PutStep(b, w, m, id, outcome), m, l);
    }
  }

  lemma RepointShape(b: Backend, w: World, m: nat, ok: bool)
    requires RepointReady(w, m)
    ensures var w1, it, copy := RepointStep(w, m, ok), w.movers[m].todo[0], Locate(b, w.movers[m].at.newKey);
      && w1.blobs == w.blobs && w1.movers - {m} == w.movers - {m} && w1.rows - {it.att} == w.rows - {it.att}
      && HeldBy(b, w.movers[m]) == {copy}
      && (ok ==> m in w1.movers && HeldBy(b, w1.movers[m]) == {Locate(b, it.key)})
      && (ok && it.att in w.rows ==> it.att in w1.rows && Locate(b, w1.rows[it.att].key) == copy)
      && (!(ok && it.att in w.rows) ==> w1.rows == w.rows)
  {
    hide Locate, IdOf;
    RepointTables(w, m, ok);
    RepointMover(w, m, ok);
    hide RepointStep;
  }

  lemma RepointTables(w: World, m: nat, ok: bool)
    requires RepointReady(w, m)
    ensures var w1, a := RepointStep(w, m, ok), w.movers[m].todo[0].att;
      && w1.blobs == w.blobs && w1.rows - {a} == w.rows - {a}
      && (if ok && a in w.rows then w1.rows == w.rows[a := Row(w.rows[a].vault, w.movers[m].at.newKey)]
          else w1.rows == w.rows)
  {
    hide IdOf;
    var w1, a := RepointStep(w, m, ok), w.movers[m].todo[0].att;
    if ok && a in w.rows {
      UpdateElsewhere(w.rows, a, w1.rows[a]);
    }
  }

  lemma RepointMover(w: World, m: nat, ok: bool)
    requires RepointReady(w, m)
    ensures var w1 := RepointStep(w, m, ok);
      && w1.movers - {m} == w.movers - {m}
      && (ok ==> m in w1.movers && w1.movers[m] == w.movers[m].(at := Repointed))
  {
    hide IdOf;
  }

  lemma UpdateElsewhere<V>(m: map<nat, V>, k: nat, v: V)
    ensures m[k := v] - {k} == m - {k}
  {}

  lemma RepointStray(b: Backend, w: World, m: nat, ok: bool, l: Location)
    requires IsStray(b, RepointStep(w, m, ok), l)
    ensures Explained(b, w, Repoint(m, ok), l)
  {
    if RepointReady(w, m) {
      RepointShape(b, w, m, ok);
      hide Locate, RepointStep, HeldBy;
      var w1, a := RepointStep(w, m, ok), w.movers[m].todo[0].att;
      assert m in w1.movers ==> l !in HeldBy(b, w1.movers[m]);
      assert a in w1.rows ==> Locate(b, w1.rows[a].key) != l;
      if l !in HeldBy(b, w.movers[m]) && (a in w.rows ==> Locate(b, w.rows[a].key) != l) {
        StrayElsewhere(b, w, w1, m, a, l);
      }
    }
  }

  lemma DeleteStray(b: Backend, w: World, m: nat, ok: bool, l: Location)
    requires IsStray(b, DeleteStep(b, w, m, ok), l)
    ensures Explained(b, w, Delete(m, ok), l)
  {
    hide Locate, ParseKey, IdOf, IsStray;
    if DeleteReady(w, m) {
      assert HeldBy(b, w.movers[m]) == {Locate(b, w.movers[m].todo[0].key)};
      assert l in DeleteStep(b, w, m, ok).blobs by { DeleteStrayThere(b, w, m, ok, l); }
      if l !in HeldBy(b, w.movers[m]) {
        StrayRowsSame(b, w, DeleteStep(b, w, m, ok), m, l);
      }
    }
  }

  lemma DeleteStrayThere(b: Backend, w: World, m: nat, ok: bool, l: Location)
    requires IsStray(b, DeleteStep(b, w, m, ok), l)
    ensures l in DeleteStep(b, w, m, ok).blobs
  {}

  lemma SealShape(b: Backend, w: World, att: nat, vault: nat, region: string, bytes: Bytes, id: string, recorded: bool)
    requires Inv(b, w) && SealReady(b, w, att, region, id)
    ensures var w1, l := SealStep(b, w, att, vault, region, bytes, id, recorded), Locate(b, KeyFor(b, region, id));
      && w1.movers == w.movers && w1.blobs == w.blobs[l := bytes] && att !in w.rows
      && w1.rows == if recorded then w.rows[att := Row(vault, KeyFor(b, region, id))] else w.rows
  {
    assert att in w.rows ==> RowGood(b, w, att);
    hide Locate, ParseKey, IdOf, KeyFor, Configured, IsRegion, Inv, RowsGood;
  }

  lemma SealStray(b: Backend, w: World, att: nat, vault: nat, region: string, bytes: Bytes,
                  id: string, recorded: bool, l: Location)
    requires Inv(b, w) && IsStray(b, SealStep(b, w, att, vault, region, bytes, id, recorded), l)
    ensures Explained(b, w, Seal(att, vault, region, bytes, id, recorded), l)
  {
    hide Inv, Locate, KeyFor, SealReady, HeldBy;
    if SealReady(b, w, att, region, id) {
      SealShape(b, w, att, vault, region, bytes, id, recorded);
      var w1 := SealStep(b, w, att, vault, region, bytes, id, recorded);
      hide SealStep;
      assert w1.rows - {att} == w.rows - {att};
      assert recorded ==> att in w1.rows && Locate(b, w1.rows[att].key) != l;
      SealElsewhere(b, w, w1, att, l);
    }
  }

  lemma SealElsewhere(b: Backend, w: World, w1: World, att: nat, l: Location)
    requires IsStray(b, w1, l) && w1.movers == w.movers && att !in w.rows && w1.rows - {att} == w.rows - {att}
    ensures l in w.blobs ==> IsStray(b, w, l)
  {
    hide Locate, HeldBy;
    assert 0 in w.movers ==> l !in HeldBy(b, w1.movers[0]);
    StrayElsewhere(b, w, w1, 0, att, l);
  }

  lemma PurgeStray(b: Backend, w: World, att: nat, ok: bool, l: Location)
    requires IsStray(b, PurgeStep(b, w, att, ok), l)
    ensures Explained(b, w, Purge(att, ok), l)
  {
    hide Locate, ParseKey, IdOf;
    var w1 := PurgeStep(b, w, att, ok);
    assert w1.movers == w.movers && w1.rows - {att} == w.rows - {att};
    assert 0 in w.movers ==> l !in HeldBy(b, w1.movers[0]);
    if att in w.rows && Locate(b, w.rows[att].key) != l {
      StrayElsewhere(b, w, w1, 0, att, l);
    }
  }

  lemma StrayStep(b: Backend, w: World, s: Step)
    requires Inv(b, w)
    ensures Stray(b, Apply(b, w, s)) <= Stray(b, w) + if Mishap(b, w, s) then {LeftBehind(b, w, s)} else {}
  {
    hide Apply, Mishap, LeftBehind, Stray, IsStray, Inv;
    forall l | l in Stray(b, Apply(b, w, s))
      ensures l in Stray(b, w) || (Mishap(b, w, s) && l == LeftBehind(b, w, s))
    {
      StrayIff(b, Apply(b, w, s), l);
      StrayIff(b, w, l);
      NewStray(b, w, s, l);
    }
  }

  lemma {:induction false} StrayRun(b: Backend, w: World, run: seq<Step>)
    requires Inv(b, w)
    ensures |Stray(b, After(b, w, run))| <= |Stray(b, w)| + Mishaps(b, w, run)
  {
    hide Stray, Apply, Mishap, LeftBehind, Inv;
    if run != [] {
      var init := run[..|run| - 1];
      StrayRun(b, w, init);
      RunKeepsInv(b, w, init);
      var w0, s := After(b, w, init), run[|run| - 1];
      StrayStep(b, w0, s);
      SubsetSize(Stray(b, Apply(b, w0, s)), Stray(b, w0) + if Mishap(b, w0, s) then {LeftBehind(b, w0, s)} else {});
    }
  }

  lemma {:induction false} HeldIsSmall(b: Backend, movers: map<nat, Mover>)
    ensures |Held(b, movers)| <= |movers|
    decreases |movers|
  {
    hide HeldBy;
    if movers == map[] {
      assert Held(b, movers) == {};
    } else {
      var m :| m in movers;
      var rest := movers - {m};
      assert movers.Keys == rest.Keys + {m};
      assert |movers| == |movers.Keys| && |rest| == |rest.Keys|;
      HeldIsSmall(b, rest);
      HeldByOne(b, movers[m]);
      SubsetSize(Held(b, movers), Held(b, rest) + HeldBy(b, movers[m]));
    }
  }

  lemma HeldByOne(b: Backend, v: Mover)
    ensures |HeldBy(b, v)| <= 1
  {}

  /** Blobs no row refers to number at most the strays at the start, the mishaps since, and one for
      each mover still under way. */
  lemma OrphanBound(b: Backend, w: World, run: seq<Step>)
    requires Inv(b, w)
    ensures var w1 := After(b, w, run);
      |Unreferenced(b, w1)| <= |Stray(b, w)| + Mishaps(b, w, run) + |w1.movers|
  {
    var w1 := After(b, w, run);
    hide After, Unreferenced, Held, Mishaps, Inv;
    StrayRun(b, w, run);
    HeldIsSmall(b, w1.movers);
    SubsetSize(Unreferenced(b, w1), Stray(b, w1) + Held(b, w1.movers));
  }

  /** A blob that neither a row nor a mover under way refers to. */
  predicate Forgotten(b: Backend, w: World, l: Location) {
    && l in w.blobs && l.id in w.owner
    && (forall a :: a in w.rows ==> Locate(b, w.rows[a].key) != l)
    && (forall m :: m in w.movers ==> MoverForgets(b, w.movers[m], l))
  }

  predicate MoverForgets(b: Backend, v: Mover, l: Location) {
    && (forall i :: 0 <= i < |v.todo| ==> Locate(b, v.todo[i].key) != l)
    && (v.at.Copied? ==> Locate(b, v.at.newKey) != l)
  }

  /** No later move reclaims it: the leftover of a crash stays for good. */
  lemma {:induction false} ForgottenForGood(b: Backend, w: World, run: seq<Step>, l: Location)
    requires Inv(b, w) && Forgotten(b, w, l)
    ensures Forgotten(b, After(b, w, run), l)
  {
    if run != [] {
      hide Apply, Forgotten, Inv;
      ForgottenForGood(b, w, run[..|run| - 1], l);
      RunKeepsInv(b, w, run[..|run| - 1]);
      ForgottenStep(b, After(b, w, run[..|run| - 1]), run[|run| - 1], l);
    }
  }

  lemma ForgottenStep(b: Backend, w: World, s: Step, l: Location)
    requires Inv(b, w) && Forgotten(b, w, l)
    ensures Forgotten(b, Apply(b, w, s), l)
  {
    hide Locate, ParseKey, IdOf, IsRegion, KeyFor, Inv, Forgotten;
    hide BeginStep, GetStep, PutStep, RepointStep, DeleteStep, SealStep, PurgeStep, FinishStep, At;
    match s
    case Begin(m, vault, target, listing) => ForgottenBegin(b, w, m, vault, target, listing, l);
    case Put(m, id, outcome) => ForgottenPut(b, w, m, id, outcome, l);
    case Repoint(m, ok) => ForgottenRepoint(b, w, m, ok, l);
    case Delete(m, ok) => ForgottenDelete(b, w, m, ok, l);
    case Seal(att, vault, region, bytes, id, recorded) =>
        ForgottenSeal(b, w, att, vault, region, bytes, id, recorded, l);
    case Purge(att, ok) => ForgottenPurge(b, w, att, ok, l);
    case Skip(m) =>
      if m in w.movers && w.movers[m].todo != [] {
        NextForgets(b, w, m, l);
      }
      SkipsOrNot(b, w, m);
    case Get(m, ok) => ForgottenGet(b, w, m, ok, l);
    case Finish(m) => ForgottenFinish(b, w, m, l);
    case Crash(m) => DropForgets(b, w, m, l);
  }

  lemma SkipsOrNot(b: Backend, w: World, m: nat)
    ensures Apply(b, w, Skip(m)) == w
            || (m in w.movers && w.movers[m].todo != [] && Apply(b, w, Skip(m)) == Next(w, m))
  {
    hide Next, ParseKey;
  }

  lemma ForgottenPurge(b: Backend, w: World, att: nat, ok: bool, l: Location)
    requires Forgotten(b, w, l)
    ensures Forgotten(b, PurgeStep(b, w, att, ok), l)
  {
    hide Locate, Configured, MoverForgets;
  }

  lemma NextForgets(b: Backend, w: World, m: nat, l: Location)
    requires Forgotten(b, w, l) && m in w.movers && w.movers[m].todo != []
    ensures Forgotten(b, Next(w, m), l)
  {
    hide Locate;
  }

  lemma DropForgets(b: Backend, w: World, m: nat, l: Location)
    requires Forgotten(b, w, l)
    ensures Forgotten(b, Drop(w, m), l)
  {
    hide Locate, MoverForgets;
  }

  lemma ForgottenGet(b: Backend, w: World, m: nat, ok: bool, l: Location)
    requires Forgotten(b, w, l)
    ensures Forgotten(b, GetStep(b, w, m, ok), l)
  {
    hide Locate, Configured, ParseKey;
    DropForgets(b, w, m, l);
  }

  lemma ForgottenFinish(b: Backend, w: World, m: nat, l: Location)
    requires Forgotten(b, w, l)
    ensures Forgotten(b, FinishStep(w, m), l)
  {
    hide Locate, MoverForgets;
  }

  lemma ForgottenBegin(b: Backend, w: World, m: nat, vault: nat, target: string, listing: seq<Item>, l: Location)
    requires Forgotten(b, w, l)
    ensures Forgotten(b, BeginStep(w, m, vault, target, listing), l)
  {
    hide Locate, ParseKey, IdOf, IsRegion;
  }

  lemma ForgottenPut(b: Backend, w: World, m: nat, id: string, outcome: PutOutcome, l: Location)
    requires Inv(b, w) && Forgotten(b, w, l)
    ensures Forgotten(b, PutStep(b, w, m, id, outcome), l)
  {
    if PutReady(w, m, id) {
      assert MoverGood(b, w, w.movers[m]);
      hide Inv, Locate, IdOf, IsRegion, KeyFor, Configured, MoverForgets, MoverGood;
      var target := w.movers[m].target;
      assert IsRegion(target) by { TargetIsRegion(b, w, w.movers[m]); }
      PutKeyLocates(b, target, id);
      var w1 := Store(b, w, target, id, w.movers[m].todo[0].att, w.movers[m].at.bytes);
      assert Forgotten(b, w1, l);
      DropForgets(b, w, m, l);
      DropForgets(b, w1, m, l);
      CopyForgets(b, w1.movers[m], KeyFor(b, target, id), l);
      AdvanceForgets(b, w1, m, Copied(KeyFor(b, target, id)), l);
      hide Forgotten;
    }
  }

  lemma TargetIsRegion(b: Backend, w: World, v: Mover)
    requires MoverGood(b, w, v)
    ensures IsRegion(v.target)
  {}

  lemma AdvanceForgets(b: Backend, w: World, m: nat, at: Progress, l: Location)
    requires Forgotten(b, w, l) && m in w.movers && MoverForgets(b, w.movers[m].(at := at), l)
    ensures Forgotten(b, Advance(w, m, at), l)
  {
    hide Locate, MoverForgets;
  }

  lemma CopyForgets(b: Backend, v: Mover, key: string, l: Location)
    requires Locate(b, key) != l
    ensures MoverForgets(b, v, l) ==> MoverForgets(b, v.(at := Copied(key)), l)
  {
    hide Locate;
  }

  lemma ForgottenDelete(b: Backend, w: World, m: nat, ok: bool, l: Location)
    requires Forgotten(b, w, l)
    ensures Forgotten(b, DeleteStep(b, w, m, ok), l)
  {
    hide Locate, Configured;
  }

  lemma ForgottenRepoint(b: Backend, w: World, m: nat, ok: bool, l: Location)
    requires Forgotten(b, w, l)
    ensures Forgotten(b, RepointStep(w, m, ok), l)
  {
    hide Locate, ParseKey, IdOf;
  }

  lemma ForgottenSeal(b: Backend, w: World, att: nat, vault: nat, region: string, bytes: Bytes,
                      id: string, recorded: bool, l: Location)
    requires Inv(b, w) && Forgotten(b, w, l)
    ensures Forgotten(b, SealStep(b, w, att, vault, region, bytes, id, recorded), l)
  {
    hide Inv, Locate, KeyFor, Configured, IsRegion, MoverForgets, ParseKey, IdOf;
    if SealReady(b, w, att, region, id) {
      SealShape(b, w, att, vault, region, bytes, id, recorded);
      PutKeyLocates(b, region, id);
      assert Locate(b, KeyFor(b, region, id)).id == id != l.id;
      assert id in SealStep(b, w, att, vault, region, bytes, id, recorded).owner;
    }
  }
}
