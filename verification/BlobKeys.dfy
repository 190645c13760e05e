/**
 Storage keys (crates/blob-store/src/lib.rs, crates/blob-store/src/s3.rs). The region of a blob is
 written into its key, so reads and deletes find their store without a database column; a bare key
 belongs to the router's home region, and a single store ignores regions altogether.
 */
module BlobKeys {
  import opened Domain

  datatype Backend = Router(stores: set<string>, home: string) | SingleStore

  /** Where a blob lies. A single store has one anonymous place. */
  datatype Location = Location(region: string, id: string)

  function FirstColon(s: string): (i: nat)
    ensures i <= |s| && ':' !in s[..i] && (i < |s| ==> s[i] == ':')
  {
    if s == "" || s[0] == ':' then 0 else
      var i := 1 + FirstColon(s[1..]);
      assert s[..i] == [s[0]] + s[1..][..i - 1];
      i
  }

  function ParseKey(key: string): (Option<string>, string) {
    var i := FirstColon(key);
    if i < |key| then (Some(key[..i]), key[i + 1..]) else (None, key)
  }

  function Render(region: Option<string>, id: string): string {
    match region
    case Some(r) => r + ":" + id
    case None => id
  }

  /** Nothing of a key is lost by splitting it. */
  lemma ParseKeyLosesNothing(key: string)
    ensures Render(ParseKey(key).0, ParseKey(key).1) == key
  {
    var i := FirstColon(key);
    if i < |key| {
      assert key == key[..i] + ":" + key[i + 1..];
    }
  }

  /** A region-encoded key comes apart again exactly when the region code has no colon;
      the id may hold anything. */
  lemma RegionKeyRoundTrip(region: string, id: string)
    ensures ParseKey(Render(Some(region), id)) == (Some(region), id) <==> ':' !in region
  {
    var key := region + ":" + id;
    var i := FirstColon(key);
    assert key[|region|] == ':';
    assert forall j :: 0 <= j < i ==> key[j] == key[..i][j] && key[j] != ':';
    assert forall j :: 0 <= j < |region| ==> key[j] == region[j];
    assert key[..i] == region[..i];
    if ':' !in region {
      assert key[i + 1..] == id;
    } else {
      assert region[..|region|] == region;
      assert |ParseKey(key).0.value| == i < |region|;
    }
  }

  /** A bare key stays bare exactly when it has no colon. */
  lemma BareKeyRoundTrip(id: string)
    ensures ParseKey(Render(None, id)) == (None, id) <==> ':' !in id
  {
    var i := FirstColon(id);
    assert i == |id| ==> id[..i] == id;
  }

  function IdOf(key: string): string {
    ParseKey(key).1
  }

  function Locate(b: Backend, key: string): (l: Location)
    ensures l.id == IdOf(key)
  {
    match b
    case Router(_, home) =>
      var (region, id) := ParseKey(key);
      Location(if region.Some? then region.value else home, id)
    case SingleStore => Location("", IdOf(key))
  }

  /** A key without a colon is the router's home's; a single store looks at the id alone. */
  lemma BareKeyIsHome(b: Backend, id: string)
    requires ':' !in id
    ensures Locate(b, id) == Location(if b.Router? then b.home else "", id)
  {
    BareKeyRoundTrip(id);
  }

  predicate Configured(b: Backend, l: Location) {
    b.Router? ==> l.region in b.stores
  }

  /** The key `put` answers with. */
  function KeyFor(b: Backend, region: string, id: string): string {
    if b.Router? then Render(Some(region), id) else Render(None, id)
  }

  predicate IsRegion(s: string) {
    s in {"ap-southeast-2", "eu-central-1", "us-east-1"}
  }

  lemma RegionCodesHaveNoColon(s: string)
    requires IsRegion(s)
    ensures ':' !in s
  {
    if s == "ap-southeast-2" {
      assert ':' !in "ap-southeast-2";
    } else if s == "eu-central-1" {
      assert ':' !in "eu-central-1";
    } else {
      assert ':' !in "us-east-1";
    }
  }

  /** A blob is found again under the key its `put` answered with, in the region asked for. */
  lemma PutKeyLocates(b: Backend, region: string, id: string)
    requires IsRegion(region) && ':' !in id
    ensures IdOf(KeyFor(b, region, id)) == id
    ensures Locate(b, KeyFor(b, region, id)) == Location(if b.Router? then region else "", id)
    ensures ParseKey(KeyFor(b, region, id)).0 == if b.Router? then Some(region) else None
  {
    RegionCodesHaveNoColon(region);
    hide IsRegion, ParseKey;
    RegionKeyRoundTrip(region, id);
    BareKeyRoundTrip(id);
  }
}
