/** The cloud provider the controller talks to, as an abstract in-memory state: compute
    instances grouped in reservations, buckets, hosted zones, an image catalog, and the
    log of every call the controller issues. A call to an API listed in `faults` raises
    a provider error; some calls also fail on their own (a missing bucket, a bucket with
    no tag set, a duplicate bucket name, an unknown zone, a rejected record change). */
module Provider {
  import opened Wrappers
  import opened Text
  import opened Ownership
  import opened Images

  // ---------------------------------------------------------------- compute

  datatype InstanceState = Pending | Running | Stopping | Stopped | ShuttingDown | Terminated

  datatype Instance = Instance(id: string, state: InstanceState, instanceType: string, imageId: string, tags: seq<Tag>)

  /** Instances launched by one request, as `describe_instances` groups them. */
  datatype Reservation = Reservation(instances: seq<Instance>)

  /** A `describe_instances` filter as the controller builds it: both ownership tags
      always, and optionally an instance state and a `Name` tag. */
  datatype InstanceFilter = InstanceFilter(state: Option<InstanceState>, name: Option<string>)

  /** A filter value as the compute API reads it: `*` stands for any run of characters,
      `?` for at most one character, a backslash makes the next character literal, and
      every other character stands for itself. */
  predicate GlobMatch(pattern: string, s: string)
    decreases |pattern| + |s|
  {
    if pattern == [] then s == []
    else if pattern[0] == '*' then GlobMatch(pattern[1..], s) || (s != [] && GlobMatch(pattern, s[1..]))
    else if pattern[0] == '?' then GlobMatch(pattern[1..], s) || (s != [] && GlobMatch(pattern[1..], s[1..]))
    else if pattern[0] == '\\' && |pattern| >= 2 then s != [] && s[0] == pattern[1] && GlobMatch(pattern[2..], s[1..])
    else s != [] && s[0] == pattern[0] && GlobMatch(pattern[1..], s[1..])
  }

  /** A filter value with no wildcard and no escape. */
  predicate Plain(pattern: string) {
    '*' !in pattern && '?' !in pattern && '\\' !in pattern
  }

  /** A plain filter value matches exactly itself. */
  lemma {:induction false} PlainMatchesItself(pattern: string, s: string)
    requires Plain(pattern)
    ensures GlobMatch(pattern, s) <==> s == pattern
  {
    if pattern != [] && s != [] {
      PlainMatchesItself(pattern[1..], s[1..]);
      assert s == [s[0]] + s[1..] && pattern == [pattern[0]] + pattern[1..];
    }
  }

  /** `*` matches every string. */
  lemma {:induction false} StarMatchesAll(s: string)
    ensures GlobMatch("*", s)
  {
    if s != [] {
      StarMatchesAll(s[1..]);
    }
  }

  /** The `tag:Name` part of a filter: some `Name` tag's value matches the pattern. */
  predicate NameTagMatches(tags: seq<Tag>, pattern: string) {
    exists i :: 0 <= i < |tags| && tags[i].key == NameKey && GlobMatch(pattern, tags[i].value)
  }

  /** For a plain name the `tag:Name` filter is an exact tag test. */
  lemma PlainNameIsExact(tags: seq<Tag>, name: string)
    requires Plain(name)
    ensures NameTagMatches(tags, name) <==> HasTag(tags, NameKey, name)
  {
    if NameTagMatches(tags, name) {
      var i :| 0 <= i < |tags| && tags[i].key == NameKey && GlobMatch(name, tags[i].value);
      PlainMatchesItself(name, tags[i].value);
      assert tags[i] == Tag(NameKey, name);
    }
    if HasTag(tags, NameKey, name) {
      var i :| 0 <= i < |tags| && tags[i] == Tag(NameKey, name);
      PlainMatchesItself(name, tags[i].value);
    }
  }

  predicate Matches(x: Instance, f: InstanceFilter) {
    && MatchesOwnerFilter(x.tags)
    && (f.state.Some? ==> x.state == f.state.value)
    && (f.name.Some? ==> NameTagMatches(x.tags, f.name.value))
  }

  /** `[i for r in reservations for i in r["Instances"]]` */
  function Flatten(rs: seq<Reservation>): (r: seq<Instance>)
    ensures forall x :: x in r <==> exists j :: 0 <= j < |rs| && x in rs[j].instances
  {
    if rs == [] then []
    else
      assert forall j :: 1 <= j < |rs| ==> rs[j] == rs[1..][j - 1];
      rs[0].instances + Flatten(rs[1..])
  }

  lemma {:induction false} FlattenAppend(a: seq<Reservation>, b: seq<Reservation>)
    ensures Flatten(a + b) == Flatten(a) + Flatten(b)
  {
    if a != [] {
      assert (a + b)[1..] == a[1..] + b;
      FlattenAppend(a[1..], b);
    } else {
      assert a + b == b;
    }
  }

  /** The instances that pass a filter, in provider order. */
  function Keep(xs: seq<Instance>, f: InstanceFilter): (r: seq<Instance>)
    ensures forall x :: x in r <==> x in xs && Matches(x, f)
    ensures |r| <= |xs|
  {
    if xs == [] then []
    else
      assert forall x :: x in xs <==> x == xs[0] || x in xs[1..];
      (if Matches(xs[0], f) then [xs[0]] else []) + Keep(xs[1..], f)
  }

  lemma {:induction false} KeepAppend(a: seq<Instance>, b: seq<Instance>, f: InstanceFilter)
    ensures Keep(a + b, f) == Keep(a, f) + Keep(b, f)
  {
    if a != [] {
      assert (a + b)[1..] == a[1..] + b;
      KeepAppend(a[1..], b, f);
    } else {
      assert a + b == b;
    }
  }

  /** The reservations `describe_instances` answers with: matching instances only, and no
      reservation left empty. */
  function Select(rs: seq<Reservation>, f: InstanceFilter): (r: seq<Reservation>)
    ensures forall i :: 0 <= i < |r| ==> r[i].instances != []
    ensures Flatten(r) == Keep(Flatten(rs), f)
  {
    if rs == [] then []
    else
      var kept := Keep(rs[0].instances, f);
      var head := if kept == [] then [] else [Reservation(kept)];
      var r := head + Select(rs[1..], f);
      FlattenAppend(head, Select(rs[1..], f));
      KeepAppend(rs[0].instances, Flatten(rs[1..]), f);
      assert Flatten(head) == kept;
      r
  }

  /** `[i["InstanceId"] for ...]` over a flattened answer. */
  function IdsOf(xs: seq<Instance>): (r: seq<string>)
    ensures |r| == |xs| && forall i :: 0 <= i < |xs| ==> r[i] == xs[i].id
  {
    seq(|xs|, i requires 0 <= i < |xs| => xs[i].id)
  }

  /** The effect of a start, stop or terminate call on a list of instances. */
  function Transition(xs: seq<Instance>, ids: seq<string>, target: InstanceState): (r: seq<Instance>)
    ensures |r| == |xs|
    ensures forall i :: 0 <= i < |xs| ==> r[i] == if xs[i].id in ids then xs[i].(state := target) else xs[i]
  {
    seq(|xs|, i requires 0 <= i < |xs| => if xs[i].id in ids then xs[i].(state := target) else xs[i])
  }

  function TransitionAll(rs: seq<Reservation>, ids: seq<string>, target: InstanceState): (r: seq<Reservation>)
    ensures |r| == |rs|
    ensures forall i :: 0 <= i < |rs| ==> r[i] == Reservation(Transition(rs[i].instances, ids, target))
  {
    seq(|rs|, i requires 0 <= i < |rs| => Reservation(Transition(rs[i].instances, ids, target)))
  }

  lemma {:induction false} TransitionAppend(a: seq<Instance>, b: seq<Instance>, ids: seq<string>, target: InstanceState)
    ensures Transition(a + b, ids, target) == Transition(a, ids, target) + Transition(b, ids, target)
  {
  }

  lemma {:induction false} FlattenTransition(rs: seq<Reservation>, ids: seq<string>, target: InstanceState)
    ensures Flatten(TransitionAll(rs, ids, target)) == Transition(Flatten(rs), ids, target)
  {
    if rs != [] {
      assert TransitionAll(rs, ids, target)[1..] == TransitionAll(rs[1..], ids, target);
      FlattenTransition(rs[1..], ids, target);
      TransitionAppend(rs[0].instances, Flatten(rs[1..]), ids, target);
    }
  }

  predicate Distinct(s: seq<string>) {
    forall i, j :: 0 <= i < j < |s| ==> s[i] != s[j]
  }

  function MintedInstanceId(n: nat): string {
    "i-" + Digits(n)
  }

  // ---------------------------------------------------------------- object storage

  /** A `PublicAccessBlockConfiguration`. */
  datatype BlockConfig = BlockConfig(blockPublicAcls: bool, ignorePublicAcls: bool, blockPublicPolicy: bool, restrictPublicBuckets: bool)

  const FullBlock: BlockConfig := BlockConfig(true, true, true, true)

  /** The region a bucket created without a location constraint lands in. */
  const DefaultRegion: string := "us-east-1"

  /** A bucket; `tagging` is None when no tag set was ever stored (fetching it then fails). */
  datatype Bucket = Bucket(name: string, region: string, tagging: Option<seq<Tag>>, accessBlock: Option<BlockConfig>, objects: set<string>)

  function BucketNames(bs: seq<Bucket>): (r: seq<string>)
    ensures |r| == |bs| && forall i :: 0 <= i < |bs| ==> r[i] == bs[i].name
  {
    seq(|bs|, i requires 0 <= i < |bs| => bs[i].name)
  }

  /** Where the bucket with this name is kept, if anywhere. */
  function FindBucket(bs: seq<Bucket>, name: string): (r: Option<nat>)
    ensures r.Some? ==> r.value < |bs| && bs[r.value].name == name
    ensures r.None? <==> name !in BucketNames(bs)
  {
    if bs == [] then None
    else if bs[0].name == name then Some(0)
    else match FindBucket(bs[1..], name)
      case None => None
      case Some(k) => Some(k + 1)
  }

  lemma {:induction false} FindBucketOfDistinct(bs: seq<Bucket>, i: nat)
    requires Distinct(BucketNames(bs)) && i < |bs|
    ensures FindBucket(bs, bs[i].name) == Some(i)
  {
    if i > 0 {
      var names := BucketNames(bs);
      assert names[0] == bs[0].name != bs[i].name == names[i];
      assert BucketNames(bs[1..]) == names[1..];
      FindBucketOfDistinct(bs[1..], i - 1);
    }
  }

  /** A bucket added under a fresh name is found at the end. */
  lemma {:induction false} FindAppendedBucket(bs: seq<Bucket>, b: Bucket)
    requires b.name !in BucketNames(bs)
    ensures FindBucket(bs + [b], b.name) == Some(|bs|)
  {
    if bs != [] {
      assert BucketNames(bs)[0] == bs[0].name;
      assert BucketNames(bs[1..]) == BucketNames(bs)[1..];
      assert (bs + [b])[1..] == bs[1..] + [b];
      FindAppendedBucket(bs[1..], b);
    }
  }

  /** A character S3 accepts in a bucket name. */
  predicate BucketNameChar(c: char) {
    'a' <= c <= 'z' || '0' <= c <= '9' || c == '.' || c == '-'
  }

  predicate LetterOrDigit(c: char) {
    'a' <= c <= 'z' || '0' <= c <= '9'
  }

  /** S3's general-purpose bucket naming rules: 3 to 63 characters, only lower-case
      letters, digits, dots and hyphens, a letter or digit at both ends, and no two dots
      in a row. */
  predicate ValidBucketName(name: string) {
    && 3 <= |name| <= 63
    && (forall i :: 0 <= i < |name| ==> BucketNameChar(name[i]))
    && LetterOrDigit(name[0]) && LetterOrDigit(name[|name| - 1])
    && (forall i :: 0 <= i < |name| - 1 ==> !(name[i] == '.' && name[i + 1] == '.'))
  }

  /** Names S3 rejects and one it accepts. */
  lemma BucketNameExamples()
    ensures !ValidBucketName("My_Bucket") && !ValidBucketName("ab") && !ValidBucketName("-logs")
    ensures !ValidBucketName("a..b")
    ensures ValidBucketName("logs-2024.backup")
  {
    assert !BucketNameChar("My_Bucket"[0]);
    assert !LetterOrDigit("-logs"[0]);
    assert "a..b"[1] == '.' && "a..b"[2] == '.';
    var n := "logs-2024.backup";
    assert forall i :: 0 <= i < |n| ==> BucketNameChar(n[i]);
  }

  /** What a create request leaves in the bucket list, or None when the provider refuses
      it. Naming the default region explicitly is refused. A fresh name is refused when it
      breaks the naming rules or another account holds it, and is otherwise added, empty
      and untagged, with public access fully blocked (`NewBucket`). A name this account
      already holds is answered with success, leaving everything as it was, only
      when the request names no region and the bucket lives in the default region. */
  /** A bucket as S3 creates it: empty, untagged, and with all four Block Public Access
      settings turned on, which S3 does for every new bucket. */
  function NewBucket(name: string, region: string): Bucket {
    Bucket(name, region, None, Some(FullBlock), {})
  }

  function BucketCreation(bs: seq<Bucket>, taken: set<string>, name: string, location: Option<string>)
    : (r: Option<seq<Bucket>>)
    ensures location == Some(DefaultRegion) ==> r.None?
    ensures name !in BucketNames(bs) ==>
      (r.Some? <==> ValidBucketName(name) && name !in taken && location != Some(DefaultRegion))
      && (r.Some? ==> r.value == bs + [NewBucket(name, location.GetOr(DefaultRegion))])
    ensures name in BucketNames(bs) ==>
      (r.Some? <==> location.None? && bs[FindBucket(bs, name).value].region == DefaultRegion)
      && (r.Some? ==> r.value == bs)
    ensures r.Some? ==> FindBucket(r.value, name).Some?
  {
    if location == Some(DefaultRegion) then None
    else match FindBucket(bs, name)
      case Some(i) => if location.None? && bs[i].region == DefaultRegion then Some(bs) else None
      case None =>
        if !ValidBucketName(name) || name in taken then None
        else
          var b := NewBucket(name, location.GetOr(DefaultRegion));
          assert b.name == BucketNames(bs + [b])[|bs|];
          Some(bs + [b])
  }

  // ---------------------------------------------------------------- DNS

  datatype RecordSet = RecordSet(name: string, recordType: string, ttl: nat, values: seq<string>)

  /** One entry of a `ChangeBatch`; `value` is None when the caller passed `None`. */
  datatype Change = Change(action: string, name: string, recordType: string, ttl: nat, value: Option<string>)

  /** A hosted zone; `id` is the bare identifier, `name` is dot-terminated. */
  datatype Zone = Zone(id: string, name: string, tags: seq<Tag>, records: seq<RecordSet>)

  /** A `list_hosted_zones` entry: `id` is the full `/hostedzone/<id>` path. */
  datatype ZoneSummary = ZoneSummary(id: string, name: string)

  const ZonePathPrefix: string := "/hostedzone/"

  /** The name a new hosted zone is stored under: dot-terminated and lower-cased. */
  function HostedZoneName(domain: string): (n: string)
    ensures n != [] && n[|n| - 1] == '.'
    ensures |n| == |EnsureTrailingDot(domain)|
    ensures forall c :: c in n ==> !('A' <= c <= 'Z')
  {
    ToLower(EnsureTrailingDot(domain))
  }

  function MintedZoneId(n: nat): string {
    "Z" + Digits(n)
  }

  function ZoneIds(zs: seq<Zone>): (r: seq<string>)
    ensures |r| == |zs| && forall i :: 0 <= i < |zs| ==> r[i] == zs[i].id
  {
    seq(|zs|, i requires 0 <= i < |zs| => zs[i].id)
  }

  function Summaries(zs: seq<Zone>): (r: seq<ZoneSummary>)
    ensures |r| == |zs| && forall i :: 0 <= i < |zs| ==> r[i] == ZoneSummary(ZonePathPrefix + zs[i].id, zs[i].name)
  {
    seq(|zs|, i requires 0 <= i < |zs| => ZoneSummary(ZonePathPrefix + zs[i].id, zs[i].name))
  }

  /** Where the zone with this bare id is kept, if anywhere. */
  function FindZone(zs: seq<Zone>, id: string): (r: Option<nat>)
    ensures r.Some? ==> r.value < |zs| && zs[r.value].id == id
    ensures r.None? <==> id !in ZoneIds(zs)
  {
    if zs == [] then None
    else if zs[0].id == id then Some(0)
    else match FindZone(zs[1..], id)
      case None => None
      case Some(k) => Some(k + 1)
  }

  lemma {:induction false} FindZoneOfDistinct(zs: seq<Zone>, i: nat)
    requires Distinct(ZoneIds(zs)) && i < |zs|
    ensures FindZone(zs, zs[i].id) == Some(i)
  {
    if i > 0 {
      var ids := ZoneIds(zs);
      assert ids[0] == zs[0].id != zs[i].id == ids[i];
      assert ZoneIds(zs[1..]) == ids[1..];
      FindZoneOfDistinct(zs[1..], i - 1);
    }
  }

  /** A zone is found by its own id, which is its own last path segment. */
  lemma FindZoneByBareId(zs: seq<Zone>, k: nat)
    requires ZoneIdsWellFormed(zs) && k < |zs|
    ensures AfterLast(zs[k].id, '/') == zs[k].id
    ensures FindZone(zs, zs[k].id) == Some(k)
  {
    AfterLastOfPlain(zs[k].id, '/');
    FindZoneOfDistinct(zs, k);
  }

  /** The last segment of a zone's full path is its bare id. */
  lemma ZonePathLastSegment(id: string)
    requires '/' !in id
    ensures AfterLast(ZonePathPrefix + id, '/') == id
  {
    assert ZonePathPrefix + id == "/hostedzone" + ['/'] + id;
    AfterLastOfJoin("/hostedzone", '/', id);
  }

  function FindRecord(rs: seq<RecordSet>, name: string, recordType: string): (r: Option<nat>)
    ensures r.Some? ==> r.value < |rs| && rs[r.value].name == name && rs[r.value].recordType == recordType
    ensures r.None? ==> forall i :: 0 <= i < |rs| ==> !(rs[i].name == name && rs[i].recordType == recordType)
  {
    if rs == [] then None
    else if rs[0].name == name && rs[0].recordType == recordType then Some(0)
    else match FindRecord(rs[1..], name, recordType)
      case None => None
      case Some(k) => Some(k + 1)
  }

  /** `change_resource_record_sets` on one change: CREATE fails on an existing name and
      type, UPSERT replaces or adds, DELETE needs an identical record; anything else, or a
      missing value, is rejected. */
  function ApplyChange(records: seq<RecordSet>, c: Change): (r: Option<seq<RecordSet>>)
    ensures r.Some? ==> c.value.Some? && c.action in ["CREATE", "UPSERT", "DELETE"]
    ensures r.Some? && c.action != "DELETE" ==> RecordSet(c.name, c.recordType, c.ttl, [c.value.value]) in r.value
    ensures r.Some? && c.action == "UPSERT" ==> |r.value| >= |records|
  {
    if c.value.None? then None
    else
      var rs := RecordSet(c.name, c.recordType, c.ttl, [c.value.value]);
      var at := FindRecord(records, c.name, c.recordType);
      if c.action == "CREATE" then
        (if at.Some? then None else Some(records + [rs]))
      else if c.action == "UPSERT" then
        (if at.Some? then
           assert records[at.value := rs][at.value] == rs;
           Some(records[at.value := rs])
         else Some(records + [rs]))
      else if c.action == "DELETE" then
        (if at.Some? && records[at.value] == rs then Some(records[..at.value] + records[at.value + 1..]) else None)
      else None
  }

  /** The zones after the record change sent for zone `id`; None when there is no such
      zone or the change is refused. */
  function ChangedRecords(zs: seq<Zone>, id: string, change: Change): Option<seq<Zone>> {
    match FindZone(zs, id)
    case None => None
    case Some(i) =>
      match ApplyChange(zs[i].records, change)
      case None => None
      case Some(records) => Some(zs[i := zs[i].(records := records)])
  }

  /** The zones after adding tags to zone `id`; None when there is no such zone. */
  function RetaggedZones(zs: seq<Zone>, id: string, added: seq<Tag>): Option<seq<Zone>> {
    match FindZone(zs, id)
    case None => None
    case Some(i) => Some(zs[i := zs[i].(tags := AddTags(zs[i].tags, added))])
  }

  // ---------------------------------------------------------------- calls

  datatype Api =
    | DescribeImagesApi | DescribeInstancesApi | RunInstancesApi | StartInstancesApi | StopInstancesApi | TerminateInstancesApi
    | CreateBucketApi | PutBucketTaggingApi | GetBucketTaggingApi | PutPublicAccessBlockApi | HeadBucketApi | UploadFileApi | ListBucketsApi
    | CreateHostedZoneApi | ListHostedZonesApi | ChangeTagsApi | ListTagsApi | ChangeRecordSetsApi | ListRecordSetsApi

  /** One provider call as issued, with its arguments. */
  datatype Call =
    | DescribeImages(query: ImageQuery)
    | DescribeInstances(filter: InstanceFilter)
    | RunInstances(imageId: string, instanceType: string, tags: seq<Tag>)
    | StartInstances(ids: seq<string>)
    | StopInstances(ids: seq<string>)
    | TerminateInstances(ids: seq<string>)
    | CreateBucket(bucket: string, location: Option<string>)
    | PutBucketTagging(bucket: string, tags: seq<Tag>)
    | GetBucketTagging(bucket: string)
    | PutPublicAccessBlock(bucket: string, config: BlockConfig)
    | HeadBucket(bucket: string)
    | UploadFile(bucket: string, key: string)
    | ListBuckets
    | CreateHostedZone(domain: string)
    | ListHostedZones
    | ChangeTagsForResource(resourceId: string, added: seq<Tag>)
    | ListTagsForResource(resourceId: string)
    | ChangeResourceRecordSets(zoneId: string, change: Change)
    | ListResourceRecordSets(zoneId: string)

  /** A call answers with a value or raises. */
  datatype Response<T> = Success(value: T) | Failure

  function CatalogAnswer(catalog: map<ImageQuery, seq<ImageCandidate>>, q: ImageQuery): seq<ImageCandidate> {
    if q in catalog then catalog[q] else []
  }

  /** Zone ids are distinct and never contain the path separator. */
  predicate ZoneIdsWellFormed(zs: seq<Zone>) {
    && Distinct(ZoneIds(zs))
    && (forall i :: 0 <= i < |zs| ==> '/' !in zs[i].id)
  }

  /** Instance ids are unique, and no id the provider will mint from `serial` on is taken. */
  ghost predicate InstancesWellFormed(rs: seq<Reservation>, serial: nat) {
    && Distinct(IdsOf(Flatten(rs)))
    && (forall n {:trigger MintedInstanceId(n)} :: serial <= n ==> MintedInstanceId(n) !in IdsOf(Flatten(rs)))
  }

  /** Zone ids are well formed, and no id the provider will mint from `serial` on is taken. */
  ghost predicate ZonesWellFormed(zs: seq<Zone>, serial: nat) {
    && ZoneIdsWellFormed(zs)
    && (forall n {:trigger MintedZoneId(n)} :: serial <= n ==> MintedZoneId(n) !in ZoneIds(zs))
  }

  /** What the provider guarantees of its state: instance ids, bucket names and zone ids
      are unique, zone ids hold no `/`, and no id it will mint from `serial` on is taken. */
  ghost predicate WellFormed(rs: seq<Reservation>, bs: seq<Bucket>, zs: seq<Zone>, serial: nat) {
    InstancesWellFormed(rs, serial) && Distinct(BucketNames(bs)) && ZonesWellFormed(zs, serial)
  }

  class Cloud {
    var reservations: seq<Reservation>
    var buckets: seq<Bucket>
    var zones: seq<Zone>
    /** The provider's counter for new identifiers. */
    var serial: nat
    /** Every call issued so far, oldest first. */
    var log: seq<Call>
    /** The image search: query to candidates, in provider order. */
    const catalog: map<ImageQuery, seq<ImageCandidate>>
    /** APIs that raise on every call. */
    const faults: set<Api>
    /** Bucket names held by other accounts. */
    const takenNames: set<string>

    ghost predicate Valid()
      reads this`reservations, this`buckets, this`zones, this`serial
    {
      WellFormed(reservations, buckets, zones, serial)
    }

    constructor (rs: seq<Reservation>, bs: seq<Bucket>, zs: seq<Zone>, serial: nat,
                 catalog: map<ImageQuery, seq<ImageCandidate>>, faults: set<Api>, takenNames: set<string>)
      requires WellFormed(rs, bs, zs, serial)
      ensures Valid()
      ensures reservations == rs && buckets == bs && zones == zs && this.serial == serial
      ensures this.catalog == catalog && this.faults == faults && this.takenNames == takenNames && log == []
    {
      reservations, buckets, zones, this.serial := rs, bs, zs, serial;
      this.catalog, this.faults, this.takenNames := catalog, faults, takenNames;
      log := [];
    }

    // -------------------------------------------------------------- compute calls

    method DescribeImagesCall(q: ImageQuery) returns (r: Response<seq<ImageCandidate>>)
      modifies this`log
      ensures log == old(log) + [DescribeImages(q)]
      ensures r == if DescribeImagesApi in faults then Failure else Success(CatalogAnswer(catalog, q))
    {
      log := log + [DescribeImages(q)];
      r := if DescribeImagesApi in faults then Failure else Success(CatalogAnswer(catalog, q));
    }

    method DescribeInstancesCall(f: InstanceFilter) returns (r: Response<seq<Reservation>>)
      modifies this`log
      ensures log == old(log) + [DescribeInstances(f)]
      ensures r == if DescribeInstancesApi in faults then Failure else Success(Select(reservations, f))
    {
      log := log + [DescribeInstances(f)];
      r := if DescribeInstancesApi in faults then Failure else Success(Select(reservations, f));
    }

    /** Launches one instance, which starts out `pending`. */
    method RunInstancesCall(imageId: string, instanceType: string, tags: seq<Tag>) returns (r: Response<string>)
      requires Valid()
      modifies this`log, this`reservations, this`serial
      ensures Valid()
      ensures log == old(log) + [RunInstances(imageId, instanceType, tags)]
      ensures RunInstancesApi in faults ==> r == Failure && reservations == old(reservations) && serial == old(serial)
      ensures RunInstancesApi !in faults ==>
        && r == Success(MintedInstanceId(old(serial)))
        && MintedInstanceId(old(serial)) !in IdsOf(Flatten(old(reservations)))
        && reservations == old(reservations) + [Reservation([Instance(r.value, Pending, instanceType, imageId, tags)])]
        && serial == old(serial) + 1
    {
      log := log + [RunInstances(imageId, instanceType, tags)];
      if RunInstancesApi in faults {
        r := Failure;
        return;
      }
      var id := MintedInstanceId(serial);
      var x := Instance(id, Pending, instanceType, imageId, tags);
      var before := reservations;
      FlattenAppend(before, [Reservation([x])]);
      assert Flatten([Reservation([x])]) == [x];
      assert IdsOf(Flatten(before + [Reservation([x])])) == IdsOf(Flatten(before)) + [id];
      forall n | serial + 1 <= n
        ensures MintedInstanceId(n) != id
      {
        if MintedInstanceId(n) == id { PrefixedDigitsInjective("i-", n, serial); }
      }
      reservations := before + [Reservation([x])];
      serial := serial + 1;
      r := Success(id);
    }

    /** Moves every instance whose id is listed into `target`; ids are preserved. */
    method ApplyTransition(ids: seq<string>, target: InstanceState)
      requires Valid()
      modifies this`reservations
      ensures Valid()
      ensures reservations == TransitionAll(old(reservations), ids, target)
      ensures Flatten(reservations) == Transition(Flatten(old(reservations)), ids, target)
    {
      FlattenTransition(reservations, ids, target);
      reservations := TransitionAll(reservations, ids, target);
      assert IdsOf(Flatten(reservations)) == IdsOf(Flatten(old(reservations)));
    }

    method StartInstancesCall(ids: seq<string>) returns (r: Response<()>)
      requires Valid()
      modifies this`log, this`reservations
      ensures Valid()
      ensures log == old(log) + [StartInstances(ids)]
      ensures StartInstancesApi in faults ==> r == Failure && reservations == old(reservations)
      ensures StartInstancesApi !in faults ==>
        && r == Success(())
        && Flatten(reservations) == Transition(Flatten(old(reservations)), ids, Running)
    {
      log := log + [StartInstances(ids)];
      if StartInstancesApi in faults {
        r := Failure;
      } else {
        ApplyTransition(ids, Running);
        r := Success(());
      }
    }

    method StopInstancesCall(ids: seq<string>) returns (r: Response<()>)
      requires Valid()
      modifies this`log, this`reservations
      ensures Valid()
      ensures log == old(log) + [StopInstances(ids)]
      ensures StopInstancesApi in faults ==> r == Failure && reservations == old(reservations)
      ensures StopInstancesApi !in faults ==>
        && r == Success(())
        && Flatten(reservations) == Transition(Flatten(old(reservations)), ids, Stopped)
    {
      log := log + [StopInstances(ids)];
      if StopInstancesApi in faults {
        r := Failure;
      } else {
        ApplyTransition(ids, Stopped);
        r := Success(());
      }
    }

    method TerminateInstancesCall(ids: seq<string>) returns (r: Response<()>)
      requires Valid()
      modifies this`log, this`reservations
      ensures Valid()
      ensures log == old(log) + [TerminateInstances(ids)]
      ensures TerminateInstancesApi in faults ==> r == Failure && reservations == old(reservations)
      ensures TerminateInstancesApi !in faults ==>
        && r == Success(())
        && Flatten(reservations) == Transition(Flatten(old(reservations)), ids, Terminated)
    {
      log := log + [TerminateInstances(ids)];
      if TerminateInstancesApi in faults {
        r := Failure;
      } else {
        ApplyTransition(ids, Terminated);
        r := Success(());
      }
    }

    // -------------------------------------------------------------- object-storage calls

    /** Creates an empty, untagged bucket. The provider refuses an invalid or taken name,
        and refuses an explicit location constraint naming the default region. */
    method CreateBucketCall(name: string, location: Option<string>) returns (r: Response<()>)
      requires Valid()
      modifies this`log, this`buckets
      ensures Valid()
      ensures log == old(log) + [CreateBucket(name, location)]
      ensures r.Success? <==> CreateBucketApi !in faults && BucketCreation(old(buckets), takenNames, name, location).Some?
      ensures r.Success? ==> buckets == BucketCreation(old(buckets), takenNames, name, location).value
      ensures r.Failure? ==> buckets == old(buckets)
    {
      log := log + [CreateBucket(name, location)];
      var created := BucketCreation(buckets, takenNames, name, location);
      if CreateBucketApi in faults || created.None? {
        r := Failure;
        return;
      }
      if name !in BucketNames(buckets) {
        var b := Bucket(name, location.GetOr(DefaultRegion), None, None, {});
        assert BucketNames(buckets + [b]) == BucketNames(buckets) + [name];
      }
      buckets := created.value;
      r := Success(());
    }

    /** Replaces bucket `i` by `b`, which keeps its name. */
    method ReplaceBucket(i: nat, b: Bucket)
      requires Valid() && i < |buckets| && b.name == buckets[i].name
      modifies this`buckets
      ensures Valid() && buckets == old(buckets)[i := b]
    {
      buckets := buckets[i := b];
      assert BucketNames(buckets) == BucketNames(old(buckets));
    }

    /** Replaces the bucket's whole tag set. */
    method PutBucketTaggingCall(name: string, tags: seq<Tag>) returns (r: Response<()>)
      requires Valid()
      modifies this`log, this`buckets
      ensures Valid()
      ensures log == old(log) + [PutBucketTagging(name, tags)]
      ensures r.Success? <==> PutBucketTaggingApi !in faults && FindBucket(old(buckets), name).Some?
      ensures r.Success? ==> var i := FindBucket(old(buckets), name).value;
        buckets == old(buckets)[i := old(buckets)[i].(tagging := Some(tags))]
      ensures r.Failure? ==> buckets == old(buckets)
    {
      log := log + [PutBucketTagging(name, tags)];
      var at := FindBucket(buckets, name);
      if PutBucketTaggingApi in faults || at.None? {
        r := Failure;
        return;
      }
      ReplaceBucket(at.value, buckets[at.value].(tagging := Some(tags)));
      r := Success(());
    }

    /** Fails with `NoSuchTagSet` when the bucket has never been tagged. */
    method GetBucketTaggingCall(name: string) returns (r: Response<seq<Tag>>)
      modifies this`log
      ensures log == old(log) + [GetBucketTagging(name)]
      ensures r == match FindBucket(buckets, name)
        case Some(i) => if GetBucketTaggingApi in faults || buckets[i].tagging.None? then Failure
                        else Success(buckets[i].tagging.value)
        case None => Failure
    {
      log := log + [GetBucketTagging(name)];
      var at := FindBucket(buckets, name);
      if GetBucketTaggingApi in faults || at.None? || buckets[at.value].tagging.None? {
        r := Failure;
      } else {
        r := Success(buckets[at.value].tagging.value);
      }
    }

    method PutPublicAccessBlockCall(name: string, config: BlockConfig) returns (r: Response<()>)
      requires Valid()
      modifies this`log, this`buckets
      ensures Valid()
      ensures log == old(log) + [PutPublicAccessBlock(name, config)]
      ensures r.Success? <==> PutPublicAccessBlockApi !in faults && FindBucket(old(buckets), name).Some?
      ensures r.Success? ==> var i := FindBucket(old(buckets), name).value;
        buckets == old(buckets)[i := old(buckets)[i].(accessBlock := Some(config))]
      ensures r.Failure? ==> buckets == old(buckets)
    {
      log := log + [PutPublicAccessBlock(name, config)];
      var at := FindBucket(buckets, name);
      if PutPublicAccessBlockApi in faults || at.None? {
        r := Failure;
        return;
      }
      ReplaceBucket(at.value, buckets[at.value].(accessBlock := Some(config)));
      r := Success(());
    }

    method HeadBucketCall(name: string) returns (r: Response<()>)
      modifies this`log
      ensures log == old(log) + [HeadBucket(name)]
      ensures r.Success? <==> HeadBucketApi !in faults && name in BucketNames(buckets)
    {
      log := log + [HeadBucket(name)];
      r := if HeadBucketApi in faults || name !in BucketNames(buckets) then Failure else Success(());
    }

    /** Stores (or overwrites) the object `key`. Reading the local file is part of the
        call, so a local read error shows as a fault of this API. */
    method UploadFileCall(name: string, key: string) returns (r: Response<()>)
      requires Valid()
      modifies this`log, this`buckets
      ensures Valid()
      ensures log == old(log) + [UploadFile(name, key)]
      ensures r.Success? <==> UploadFileApi !in faults && FindBucket(old(buckets), name).Some?
      ensures r.Success? ==> var i := FindBucket(old(buckets), name).value;
        buckets == old(buckets)[i := old(buckets)[i].(objects := old(buckets)[i].objects + {key})]
      ensures r.Failure? ==> buckets == old(buckets)
    {
      log := log + [UploadFile(name, key)];
      var at := FindBucket(buckets, name);
      if UploadFileApi in faults || at.None? {
        r := Failure;
        return;
      }
      ReplaceBucket(at.value, buckets[at.value].(objects := buckets[at.value].objects + {key}));
      r := Success(());
    }

    method ListBucketsCall() returns (r: Response<seq<string>>)
      modifies this`log
      ensures log == old(log) + [ListBuckets]
      ensures r == if ListBucketsApi in faults then Failure else Success(BucketNames(buckets))
    {
      log := log + [ListBuckets];
      r := if ListBucketsApi in faults then Failure else Success(BucketNames(buckets));
    }

    // -------------------------------------------------------------- DNS calls

    /** Creates an untagged, empty zone; the name is stored dot-terminated and the answer
        carries the full `/hostedzone/<id>` path. */
    method CreateHostedZoneCall(domain: string) returns (r: Response<string>)
      requires Valid()
      modifies this`log, this`zones, this`serial
      ensures Valid()
      ensures log == old(log) + [CreateHostedZone(domain)]
      ensures CreateHostedZoneApi in faults ==> r == Failure && zones == old(zones) && serial == old(serial)
      ensures CreateHostedZoneApi !in faults ==>
        && r == Success(ZonePathPrefix + MintedZoneId(old(serial)))
        && '/' !in MintedZoneId(old(serial))
        && MintedZoneId(old(serial)) !in ZoneIds(old(zones))
        && zones == old(zones) + [Zone(MintedZoneId(old(serial)), HostedZoneName(domain), [], [])]
        && serial == old(serial) + 1
    {
      log := log + [CreateHostedZone(domain)];
      if CreateHostedZoneApi in faults {
        r := Failure;
        return;
      }
      var id := MintedZoneId(serial);
      assert id == "Z" + Digits(serial);
      assert '/' !in id;
      var z := Zone(id, HostedZoneName(domain), [], []);
      assert ZoneIds(zones + [z]) == ZoneIds(zones) + [id];
      forall n | serial + 1 <= n
        ensures MintedZoneId(n) != id
      {
        if MintedZoneId(n) == id { PrefixedDigitsInjective("Z", n, serial); }
      }
      zones := zones + [z];
      serial := serial + 1;
      r := Success(ZonePathPrefix + id);
    }

    method ListHostedZonesCall() returns (r: Response<seq<ZoneSummary>>)
      modifies this`log
      ensures log == old(log) + [ListHostedZones]
      ensures r == if ListHostedZonesApi in faults then Failure else Success(Summaries(zones))
    {
      log := log + [ListHostedZones];
      r := if ListHostedZonesApi in faults then Failure else Success(Summaries(zones));
    }

    /** Replaces zone `i` by `z`, which keeps its id. */
    method ReplaceZone(i: nat, z: Zone)
      requires Valid() && i < |zones| && z.id == zones[i].id
      modifies this`zones
      ensures Valid() && zones == old(zones)[i := z]
    {
      zones := zones[i := z];
      assert ZoneIds(zones) == ZoneIds(old(zones));
    }

    /** Adds tags to a zone, replacing those with the same key. */
    method ChangeTagsForResourceCall(resourceId: string, added: seq<Tag>) returns (r: Response<()>)
      requires Valid()
      modifies this`log, this`zones
      ensures Valid()
      ensures log == old(log) + [ChangeTagsForResource(resourceId, added)]
      ensures var retagged := RetaggedZones(old(zones), AfterLast(resourceId, '/'), added);
        && (r.Success? <==> ChangeTagsApi !in faults && retagged.Some?)
        && zones == if r.Success? then retagged.value else old(zones)
    {
      log := log + [ChangeTagsForResource(resourceId, added)];
      if ChangeTagsApi in faults {
        r := Failure;
        return;
      }
      r := RetagZone(AfterLast(resourceId, '/'), added);
    }

    /** Adds the tags to the zone with this bare id, if there is one. */
    method RetagZone(id: string, added: seq<Tag>) returns (r: Response<()>)
      requires Valid()
      modifies this`zones
      ensures Valid()
      ensures var retagged := RetaggedZones(old(zones), id, added);
        && (r.Success? <==> retagged.Some?)
        && zones == if r.Success? then retagged.value else old(zones)
    {
      var at := FindZone(zones, id);
      if at.None? {
        r := Failure;
        return;
      }
      ReplaceZone(at.value, zones[at.value].(tags := AddTags(zones[at.value].tags, added)));
      r := Success(());
    }

    method ListTagsForResourceCall(resourceId: string) returns (r: Response<seq<Tag>>)
      modifies this`log
      ensures log == old(log) + [ListTagsForResource(resourceId)]
      ensures r == match FindZone(zones, AfterLast(resourceId, '/'))
        case Some(i) => if ListTagsApi in faults then Failure else Success(zones[i].tags)
        case None => Failure
    {
      log := log + [ListTagsForResource(resourceId)];
      var at := FindZone(zones, AfterLast(resourceId, '/'));
      r := if ListTagsApi in faults || at.None? then Failure else Success(zones[at.value].tags);
    }

    method ChangeResourceRecordSetsCall(zoneId: string, change: Change) returns (r: Response<()>)
      requires Valid()
      modifies this`log, this`zones
      ensures Valid()
      ensures log == old(log) + [ChangeResourceRecordSets(zoneId, change)]
      ensures var changed := ChangedRecords(old(zones), AfterLast(zoneId, '/'), change);
        && (r.Success? <==> ChangeRecordSetsApi !in faults && changed.Some?)
        && zones == if r.Success? then changed.value else old(zones)
    {
      log := log + [ChangeResourceRecordSets(zoneId, change)];
      if ChangeRecordSetsApi in faults {
        r := Failure;
        return;
      }
      r := ChangeRecordsOf(AfterLast(zoneId, '/'), change);
    }

    /** Applies the change to the zone with this bare id, if there is one and it accepts it. */
    method ChangeRecordsOf(id: string, change: Change) returns (r: Response<()>)
      requires Valid()
      modifies this`zones
      ensures Valid()
      ensures var changed := ChangedRecords(old(zones), id, change);
        && (r.Success? <==> changed.Some?)
        && zones == if r.Success? then changed.value else old(zones)
    {
      var at := FindZone(zones, id);
      if at.None? {
        r := Failure;
        return;
      }
      r := ChangeRecordsAt(at.value, change);
    }

    /** Applies the change to the records of zone `i`, if the change is accepted. */
    method ChangeRecordsAt(i: nat, change: Change) returns (r: Response<()>)
      requires Valid() && i < |zones|
      modifies this`zones
      ensures Valid()
      ensures r.Success? <==> ApplyChange(old(zones)[i].records, change).Some?
      ensures r.Success? ==> zones == old(zones)[i := old(zones)[i].(records := ApplyChange(old(zones)[i].records, change).value)]
      ensures r.Failure? ==> zones == old(zones)
    {
      var applied := ApplyChange(zones[i].records, change);
      if applied.None? {
        r := Failure;
        return;
      }
      ReplaceZone(i, zones[i].(records := applied.value));
      r := Success(());
    }

    method ListResourceRecordSetsCall(zoneId: string) returns (r: Response<seq<RecordSet>>)
      modifies this`log
      ensures log == old(log) + [ListResourceRecordSets(zoneId)]
      ensures r == match FindZone(zones, AfterLast(zoneId, '/'))
        case Some(i) => if ListRecordSetsApi in faults then Failure else Success(zones[i].records)
        case None => Failure
    {
      log := log + [ListResourceRecordSets(zoneId)];
      var at := FindZone(zones, AfterLast(zoneId, '/'));
      r := if ListRecordSetsApi in faults || at.None? then Failure else Success(zones[at.value].records);
    }
  }
}
