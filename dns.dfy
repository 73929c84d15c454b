/** The DNS lifecycle: create a hosted zone, change one record in an owned zone, list the
    owned zones, and list a zone's records. */
module Dns {
  import opened Wrappers
  import opened Text
  import opened Ownership
  import opened Provider
  import opened Cli

  /** The time to live every managed record is written with, in seconds. */
  const RecordTtl: nat := 300

  // ---------------------------------------------------------------- create zone

  /** What `create_route53_zone` does: the name is required; the zone is created under a
      fresh id, then the ownership tags are stamped on the bare zone id. Both calls are
      guarded; a failed tagging leaves the zone in place, untagged. */
  ghost predicate CreateZoneEffect(args: Args, faults: set<Api>, zs0: seq<Zone>, serial0: nat, r: Outcome,
                                   zs1: seq<Zone>, log0: seq<Call>, log1: seq<Call>) {
    if !Given(args.name) then r == Validation(MissingArgument) && log1 == log0 && zs1 == zs0
    else if CreateHostedZoneApi in faults then
      r == ProviderError && log1 == log0 + [CreateHostedZone(args.name.value)] && zs1 == zs0
    else
      var id := MintedZoneId(serial0);
      && id !in ZoneIds(zs0)
      && log1 == log0 + [CreateHostedZone(args.name.value), ChangeTagsForResource(id, OwnershipTags())]
      && zs1 == zs0 + [Zone(id, HostedZoneName(args.name.value), if ChangeTagsApi in faults then [] else OwnershipTags(), [])]
      && r == if ChangeTagsApi in faults then ProviderError else Ok(ZoneCreated(id))
  }

  /** `create_route53_zone` */
  method CreateZone(cloud: Cloud, args: Args) returns (r: Outcome)
    requires cloud.Valid()
    modifies cloud`log, cloud`zones, cloud`serial
    ensures cloud.Valid()
    ensures CreateZoneEffect(args, cloud.faults, old(cloud.zones), old(cloud.serial), r, cloud.zones, old(cloud.log), cloud.log)
  {
    if !Given(args.name) {
      return Validation(MissingArgument);
    }
    var domain := args.name.value;
    var created := cloud.CreateHostedZoneCall(domain);
    if created.Failure? {
      return ProviderError;
    }
    r := StampZone(cloud, old(cloud.zones), Zone(MintedZoneId(old(cloud.serial)), HostedZoneName(domain), [], []),
                   created.value);
  }

  /** A zone creation that reports success leaves an owned zone last. */
  lemma CreatedZoneIsOwned(args: Args, faults: set<Api>, zs0: seq<Zone>, serial0: nat, r: Outcome,
                           zs1: seq<Zone>, log0: seq<Call>, log1: seq<Call>)
    requires CreateZoneEffect(args, faults, zs0, serial0, r, zs1, log0, log1) && r.Ok?
    ensures zs1 != [] && IsOwned(zs1[|zs1| - 1].tags)
    ensures zs1[|zs1| - 1].name == HostedZoneName(args.name.value) && r == Ok(ZoneCreated(zs1[|zs1| - 1].id))
  {
  }

  /** The tagging step of `create_route53_zone`: the bare id is cut from the path the
      create answered with, and the ownership pair is stamped on the zone just created. */
  method StampZone(cloud: Cloud, ghost zs0: seq<Zone>, ghost zone: Zone, path: string) returns (r: Outcome)
    requires cloud.Valid() && cloud.zones == zs0 + [zone] && zone.tags == [] && path == ZonePathPrefix + zone.id
    modifies cloud`log, cloud`zones
    ensures cloud.Valid()
    ensures cloud.log == old(cloud.log) + [ChangeTagsForResource(zone.id, OwnershipTags())]
    ensures ChangeTagsApi in cloud.faults ==> r == ProviderError && cloud.zones == old(cloud.zones)
    ensures ChangeTagsApi !in cloud.faults ==>
      r == Ok(ZoneCreated(zone.id)) && cloud.zones == zs0 + [zone.(tags := OwnershipTags())]
  {
    RetagNewestZone(zs0, zone);
    var zoneId := AfterLast(path, '/');
    var tagged := cloud.ChangeTagsForResourceCall(zoneId, OwnershipTags());
    if tagged.Failure? {
      return ProviderError;
    }
    r := Ok(ZoneCreated(zoneId));
  }

  /** Tagging the newest, still untagged zone by the id cut from its path leaves it with
      exactly the ownership tags. */
  lemma RetagNewestZone(zs0: seq<Zone>, zone: Zone)
    requires ZoneIdsWellFormed(zs0 + [zone]) && zone.tags == []
    ensures AfterLast(ZonePathPrefix + zone.id, '/') == zone.id
    ensures RetaggedZones(zs0 + [zone], zone.id, OwnershipTags()) == Some(zs0 + [zone.(tags := OwnershipTags())])
  {
    var zs := zs0 + [zone];
    assert zs[|zs0|] == zone;
    FindZoneByBareId(zs, |zs0|);
    ZonePathLastSegment(zone.id);
    assert AddTags([], OwnershipTags()) == OwnershipTags();
    assert zs[|zs0| := zone.(tags := OwnershipTags())] == zs0 + [zone.(tags := OwnershipTags())];
  }

  // ---------------------------------------------------------------- zone lookup

  /** `z["Id"].split("/")[-1]`: the bare id of a listed zone. */
  method BareZoneId(summary: ZoneSummary, ghost zone: Zone) returns (id: string)
    requires summary.id == ZonePathPrefix + zone.id && '/' !in zone.id
    ensures id == zone.id && AfterLast(id, '/') == id
  {
    ZonePathLastSegment(zone.id);
    id := AfterLast(summary.id, '/');
    AfterLastOfPlain(id, '/');
  }

  /** The tag fetch for a listed zone, by the bare id cut from its path. */
  method FetchZoneTags(cloud: Cloud, summary: ZoneSummary, k: nat) returns (tags: Response<seq<Tag>>)
    requires ZoneIdsWellFormed(cloud.zones) && k < |cloud.zones| && summary.id == ZonePathPrefix + cloud.zones[k].id
    modifies cloud`log
    ensures cloud.log == old(cloud.log) + [ListTagsForResource(cloud.zones[k].id)]
    ensures tags == if ListTagsApi in cloud.faults then Failure else Success(cloud.zones[k].tags)
  {
    FindZoneByBareId(cloud.zones, k);
    var zoneId := BareZoneId(summary, cloud.zones[k]);
    tags := cloud.ListTagsForResourceCall(zoneId);
  }

  /** Zone names compare with trailing dots stripped from both sides. */
  predicate SameZoneName(a: string, b: string) {
    RStripDots(a) == RStripDots(b)
  }

  /** Two names that agree once dot-terminated are the same zone name, and adding a
      trailing dot to either side never changes the answer. */
  lemma SameZoneNameUpToDot(a: string, b: string)
    ensures EnsureTrailingDot(a) == EnsureTrailingDot(b) ==> SameZoneName(a, b)
    ensures SameZoneName(EnsureTrailingDot(a), b) <==> SameZoneName(a, b)
    ensures SameZoneName(a, EnsureTrailingDot(b)) <==> SameZoneName(a, b)
  {
    RStripIgnoresTrailingDot(a);
    RStripIgnoresTrailingDot(b);
    SameNameOfSameStripped(EnsureTrailingDot(a), a, b);
    SameNameOfSameStripped(EnsureTrailingDot(b), b, a);
  }

  lemma SameNameOfSameStripped(x: string, y: string, other: string)
    requires RStripDots(x) == RStripDots(y)
    ensures SameZoneName(x, other) == SameZoneName(y, other)
    ensures SameZoneName(other, x) == SameZoneName(other, y)
  {
  }

  /** Zone names are stored lower-cased but the lookup compares them as given: a zone
      created for `Example.com` is not found again under `Example.com`. */
  lemma MixedCaseNameMissesItsZone()
    ensures !SameZoneName(HostedZoneName("Example.com"), "Example.com")
  {
    var stored, asked := HostedZoneName("Example.com"), "Example.com";
    assert stored[0] == 'e' && stored[10] == 'm';
    assert RStripDots(asked) == asked;
    var r := RStripDots(stored);
    assert |r| > 0;
  }

  /** `[z for z in zones if z["Name"].rstrip('.') == domain.rstrip('.')][0]`, as an index. */
  function FirstMatchingZone(zs: seq<ZoneSummary>, domain: string): (r: Option<nat>)
    ensures r.Some? ==>
      && r.value < |zs| && SameZoneName(zs[r.value].name, domain)
      && forall j :: 0 <= j < r.value ==> !SameZoneName(zs[j].name, domain)
    ensures r.None? ==> forall j :: 0 <= j < |zs| ==> !SameZoneName(zs[j].name, domain)
  {
    if zs == [] then None
    else if SameZoneName(zs[0].name, domain) then Some(0)
    else match FirstMatchingZone(zs[1..], domain)
      case None => None
      case Some(k) => Some(k + 1)
  }

  /** A trailing dot on the requested domain never changes which zone is selected. */
  lemma MatchIgnoresTrailingDot(zs: seq<ZoneSummary>, domain: string)
    ensures FirstMatchingZone(zs, EnsureTrailingDot(domain)) == FirstMatchingZone(zs, domain)
  {
    RStripIgnoresTrailingDot(domain);
    MatchDependsOnStripped(zs, EnsureTrailingDot(domain), domain);
  }

  /** Only the stripped form of the domain decides the match. */
  lemma {:induction false} MatchDependsOnStripped(zs: seq<ZoneSummary>, a: string, b: string)
    requires RStripDots(a) == RStripDots(b)
    ensures FirstMatchingZone(zs, a) == FirstMatchingZone(zs, b)
  {
    if zs != [] {
      MatchDependsOnStripped(zs[1..], a, b);
    }
  }

  datatype ZoneLookup = LookupFailed(outcome: Outcome) | ZoneAt(index: nat, tags: seq<Tag>)

  /** What the shared lookup of the record handlers ends with: both calls are unguarded,
      so their failures crash; no matching zone is reported as not found. */
  function LookupZone(zones: seq<Zone>, faults: set<Api>, domain: string): (r: ZoneLookup)
    ensures r.LookupFailed? ==> r.outcome == Crashed || r.outcome == NotFound
    ensures r == LookupFailed(NotFound) <==>
      ListHostedZonesApi !in faults && forall j :: 0 <= j < |zones| ==> !SameZoneName(zones[j].name, domain)
    ensures r.ZoneAt? ==>
      && ListHostedZonesApi !in faults && ListTagsApi !in faults
      && r.index < |zones| && r.tags == zones[r.index].tags
      && SameZoneName(zones[r.index].name, domain)
      && forall j :: 0 <= j < r.index ==> !SameZoneName(zones[j].name, domain)
  {
    if ListHostedZonesApi in faults then LookupFailed(Crashed)
    else
      var summaries := Summaries(zones);
      match FirstMatchingZone(summaries, domain)
      case None =>
        assert forall j :: 0 <= j < |zones| ==> summaries[j].name == zones[j].name;
        LookupFailed(NotFound)
      case Some(k) =>
        assert summaries[k].name == zones[k].name;
        assert forall j :: 0 <= j < k ==> summaries[j].name == zones[j].name;
        if ListTagsApi in faults then LookupFailed(Crashed) else ZoneAt(k, zones[k].tags)
  }

  /** The calls the lookup issues: the zone listing, then the tag fetch when a zone
      matched. */
  function LookupCalls(zones: seq<Zone>, faults: set<Api>, domain: string): seq<Call> {
    var matching := FirstMatchingZone(Summaries(zones), domain);
    if ListHostedZonesApi in faults || matching.None? then [ListHostedZones]
    else [ListHostedZones, ListTagsForResource(zones[matching.value].id)]
  }

  /** The part both record handlers share: list the zones, take the first whose name
      matches, and fetch its tags by bare id. */
  method LocateZone(cloud: Cloud, domain: string) returns (found: ZoneLookup)
    requires cloud.Valid()
    modifies cloud`log
    ensures found == LookupZone(cloud.zones, cloud.faults, domain)
    ensures cloud.log == old(cloud.log) + LookupCalls(cloud.zones, cloud.faults, domain)
  {
    var listed := cloud.ListHostedZonesCall();
    if listed.Failure? {
      return LookupFailed(Crashed);
    }
    var matching := FirstMatchingZone(listed.value, domain);
    if matching.None? {
      return LookupFailed(NotFound);
    }
    var k := matching.value;
    var tags := FetchZoneTags(cloud, listed.value[k], k);
    if tags.Failure? {
      return LookupFailed(Crashed);
    }
    found := ZoneAt(k, tags.value);
  }

  // ---------------------------------------------------------------- change record

  /** The record action: `update` becomes `upsert`, every other action is kept. */
  function RecordAction(a: Action): (r: string)
    ensures a == Update ==> r == "upsert"
    ensures a != Update ==> r == ActionName(a)
  {
    var name := ActionName(a);
    if name == "update" then "upsert" else name
  }

  /** The combined argument check of `manage_route53_record`, on the already
      dot-terminated domain (so its emptiness test can never fire). */
  predicate BadRecordArgs(domain: string, action: string, value: Option<string>): (bad: bool)
    ensures domain != "" ==>
      (!bad <==> action == "delete" || ((action == "create" || action == "upsert") && Given(value)))
  {
    || domain == ""
    || (action in ["create", "upsert"] && !Given(value))
    || action !in ["create", "upsert", "delete"]
  }

  /** The three record actions as the change batch spells them. */
  lemma UpperActionNames()
    ensures ToUpper("create") == "CREATE"
    ensures ToUpper("upsert") == "UPSERT"
    ensures ToUpper("delete") == "DELETE"
  {
    UpperIs("create", "CREATE");
    UpperIs("upsert", "UPSERT");
    UpperIs("delete", "DELETE");
  }

  lemma UpperIs(s: string, t: string)
    requires |s| == |t| && forall i :: 0 <= i < |s| ==> UpperChar(s[i]) == t[i]
    ensures ToUpper(s) == t
  {
  }

  /** The one change the handler sends: upper-cased action, dot-terminated name, the
      given type or `A`, the fixed time to live and the single value as given. */
  function RecordChange(args: Args): (c: Change)
    requires args.name.Some?
    ensures c.name == EnsureTrailingDot(args.name.value) && c.name[|c.name| - 1] == '.'
    ensures args.action == Create ==> c.action == "CREATE"
    ensures args.action == Update ==> c.action == "UPSERT"
    ensures args.action == Delete ==> c.action == "DELETE"
    ensures c.ttl == RecordTtl && c.value == args.system
    ensures Given(args.instanceType) ==> c.recordType == args.instanceType.value
    ensures !Given(args.instanceType) ==> c.recordType == "A"
  {
    UpperActionNames();
    Change(ToUpper(RecordAction(args.action)), EnsureTrailingDot(args.name.value), OrElse(args.instanceType, "A"),
           RecordTtl, args.system)
  }

  /** What the record change does from the zone lookup on: the first matching zone must
      carry `CreatedBy` (as `any` finds it); then the guarded change call either applies
      the change to that zone alone or reports an error and changes nothing. */
  ghost predicate ChangeEffect(before: seq<Zone>, after: seq<Zone>, faults: set<Api>, change: Change, r: Outcome,
                               oldLog: seq<Call>, newLog: seq<Call>) {
    var lookup := oldLog + LookupCalls(before, faults, change.name);
    match LookupZone(before, faults, change.name)
    case LookupFailed(outcome) => r == outcome && after == before && newLog == lookup
    case ZoneAt(k, tags) =>
      if !CreatedByToolAny(tags) then r == Denied(NotOwned) && after == before && newLog == lookup
      else
        && newLog == lookup + [ChangeResourceRecordSets(ZonePathPrefix + before[k].id, change)]
        && var applied := ApplyChange(before[k].records, change);
        if ChangeRecordSetsApi !in faults && applied.Some? then
          r == Ok(RecordChanged) && after == before[k := before[k].(records := applied.value)]
        else
          r == ProviderError && after == before
  }

  /** The guarded change call on the located zone. */
  method SendChange(cloud: Cloud, k: nat, change: Change) returns (r: Outcome)
    requires cloud.Valid() && k < |cloud.zones|
    modifies cloud`log, cloud`zones
    ensures cloud.Valid()
    ensures cloud.log == old(cloud.log) + [ChangeResourceRecordSets(ZonePathPrefix + old(cloud.zones)[k].id, change)]
    ensures ChangeRecordSetsApi !in cloud.faults && ApplyChange(old(cloud.zones)[k].records, change).Some? ==>
      && r == Ok(RecordChanged)
      && cloud.zones == old(cloud.zones)[k := old(cloud.zones)[k].(records := ApplyChange(old(cloud.zones)[k].records, change).value)]
    ensures !(ChangeRecordSetsApi !in cloud.faults && ApplyChange(old(cloud.zones)[k].records, change).Some?) ==>
      r == ProviderError && cloud.zones == old(cloud.zones)
  {
    ZonePathLastSegment(cloud.zones[k].id);
    FindZoneOfDistinct(cloud.zones, k);
    var changed := cloud.ChangeResourceRecordSetsCall(ZonePathPrefix + cloud.zones[k].id, change);
    r := if changed.Failure? then ProviderError else Ok(RecordChanged);
  }

  /** Lookup, guard and change for a change already built from the arguments. */
  method ChangeInZone(cloud: Cloud, change: Change) returns (r: Outcome)
    requires cloud.Valid()
    modifies cloud`log, cloud`zones
    ensures cloud.Valid()
    ensures ChangeEffect(old(cloud.zones), cloud.zones, cloud.faults, change, r, old(cloud.log), cloud.log)
  {
    var found := LocateZone(cloud, change.name);
    if found.LookupFailed? {
      return found.outcome;
    }
    if !CreatedByToolAny(found.tags) {
      return Denied(NotOwned);
    }
    r := SendChange(cloud, found.index, change);
  }

  /** What `manage_route53_record` does. A missing name crashes before any check, since
      the trailing-dot step runs first; a bad request is refused before any call; otherwise
      the change goes to the first matching zone if it carries `CreatedBy`. */
  ghost predicate RecordRequestEffect(args: Args, faults: set<Api>, zs0: seq<Zone>, r: Outcome, zs1: seq<Zone>,
                                      log0: seq<Call>, log1: seq<Call>) {
    if args.name.None? then r == Crashed && log1 == log0 && zs1 == zs0
    else if BadRecordArgs(EnsureTrailingDot(args.name.value), RecordAction(args.action), args.system) then
      r == Validation(BadRecordRequest) && log1 == log0 && zs1 == zs0
    else ChangeEffect(zs0, zs1, faults, RecordChange(args), r, log0, log1)
  }

  /** `manage_route53_record` */
  method ChangeRecord(cloud: Cloud, args: Args) returns (r: Outcome)
    requires cloud.Valid()
    modifies cloud`log, cloud`zones
    ensures cloud.Valid()
    ensures RecordRequestEffect(args, cloud.faults, old(cloud.zones), r, cloud.zones, old(cloud.log), cloud.log)
  {
    if args.name.None? {
      return Crashed;
    }
    var recordType := OrElse(args.instanceType, "A");
    var action := RecordAction(args.action);
    var value := args.system;
    var domain := EnsureTrailingDot(args.name.value);
    if BadRecordArgs(domain, action, value) {
      return Validation(BadRecordRequest);
    }
    var change := Change(ToUpper(action), domain, recordType, RecordTtl, value);
    r := ChangeInZone(cloud, change);
  }

  /** A record change alters at most the first zone matching the domain, only when that
      zone carries `CreatedBy`, and (for anything but a delete) leaves the requested record
      in it. */
  lemma ChangeOnlyInOwnedZone(before: seq<Zone>, after: seq<Zone>, faults: set<Api>, change: Change, r: Outcome,
                              oldLog: seq<Call>, newLog: seq<Call>)
    requires ChangeEffect(before, after, faults, change, r, oldLog, newLog)
    requires after != before
    ensures r == Ok(RecordChanged)
    ensures var found := LookupZone(before, faults, change.name);
      && found.ZoneAt?
      && CreatedByToolAny(before[found.index].tags)
      && (forall j :: 0 <= j < |before| && j != found.index ==> after[j] == before[j])
      && (change.action != "DELETE" ==>
            change.value.Some? && RecordSet(change.name, change.recordType, change.ttl, [change.value.value]) in after[found.index].records)
  {
    var found := LookupZone(before, faults, change.name);
    var k := found.index;
    assert after == before[k := before[k].(records := ApplyChange(before[k].records, change).value)];
  }

  // ---------------------------------------------------------------- list zones

  /** The summary `list_route53_zones` reports for an owned zone. */
  predicate ListsAs(z: Zone, s: ZoneSummary) {
    IsOwned(z.tags) && s == ZoneSummary(ZonePathPrefix + z.id, z.name)
  }

  /** The summary listed for a zone, when that zone is owned. */
  function ListedIfOwned(z: Zone): seq<ZoneSummary> {
    if IsOwned(z.tags) then [ZoneSummary(ZonePathPrefix + z.id, z.name)] else []
  }

  /** The owned zones (both tags, read as a dictionary), as the listing reports them. */
  function OwnedZones(zs: seq<Zone>): (r: seq<ZoneSummary>)
    ensures |r| <= |zs|
  {
    if zs == [] then [] else OwnedZones(zs[..|zs| - 1]) + ListedIfOwned(zs[|zs| - 1])
  }

  /** A zone is listed exactly when its tags carry the ownership pair. */
  lemma {:induction false} OwnedZonesMembers(zs: seq<Zone>, s: ZoneSummary)
    ensures s in OwnedZones(zs) <==> exists z :: z in zs && ListsAs(z, s)
  {
    if zs != [] {
      var n := |zs| - 1;
      var init := zs[..n];
      OwnedZonesMembers(init, s);
      assert zs == init + [zs[n]];
      assert s in ListedIfOwned(zs[n]) <==> ListsAs(zs[n], s);
    }
  }

  function ZoneTagQueries(zs: seq<Zone>): (r: seq<Call>)
    ensures |r| == |zs|
  {
    if zs == [] then [] else ZoneTagQueries(zs[..|zs| - 1]) + [ListTagsForResource(zs[|zs| - 1].id)]
  }

  /** One more zone scanned: one more tag query after `calls`, and its summary if owned. */
  lemma ListingStep(calls: seq<Call>, zs: seq<Zone>, i: nat)
    requires i < |zs|
    ensures calls + ZoneTagQueries(zs[..i + 1]) == calls + ZoneTagQueries(zs[..i]) + [ListTagsForResource(zs[i].id)]
    ensures OwnedZones(zs[..i + 1]) == OwnedZones(zs[..i]) + ListedIfOwned(zs[i])
  {
    assert zs[..i + 1][..i] == zs[..i];
  }

  /** One pass of the listing loop: the tag fetch for the `i`-th listed zone, by the bare
      id cut from its path, and the summary kept when the zone is owned. */
  method ScanZone(cloud: Cloud, summaries: seq<ZoneSummary>, i: nat, owned: seq<ZoneSummary>, ghost log0: seq<Call>)
    returns (ok: bool, owned': seq<ZoneSummary>)
    requires ZoneIdsWellFormed(cloud.zones) && summaries == Summaries(cloud.zones) && i < |summaries|
    requires cloud.log == log0 + ZoneTagQueries(cloud.zones[..i]) && owned == OwnedZones(cloud.zones[..i])
    modifies cloud`log
    ensures cloud.log == log0 + ZoneTagQueries(cloud.zones[..i + 1])
    ensures ok <==> ListTagsApi !in cloud.faults
    ensures ok ==> owned' == OwnedZones(cloud.zones[..i + 1])
  {
    ListingStep(log0, cloud.zones, i);
    var tags := FetchZoneTags(cloud, summaries[i], i);
    ok := tags.Success?;
    owned' := owned;
    if ok && IsOwned(tags.value) {
      owned' := owned + [summaries[i]];
    }
  }

  /** The loop of `list_route53_zones`: one tag fetch per listed zone, in order, stopping
      at the first fetch that fails. */
  method CollectOwnedZones(cloud: Cloud, summaries: seq<ZoneSummary>) returns (ok: bool, owned: seq<ZoneSummary>)
    requires ZoneIdsWellFormed(cloud.zones) && summaries == Summaries(cloud.zones)
    modifies cloud`log
    ensures ok <==> ListTagsApi !in cloud.faults || cloud.zones == []
    ensures ok ==> owned == OwnedZones(cloud.zones) && cloud.log == old(cloud.log) + ZoneTagQueries(cloud.zones)
    ensures !ok ==> cloud.log == old(cloud.log) + ZoneTagQueries(cloud.zones[..1])
  {
    ghost var log0 := cloud.log;
    owned := [];
    ok := true;
    var i := 0;
    while i < |summaries|
      invariant 0 <= i <= |summaries|
      invariant cloud.log == log0 + ZoneTagQueries(cloud.zones[..i])
      invariant owned == OwnedZones(cloud.zones[..i])
      invariant ListTagsApi in cloud.faults ==> i == 0
    {
      ok, owned := ScanZone(cloud, summaries, i, owned, log0);
      if !ok {
        return;
      }
      i := i + 1;
    }
    assert cloud.zones[..i] == cloud.zones;
  }

  /** What `list_route53_zones` reports and logs: the zone listing, then one tag fetch per
      zone. The whole body is guarded, so the first failing fetch ends the listing with an
      error. */
  ghost predicate ListZonesEffect(faults: set<Api>, zs: seq<Zone>, r: Outcome, log0: seq<Call>, log1: seq<Call>) {
    if ListHostedZonesApi in faults then r == ProviderError && log1 == log0 + [ListHostedZones]
    else if ListTagsApi in faults && zs != [] then
      r == ProviderError && log1 == log0 + [ListHostedZones, ListTagsForResource(zs[0].id)]
    else r == Ok(ZoneListing(OwnedZones(zs))) && log1 == log0 + [ListHostedZones] + ZoneTagQueries(zs)
  }

  /** `list_route53_zones` */
  method ListZones(cloud: Cloud) returns (r: Outcome)
    requires cloud.Valid()
    modifies cloud`log
    ensures ListZonesEffect(cloud.faults, cloud.zones, r, old(cloud.log), cloud.log)
  {
    var listed := cloud.ListHostedZonesCall();
    if listed.Failure? {
      return ProviderError;
    }
    var ok, owned := CollectOwnedZones(cloud, listed.value);
    r := if ok then Ok(ZoneListing(owned)) else ProviderError;
  }

  // ---------------------------------------------------------------- list records

  /** What `list_route53_records` reports and logs: the lookup is unguarded, the guard
      reads `CreatedBy` from the tag dictionary, and only the record listing is guarded. */
  ghost predicate ListRecordsEffect(args: Args, faults: set<Api>, zs: seq<Zone>, r: Outcome,
                                    log0: seq<Call>, log1: seq<Call>) {
    if !Given(args.name) then r == Validation(MissingArgument) && log1 == log0
    else
      var lookup := log0 + LookupCalls(zs, faults, args.name.value);
      match LookupZone(zs, faults, args.name.value)
      case LookupFailed(outcome) => r == outcome && log1 == lookup
      case ZoneAt(k, tags) =>
        if !CreatedByToolInDict(tags) then r == Denied(NotOwned) && log1 == lookup
        else
          && log1 == lookup + [ListResourceRecordSets(ZonePathPrefix + zs[k].id)]
          && r == if ListRecordSetsApi in faults then ProviderError else Ok(RecordListing(zs[k].records))
  }

  /** `list_route53_records` */
  method ListRecords(cloud: Cloud, args: Args) returns (r: Outcome)
    requires cloud.Valid()
    modifies cloud`log
    ensures ListRecordsEffect(args, cloud.faults, cloud.zones, r, old(cloud.log), cloud.log)
  {
    if !Given(args.name) {
      return Validation(MissingArgument);
    }
    var found := LocateZone(cloud, args.name.value);
    if found.LookupFailed? {
      return found.outcome;
    }
    if !CreatedByToolInDict(found.tags) {
      return Denied(NotOwned);
    }
    ZonePathLastSegment(cloud.zones[found.index].id);
    FindZoneOfDistinct(cloud.zones, found.index);
    var records := cloud.ListResourceRecordSetsCall(ZonePathPrefix + cloud.zones[found.index].id);
    r := if records.Failure? then ProviderError else Ok(RecordListing(records.value));
  }
}
