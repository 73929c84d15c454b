/** The object-storage lifecycle: create a bucket (with the public-access confirmation),
    upload a file into an owned bucket, and list the owned buckets. */
module ObjectStore {
  import opened Wrappers
  import opened Text
  import opened Ownership
  import opened Provider
  import opened Cli

  // ---------------------------------------------------------------- create

  /** The region the storage client works in: the configured one, else the default. */
  function SessionRegion(configured: Option<string>): (region: string)
    ensures Given(configured) ==> region == configured.value
    ensures !Given(configured) ==> region == DefaultRegion
    ensures region != ""
  {
    OrElse(configured, DefaultRegion)
  }

  /** The location constraint sent with a create: none for the default region, which the
      provider refuses to see named explicitly. */
  function LocationFor(region: string): (r: Option<string>)
    ensures r != Some(DefaultRegion)
    ensures r.GetOr(DefaultRegion) == region
  {
    if region == DefaultRegion then None else Some(region)
  }

  datatype Answer = Yes | No | Other

  /** The reply to the confirmation prompt, compared case-insensitively. */
  function ReadAnswer(reply: string): (a: Answer)
    ensures a == Yes <==> ToLower(reply) == "yes"
    ensures a == No <==> ToLower(reply) == "no"
  {
    var lowered := ToLower(reply);
    if lowered == "no" then No else if lowered == "yes" then Yes else Other
  }

  /** Any capitalisation of the full word confirms; an abbreviation does not. */
  lemma AnswerIgnoresCase()
    ensures ReadAnswer("YES") == Yes && ReadAnswer("Yes") == Yes && ReadAnswer("No") == No
    ensures ReadAnswer("y") == Other
  {
    assert ToLower("YES") == "yes" && ToLower("Yes") == "yes" && ToLower("No") == "no";
    assert ToLower("y") == "y";
  }

  /** Whether the create request gets past the name check and the confirmation. */
  predicate Proceeds(args: Args, reply: string) {
    Given(args.name) && (!args.public || ReadAnswer(reply) == Yes)
  }

  /** The bucket a fully successful create of a fresh name leaves behind, public or not. */
  function CreatedBucket(name: string, region: string): Bucket {
    NewBucket(name, region).(tagging := Some(OwnershipTags()))
  }

  /** Bucket `i` stamped with the ownership tags. */
  function Stamped(bs: seq<Bucket>, i: nat): (r: seq<Bucket>)
    requires i < |bs|
    ensures |r| == |bs| && r[i].tagging == Some(OwnershipTags())
    ensures r[i] == bs[i].(tagging := r[i].tagging)
    ensures forall j :: 0 <= j < |bs| && j != i ==> r[j] == bs[j]
  {
    bs[i := bs[i].(tagging := Some(OwnershipTags()))]
  }

  /** Bucket `i` with every kind of public access blocked. */
  function Blocked(bs: seq<Bucket>, i: nat): (r: seq<Bucket>)
    requires i < |bs|
    ensures |r| == |bs| && r[i].accessBlock == Some(FullBlock)
    ensures r[i] == bs[i].(accessBlock := r[i].accessBlock)
    ensures forall j :: 0 <= j < |bs| && j != i ==> r[j] == bs[j]
  {
    bs[i := bs[i].(accessBlock := Some(FullBlock))]
  }

  /** What the guarded part of `create_bucket` does from buckets `bs0` and log `log0` on:
      create in the region, stamp the ownership tags, and block public access unless the
      bucket is meant to be public. The tags and the block go to whichever bucket the
      create left under the name, a fresh one or one this account already held. The
      first failing call ends it, and what was done before stays done. */
  ghost predicate ProvisionEffect(faults: set<Api>, taken: set<string>, bs0: seq<Bucket>, name: string, region: string,
                                  public: bool, r: Outcome, bs1: seq<Bucket>, log0: seq<Call>, log1: seq<Call>) {
    var create := log0 + [Call.CreateBucket(name, LocationFor(region))];
    var tag := create + [PutBucketTagging(name, OwnershipTags())];
    var block := tag + [PutPublicAccessBlock(name, FullBlock)];
    var created := BucketCreation(bs0, taken, name, LocationFor(region));
    if CreateBucketApi in faults || created.None? then
      r == ProviderError && log1 == create && bs1 == bs0
    else
      var bsC := created.value;
      var i := FindBucket(bsC, name).value;
      if PutBucketTaggingApi in faults then
        r == ProviderError && log1 == tag && bs1 == bsC
      else if public then
        r == Ok(BucketCreated(name)) && log1 == tag && bs1 == Stamped(bsC, i)
      else if PutPublicAccessBlockApi in faults then
        r == ProviderError && log1 == block && bs1 == Stamped(bsC, i)
      else
        r == Ok(BucketCreated(name)) && log1 == block && bs1 == Blocked(Stamped(bsC, i), i)
  }

  method Provision(cloud: Cloud, name: string, region: string, public: bool) returns (r: Outcome)
    requires cloud.Valid()
    modifies cloud`log, cloud`buckets
    ensures cloud.Valid()
    ensures ProvisionEffect(cloud.faults, cloud.takenNames, old(cloud.buckets), name, region, public,
                            r, cloud.buckets, old(cloud.log), cloud.log)
  {
    var created := cloud.CreateBucketCall(name, LocationFor(region));
    if created.Failure? {
      return ProviderError;
    }
    r := Secure(cloud, name, FindBucket(cloud.buckets, name).value, public);
  }

  /** The steps after a successful create: the ownership tags, then the public-access block
      unless the bucket is meant to be public, both on bucket `i`, the one under the name. */
  method Secure(cloud: Cloud, name: string, i: nat, public: bool) returns (r: Outcome)
    requires cloud.Valid() && FindBucket(cloud.buckets, name) == Some(i)
    modifies cloud`log, cloud`buckets
    ensures cloud.Valid()
    ensures var tag := old(cloud.log) + [PutBucketTagging(name, OwnershipTags())];
      var block := tag + [PutPublicAccessBlock(name, FullBlock)];
      if PutBucketTaggingApi in cloud.faults then
        r == ProviderError && cloud.log == tag && cloud.buckets == old(cloud.buckets)
      else if public then
        r == Ok(BucketCreated(name)) && cloud.log == tag && cloud.buckets == Stamped(old(cloud.buckets), i)
      else if PutPublicAccessBlockApi in cloud.faults then
        r == ProviderError && cloud.log == block && cloud.buckets == Stamped(old(cloud.buckets), i)
      else
        r == Ok(BucketCreated(name)) && cloud.log == block && cloud.buckets == Blocked(Stamped(old(cloud.buckets), i), i)
  {
    var tagged := cloud.PutBucketTaggingCall(name, OwnershipTags());
    if tagged.Failure? {
      return ProviderError;
    }
    assert cloud.buckets == Stamped(old(cloud.buckets), i);
    if !public {
      FindBucketOfDistinct(cloud.buckets, i);
      var blocked := cloud.PutPublicAccessBlockCall(name, FullBlock);
      if blocked.Failure? {
        return ProviderError;
      }
    }
    r := Ok(BucketCreated(name));
  }

  /** The guarded part always starts with the create call and either reports the created
      bucket or a provider error; it succeeds exactly when no call it makes fails. For a
      fresh name a success leaves the tagged bucket at the end, fully blocked whether or
      not it was asked to be public, and a failure after the create leaves it blocked and
      tagged exactly when the tagging call went through; for a name this account already held in the default region it stamps and
      blocks that bucket in place, keeping its objects, and touches no other bucket. */
  lemma ProvisionOutcomes(faults: set<Api>, taken: set<string>, bs0: seq<Bucket>, name: string, region: string,
                          public: bool, r: Outcome, bs1: seq<Bucket>, log0: seq<Call>, log1: seq<Call>)
    requires ProvisionEffect(faults, taken, bs0, name, region, public, r, bs1, log0, log1)
    ensures r == Ok(BucketCreated(name)) || r == ProviderError
    ensures |log1| > |log0| && log1[|log0|] == Call.CreateBucket(name, LocationFor(region))
    ensures r.Ok? <==>
      && CreateBucketApi !in faults && BucketCreation(bs0, taken, name, LocationFor(region)).Some?
      && PutBucketTaggingApi !in faults && (public || PutPublicAccessBlockApi !in faults)
    ensures r.Ok? && name !in BucketNames(bs0) ==> bs1 == bs0 + [CreatedBucket(name, region)]
    ensures r.Ok? && name in BucketNames(bs0) ==>
      var i := FindBucket(bs0, name).value;
      && region == DefaultRegion && |bs1| == |bs0|
      && bs1[i] == bs0[i].(tagging := Some(OwnershipTags()), accessBlock := bs1[i].accessBlock)
      && (public ==> bs1[i].accessBlock == bs0[i].accessBlock)
      && (!public ==> bs1[i].accessBlock == Some(FullBlock))
      && forall j :: 0 <= j < |bs0| && j != i ==> bs1[j] == bs0[j]
    ensures !r.Ok? && bs1 != bs0 && name !in BucketNames(bs0) ==>
      && |bs1| == |bs0| + 1 && bs1[..|bs0|] == bs0 && bs1[|bs0|].name == name
      && bs1[|bs0|].accessBlock == Some(FullBlock)
      && (bs1[|bs0|].tagging.Some? <==> PutBucketTaggingApi !in faults)
  {
    if name !in BucketNames(bs0) {
      FindAppendedBucket(bs0, NewBucket(name, region));
    } else if r.Ok? {
      ProvisionOfHeldName(faults, taken, bs0, name, region, public, r, bs1, log0, log1);
    }
  }

  /** A success on a name this account already held: only possible in the default region,
      it stamps and (unless public) blocks that bucket in place and leaves the rest. */
  lemma ProvisionOfHeldName(faults: set<Api>, taken: set<string>, bs0: seq<Bucket>, name: string, region: string,
                            public: bool, r: Outcome, bs1: seq<Bucket>, log0: seq<Call>, log1: seq<Call>)
    requires ProvisionEffect(faults, taken, bs0, name, region, public, r, bs1, log0, log1)
    requires name in BucketNames(bs0) && r.Ok?
    ensures var i := FindBucket(bs0, name).value;
      && region == DefaultRegion && |bs1| == |bs0|
      && bs1[i] == bs0[i].(tagging := Some(OwnershipTags()), accessBlock := bs1[i].accessBlock)
      && (public ==> bs1[i].accessBlock == bs0[i].accessBlock)
      && (!public ==> bs1[i].accessBlock == Some(FullBlock))
      && forall j :: 0 <= j < |bs0| && j != i ==> bs1[j] == bs0[j]
  {
    assert BucketCreation(bs0, taken, name, LocationFor(region)) == Some(bs0);
  }

  /** Creating a name this account already holds in the default region, with no region
      configured, succeeds and stamps that bucket as owned, whoever tagged it before and
      whatever it holds: the controller adopts a bucket it did not create. */
  lemma HeldBucketAdopted(faults: set<Api>, taken: set<string>, bs0: seq<Bucket>, i: nat, public: bool,
                          r: Outcome, bs1: seq<Bucket>, log0: seq<Call>, log1: seq<Call>)
    requires i < |bs0| && FindBucket(bs0, bs0[i].name) == Some(i) && bs0[i].region == DefaultRegion
    requires faults !! {CreateBucketApi, PutBucketTaggingApi, PutPublicAccessBlockApi}
    requires ProvisionEffect(faults, taken, bs0, bs0[i].name, SessionRegion(None), public, r, bs1, log0, log1)
    ensures r == Ok(BucketCreated(bs0[i].name)) && |bs1| == |bs0|
    ensures bs1[i].tagging.Some? && IsOwned(bs1[i].tagging.value)
    ensures bs1[i].objects == bs0[i].objects
  {
    ProvisionOutcomes(faults, taken, bs0, bs0[i].name, SessionRegion(None), public, r, bs1, log0, log1);
  }

  /** What `create_bucket` does: the name is required; a public bucket needs the prompt
      answered `yes` (`no` declines, anything else is invalid); then the guarded part
      runs in the session's region. Nothing is called before the guarded part. */
  ghost predicate CreateBucketEffect(args: Args, configuredRegion: Option<string>, reply: string, faults: set<Api>,
                                     taken: set<string>, bs0: seq<Bucket>, r: Outcome, bs1: seq<Bucket>,
                                     log0: seq<Call>, log1: seq<Call>) {
    if !Given(args.name) then r == Validation(MissingArgument) && log1 == log0 && bs1 == bs0
    else if args.public && ReadAnswer(reply) == No then r == Denied(Declined) && log1 == log0 && bs1 == bs0
    else if args.public && ReadAnswer(reply) == Other then r == Validation(InvalidAnswer) && log1 == log0 && bs1 == bs0
    else
      ProvisionEffect(faults, taken, bs0, args.name.value, SessionRegion(configuredRegion), args.public,
                      r, bs1, log0, log1)
  }

  /** `create_bucket`. The reply is what the operator types at the prompt; it is read only
      for a public bucket. */
  method CreateBucket(cloud: Cloud, args: Args, configuredRegion: Option<string>, reply: string) returns (r: Outcome)
    requires cloud.Valid()
    modifies cloud`log, cloud`buckets
    ensures cloud.Valid()
    ensures CreateBucketEffect(args, configuredRegion, reply, cloud.faults, cloud.takenNames,
                               old(cloud.buckets), r, cloud.buckets, old(cloud.log), cloud.log)
  {
    if !Given(args.name) {
      return Validation(MissingArgument);
    }
    if args.public {
      var answer := ReadAnswer(reply);
      if answer == No {
        return Denied(Declined);
      } else if answer != Yes {
        return Validation(InvalidAnswer);
      }
    }
    var region := SessionRegion(configuredRegion);
    r := Provision(cloud, args.name.value, region, args.public);
  }

  /** No provider call is made and nothing changes unless the request gets past the name
      check and the confirmation; once it does, the create call is always issued. */
  lemma CallsOnlyWhenProceeding(args: Args, configuredRegion: Option<string>, reply: string, faults: set<Api>,
                                taken: set<string>, bs0: seq<Bucket>, r: Outcome, bs1: seq<Bucket>,
                                log0: seq<Call>, log1: seq<Call>)
    requires CreateBucketEffect(args, configuredRegion, reply, faults, taken, bs0, r, bs1, log0, log1)
    ensures log1 != log0 <==> Proceeds(args, reply)
    ensures !Proceeds(args, reply) ==> bs1 == bs0 && !r.Ok?
  {
    if Proceeds(args, reply) {
      ProvisionOutcomes(faults, taken, bs0, args.name.value, SessionRegion(configuredRegion), args.public,
                        r, bs1, log0, log1);
    }
  }

  /** A fresh name that breaks S3's naming rules, such as `My_Bucket`, is refused by the
      create call: the handler reports a provider error and no bucket is made. */
  lemma InvalidNameRefused(faults: set<Api>, taken: set<string>, bs0: seq<Bucket>, name: string, region: string,
                           public: bool, r: Outcome, bs1: seq<Bucket>, log0: seq<Call>, log1: seq<Call>)
    requires ProvisionEffect(faults, taken, bs0, name, region, public, r, bs1, log0, log1)
    requires name !in BucketNames(bs0) && !ValidBucketName(name)
    ensures r == ProviderError && bs1 == bs0 && log1 == log0 + [Call.CreateBucket(name, LocationFor(region))]
  {
  }

  /** A bucket that reaches the success report is tagged as owned, lands in the session's
      region, is empty, and has public access fully blocked. */
  lemma CreatedBucketShape(name: string, region: string)
    ensures var b := CreatedBucket(name, region);
      && b.name == name && b.region == region
      && b.tagging.Some? && IsOwned(b.tagging.value)
      && b.accessBlock == Some(FullBlock)
      && b.objects == {}
  {
  }

  /** `--public` does not make a fresh bucket public: S3 blocks public access on every new
      bucket and the handler never lifts that block. A public and a private create of the
      same fresh name leave the same buckets; the private one only adds the block call,
      whose failure makes it report an error. */
  lemma PublicFlagOnlySkipsBlockCall(faults: set<Api>, taken: set<string>, bs0: seq<Bucket>, name: string,
                                     region: string, rPub: Outcome, bsPub: seq<Bucket>, logPub: seq<Call>,
                                     rPriv: Outcome, bsPriv: seq<Bucket>, logPriv: seq<Call>, log0: seq<Call>)
    requires ProvisionEffect(faults, taken, bs0, name, region, true, rPub, bsPub, log0, logPub)
    requires ProvisionEffect(faults, taken, bs0, name, region, false, rPriv, bsPriv, log0, logPriv)
    requires name !in BucketNames(bs0) && rPub.Ok?
    ensures bsPub == bsPriv == bs0 + [CreatedBucket(name, region)]
    ensures logPriv == logPub + [PutPublicAccessBlock(name, FullBlock)]
    ensures rPriv.Ok? <==> PutPublicAccessBlockApi !in faults
  {
    var bsC := bs0 + [NewBucket(name, region)];
    FindAppendedBucket(bs0, NewBucket(name, region));
    assert Blocked(Stamped(bsC, |bs0|), |bs0|) == Stamped(bsC, |bs0|);
  }

  // ---------------------------------------------------------------- upload

  /** What `upload_file_to_bucket` does to the buckets and the call log: existence, then
      the tag read, then ownership of both tags, then the upload under the file's base name. */
  ghost predicate UploadEffect(faults: set<Api>, bs0: seq<Bucket>, args: Args,
                               r: Outcome, bs1: seq<Bucket>, log0: seq<Call>, log1: seq<Call>) {
    if !Given(args.name) || !Given(args.file) then
      r == Validation(MissingArgument) && log1 == log0 && bs1 == bs0
    else
      var name := args.name.value;
      if HeadBucketApi in faults || name !in BucketNames(bs0) then
        r == NotFound && log1 == log0 + [HeadBucket(name)] && bs1 == bs0
      else
        StoreEffect(faults, bs0, name, AfterLast(args.file.value, '/'), r, bs1, log0 + [HeadBucket(name)], log1)
  }

  /** The steps after the existence check: the tag read, ownership of both tags, then the
      upload of `key`. */
  ghost predicate StoreEffect(faults: set<Api>, bs0: seq<Bucket>, name: string, key: string,
                              r: Outcome, bs1: seq<Bucket>, log0: seq<Call>, log1: seq<Call>) {
    var checked := log0 + [GetBucketTagging(name)];
    match FindBucket(bs0, name)
    case None => r == Denied(TagsUnavailable) && log1 == checked && bs1 == bs0
    case Some(i) =>
      var b := bs0[i];
      if GetBucketTaggingApi in faults || b.tagging.None? then
        r == Denied(TagsUnavailable) && log1 == checked && bs1 == bs0
      else if !IsOwned(b.tagging.value) then
        r == Denied(NotOwned) && log1 == checked && bs1 == bs0
      else
        && log1 == checked + [Call.UploadFile(name, key)]
        && if UploadFileApi in faults then r == ProviderError && bs1 == bs0
           else r == Ok(Uploaded(name, key)) && bs1 == bs0[i := b.(objects := b.objects + {key})]
  }

  /** `upload_file_to_bucket`. */
  method UploadFile(cloud: Cloud, args: Args) returns (r: Outcome)
    requires cloud.Valid()
    modifies cloud`log, cloud`buckets
    ensures cloud.Valid()
    ensures UploadEffect(cloud.faults, old(cloud.buckets), args, r, cloud.buckets, old(cloud.log), cloud.log)
  {
    if !Given(args.name) || !Given(args.file) {
      return Validation(MissingArgument);
    }
    var name := args.name.value;
    var exists_ := cloud.HeadBucketCall(name);
    if exists_.Failure? {
      return NotFound;
    }
    r := Store(cloud, name, AfterLast(args.file.value, '/'));
  }

  /** The guarded upload: the bucket's tags are read and the file goes in only when both
      ownership tags are present. */
  method Store(cloud: Cloud, name: string, key: string) returns (r: Outcome)
    requires cloud.Valid()
    modifies cloud`log, cloud`buckets
    ensures cloud.Valid()
    ensures StoreEffect(cloud.faults, old(cloud.buckets), name, key, r, cloud.buckets, old(cloud.log), cloud.log)
  {
    var tags := cloud.GetBucketTaggingCall(name);
    if tags.Failure? {
      return Denied(TagsUnavailable);
    }
    if !IsOwned(tags.value) {
      return Denied(NotOwned);
    }
    var uploaded := cloud.UploadFileCall(name, key);
    r := if uploaded.Failure? then ProviderError else Ok(Uploaded(name, key));
  }

  /** Only an owned bucket that exists gains an object, and it gains exactly the file's
      base name; every refusal leaves the buckets alone. */
  lemma UploadOutcomes(faults: set<Api>, bs0: seq<Bucket>, args: Args,
                       r: Outcome, bs1: seq<Bucket>, log0: seq<Call>, log1: seq<Call>)
    requires UploadEffect(faults, bs0, args, r, bs1, log0, log1)
    ensures r.Ok? ==>
      && Given(args.name) && Given(args.file) && args.name.value in BucketNames(bs0)
      && var i := FindBucket(bs0, args.name.value).value;
      && bs0[i].tagging.Some? && IsOwned(bs0[i].tagging.value)
      && bs1 == bs0[i := bs0[i].(objects := bs0[i].objects + {AfterLast(args.file.value, '/')})]
    ensures bs1 != bs0 ==> r.Ok?
    ensures |log0| <= |log1| <= |log0| + 3 && log1[..|log0|] == log0
  {
  }

  // ---------------------------------------------------------------- list

  predicate OwnedBucket(b: Bucket) {
    b.tagging.Some? && IsOwned(b.tagging.value)
  }

  /** The name listed for a bucket, when that bucket is owned. */
  function NameIfOwned(b: Bucket): seq<string> {
    if OwnedBucket(b) then [b.name] else []
  }

  /** The names of the owned buckets, in listing order. */
  function OwnedBucketNames(bs: seq<Bucket>): (r: seq<string>)
    ensures |r| <= |bs|
  {
    if bs == [] then [] else OwnedBucketNames(bs[..|bs| - 1]) + NameIfOwned(bs[|bs| - 1])
  }

  /** A name is listed exactly when some bucket of that name carries the ownership tags. */
  lemma {:induction false} OwnedBucketNamesMembers(bs: seq<Bucket>, n: string)
    ensures n in OwnedBucketNames(bs) <==> exists b :: b in bs && OwnedBucket(b) && b.name == n
  {
    if bs != [] {
      var k := |bs| - 1;
      var init := bs[..k];
      OwnedBucketNamesMembers(init, n);
      assert bs == init + [bs[k]];
      assert n in NameIfOwned(bs[k]) <==> OwnedBucket(bs[k]) && bs[k].name == n;
    }
  }

  function TaggingQueries(names: seq<string>): (r: seq<Call>)
    ensures |r| == |names|
  {
    if names == [] then [] else TaggingQueries(names[..|names| - 1]) + [GetBucketTagging(names[|names| - 1])]
  }

  /** One more bucket scanned: one more tag fetch after `calls`, and its name if owned. */
  lemma BucketListingStep(calls: seq<Call>, bs: seq<Bucket>, i: nat)
    requires i < |bs|
    ensures calls + TaggingQueries(BucketNames(bs)[..i + 1]) ==
            calls + TaggingQueries(BucketNames(bs)[..i]) + [GetBucketTagging(bs[i].name)]
    ensures OwnedBucketNames(bs[..i + 1]) == OwnedBucketNames(bs[..i]) + NameIfOwned(bs[i])
  {
    assert BucketNames(bs)[..i + 1][..i] == BucketNames(bs)[..i];
    assert bs[..i + 1][..i] == bs[..i];
  }

  /** One pass of the listing loop: the tag fetch for the `i`-th listed bucket; the name is
      kept when the tags are there and owned. */
  method ScanBucket(cloud: Cloud, name: string, i: nat) returns (kept: seq<string>)
    requires Distinct(BucketNames(cloud.buckets)) && i < |cloud.buckets| && name == cloud.buckets[i].name
    modifies cloud`log
    ensures cloud.log == old(cloud.log) + [GetBucketTagging(name)]
    ensures kept == if GetBucketTaggingApi in cloud.faults then [] else NameIfOwned(cloud.buckets[i])
  {
    FindBucketOfDistinct(cloud.buckets, i);
    var tags := cloud.GetBucketTaggingCall(name);
    kept := if tags.Success? && IsOwned(tags.value) then [name] else [];
  }

  /** The loop of `list_buckets`: one tag fetch per listed bucket, a failed fetch skipping
      that bucket. */
  method CollectOwnedBuckets(cloud: Cloud, names: seq<string>) returns (owned: seq<string>)
    requires Distinct(BucketNames(cloud.buckets)) && names == BucketNames(cloud.buckets)
    modifies cloud`log
    ensures cloud.log == old(cloud.log) + TaggingQueries(names)
    ensures owned == if GetBucketTaggingApi in cloud.faults then [] else OwnedBucketNames(cloud.buckets)
  {
    owned := [];
    var i := 0;
    while i < |names|
      invariant 0 <= i <= |names|
      invariant cloud.log == old(cloud.log) + TaggingQueries(names[..i])
      invariant owned == if GetBucketTaggingApi in cloud.faults then [] else OwnedBucketNames(cloud.buckets[..i])
    {
      BucketListingStep(old(cloud.log), cloud.buckets, i);
      var kept := ScanBucket(cloud, names[i], i);
      owned := owned + kept;
      i := i + 1;
    }
    assert names[..i] == names && cloud.buckets[..i] == cloud.buckets;
  }

  /** What `list_buckets` reports and logs: one tag fetch per bucket; a bucket whose tags
      cannot be fetched is skipped, and only a failure of the listing itself is reported. */
  ghost predicate ListBucketsEffect(faults: set<Api>, bs: seq<Bucket>, r: Outcome, log0: seq<Call>, log1: seq<Call>) {
    if ListBucketsApi in faults then r == ProviderError && log1 == log0 + [Call.ListBuckets]
    else
      && log1 == log0 + [Call.ListBuckets] + TaggingQueries(BucketNames(bs))
      && r == Ok(BucketListing(if GetBucketTaggingApi in faults then [] else OwnedBucketNames(bs)))
  }

  /** `list_buckets` */
  method ListBuckets(cloud: Cloud) returns (r: Outcome)
    requires cloud.Valid()
    modifies cloud`log
    ensures ListBucketsEffect(cloud.faults, cloud.buckets, r, old(cloud.log), cloud.log)
  {
    var listed := cloud.ListBucketsCall();
    if listed.Failure? {
      return ProviderError;
    }
    var owned := CollectOwnedBuckets(cloud, listed.value);
    r := Ok(BucketListing(owned));
  }
}
