# platform-cli controller, modelled in Dafny

`appBackup.py` is a small command-line controller for three AWS services. It is invoked
as `resource action [--name] [--type] [--public] [--system] [--file]`. It creates, starts,
stops, lists and deletes EC2 instances. It creates S3 buckets, uploads files into them and
lists them. It creates Route 53 hosted zones, changes one record in a zone, and lists
zones and records. Every resource it creates is stamped with two tags, `CreatedBy =
platform-cli` and `Owner = itai`. Most operations refuse resources that do not carry them.

The model is split into one module per file:

- `wrappers.dfy` (`Wrappers`): `Option`.
- `text.dfy` (`Text`): the string operations the controller applies to its inputs.
  These are ASCII lower- and upper-casing, blank removal, the trailing-dot
  normalisation, `rstrip('.')` and `split("/")[-1]`.
- `ownership.dfy` (`Ownership`): tags and the ownership tests. The controller tests
  ownership in three ways: a tag dictionary with both keys, `any` over `CreatedBy`
  alone, and a dictionary lookup of `CreatedBy` alone. It also covers provider-side tag
  filters.
- `images.dfy` (`Images`): the operating-system table and the choice of the newest
  image.
- `provider.dfy` (`Provider`): the AWS side, as class `Cloud`.
  - Its fields are the reservations, buckets and hosted zones, an identifier counter,
    and the log of every call issued.
  - One method per boto3 call the controller makes.
  - A constant set of failing APIs stands for provider exceptions. The service's own
    answers are modelled directly: a missing bucket, an untagged bucket, an unknown zone,
    a bucket name held by another account, a bucket name that breaks S3's naming rules
    (`Provider.ValidBucketName`), and an explicit `us-east-1` location, which S3 refuses.
  - A new instance starts out `pending`, as `run_instances` reports it.
  - A new bucket starts with all four Block Public Access settings on, as S3 sets them
    for every new bucket (`Provider.NewBucket`).
  - Creating a bucket this account already holds succeeds only in `us-east-1` with no
    location constraint, and leaves the bucket as it was (`Provider.BucketCreation`).
    Everywhere else S3 refuses it.
  - A `tag:Name` filter value is matched as EC2 matches filter values: `*` matches any run
    of characters, `?` matches at most one, and a backslash escapes the next character
    (`Provider.GlobMatch`).
  - A new hosted zone is stored under its lower-cased, dot-terminated name
    (`Provider.HostedZoneName`).
- `cli.dfy` (`Cli`): the parsed arguments and what an invocation ends with (`Outcome`).
  - An exception the controller does not catch is `Crashed`.
  - One it catches and reports is `ProviderError`.
  - A refused request is `Validation(...)`, `Denied(...)` or `NotFound`.
- `compute.dfy` (`Compute`), `object_store.dfy` (`ObjectStore`), `dns.dfy` (`Dns`): the
  handlers. Each one is a method on a `Cloud`. It states its outcome, the exact calls it
  issues and the new provider state for every path, error paths included.
- `dispatcher.dfy` (`Dispatcher`): `main`'s routing from resource and action to a
  handler. Every dispatching method is proved to do exactly what the routed handler's
  effect predicate states, and to leave the other services' state alone
  (`Dispatcher.HandlerEffect`).

Behaviour kept as the code has it:

- `start_or_stop_ec2` queries instances already in the prior state. Because of that,
  the "already running" / "already stopped" branches can never be taken.
  `Compute.StartOrStopOutcomes` proves the handler never reports `AlreadyInState`.
- Starting an instance is not checked against the running cap. Only create is.
- The cap counts `running` instances only, and a new instance starts out `pending`. Two
  creates in a row both launch when the first instance is not yet running, so the cap
  of 2 can be passed (`Compute.BackToBackCreatesPassCap`).
- `manage_route53_record` calls `domain_name.endswith` before its emptiness test.
  - A missing `--name` therefore crashes.
  - Any given name is non-empty once a dot is appended, so an empty `--name` becomes
    the record `.`.
- The record-change guard checks `CreatedBy` alone, searching with `any`. The
  record-listing guard checks `CreatedBy` alone, reading the tag dictionary. The
  listings and the upload check both tags.
- `Ownership.RecordGuardAdmitsForeignOwner` shows the record guards admit a zone with
  another owner.
- `Ownership.AnyAndDictDisagreeOnRepeatedKey` shows the two readings of `CreatedBy`
  disagree on a repeated key.
- Ties between images with the same creation date go to the first one returned, because
  Python's sort is stable.
- `list_buckets` skips a bucket whose tags cannot be fetched. `list_route53_zones` ends
  the whole listing with an error at the first such zone.
- `create_bucket` ignores the region it is passed and reads the session region again.
  Both readings agree, so the model reads it once (`ObjectStore.SessionRegion`).
- `create_bucket` adopts a bucket it did not create. Re-creating a name the account
  already holds in `us-east-1` succeeds, and the handler then stamps the ownership tags
  on it and, unless `--public`, blocks public access. `ObjectStore.HeldBucketAdopted`
  shows it.
- `--public` does not make a bucket public. S3 blocks public access on every new bucket,
  and `create_bucket` only skips its own `put_public_access_block` call; it never lifts
  the default block. A public and a private create of a fresh name leave the same bucket
  (`ObjectStore.PublicFlagOnlySkipsBlockCall`).
- `--name` reaches the EC2 `tag:Name` filters unescaped. A name with `*` or `?` selects
  every instance it matches as a pattern: `delete` with `--name '*'` terminates every owned
  instance that has a `Name` tag (`Compute.DeleteStarSelectsAllNamed`).
- The zone lookup compares names as given, but zones are stored lower-cased. A zone
  created for a name with capitals is not found again under that name
  (`Dns.MixedCaseNameMissesItsZone`).

## Model

| member | source | states |
|---|---|---|
| Text.ToLower | appBackup.py:62 | every character is mapped by the ASCII lower-case map, length kept, and no upper-case letter remains |
| Text.ToUpper | appBackup.py:381 | every character is mapped by the ASCII upper-case map, length kept |
| Text.RemoveSpaces | appBackup.py:31 | no blank is left, every kept character comes from the input, and every other character keeps its count |
| Text.RemoveSpacesAppend | appBackup.py:31 | removing blanks from a concatenation concatenates the results, so the kept characters stay in order |
| Text.RemoveSpacesChar | appBackup.py:31 | a single blank is dropped and any other single character is kept |
| Text.EnsureTrailingDot | appBackup.py:347-348 | the result ends in a dot; it is the input or the input plus one dot; a dot-terminated input is kept |
| Text.RStripDots | appBackup.py:355 | the result is a prefix not ending in a dot, followed in the input only by dots |
| Text.RStripIgnoresTrailingDot | appBackup.py:355 | appending the trailing dot never changes the stripped name |
| Text.AfterLast | appBackup.py:272 | the result is a separator-free suffix, preceded by a separator whenever it is shorter than the input |
| Text.AfterLastOfJoin | appBackup.py:324 | the last segment of `prefix/x` is `x` when `x` holds no separator |
| Text.AfterLastOfPlain | appBackup.py:365 | a separator-free string is its own last segment |
| Cli.OrElse | appBackup.py:340 | a given (non-empty) option wins, otherwise the fallback |
| Provider.ZonePathLastSegment | appBackup.py:405 | the last segment of `/hostedzone/<id>` is the bare id |
| Ownership.TagDict | appBackup.py:261 | every dictionary entry comes from some tag in the set |
| Ownership.TagDictLastWins | appBackup.py:261 | the last tag with a key decides that key's value in the dictionary |
| Ownership.OwnershipTags | appBackup.py:222-225 | the stamped pair passes the dictionary test and the provider filter, with unique keys |
| Ownership.InstanceTags | appBackup.py:91-95 | an instance's tags are owned, filter-matching, uniquely keyed and carry its Name |
| Ownership.IsOwned | appBackup.py:263 | a tag set passing the two-key dictionary test passes the provider filter and the CreatedBy dictionary guard |
| Ownership.CreatedByToolInDict | appBackup.py:444 | a tag set passing the CreatedBy dictionary guard also passes the `any` guard |
| Ownership.CreatedByToolAny | appBackup.py:368 | the guard holds exactly when some tag has key CreatedBy and value platform-cli |
| Ownership.OwnedMatchesFilter | appBackup.py:263 | a set passing the dictionary test also passes the provider filter and both CreatedBy-only guards |
| Ownership.UniqueKeysDictAgrees | appBackup.py:290 | with unique keys, tag membership and dictionary lookup agree, both directions |
| Ownership.OwnedIffFilterOnUniqueKeys | appBackup.py:141 | with unique keys, the dictionary test holds exactly when the provider filter matches |
| Ownership.RecordGuardAdmitsForeignOwner | appBackup.py:368 | a zone tagged with another owner passes both record guards but not the ownership test |
| Ownership.AnyAndDictDisagreeOnRepeatedKey | appBackup.py:368 | with a repeated CreatedBy key, `any` accepts what the dictionary lookup rejects |
| Ownership.AddTags | appBackup.py:326-333 | every added tag is present; every current tag whose key is not being added survives; nothing else appears |
| Ownership.TagDictAppend | appBackup.py:410 | the dictionary of a concatenation is the earlier one overridden by the later one |
| Ownership.AddTagsShape | appBackup.py:326-333 | the result is the untouched current entries in their order, followed by the added ones |
| Ownership.StampingOwns | appBackup.py:326-333 | stamping the ownership pair onto any tag set makes it owned |
| Ownership.FirstValueOnUniqueKeys | appBackup.py:149-152 | with unique keys the first Owner value found is the only one |
| Images.NormaliseSystem | appBackup.py:31 | the result is the lower-cased input with its blanks removed, in order; no blank and no upper-case letter is left |
| Images.QueryFor | appBackup.py:32-43 | a query exists exactly for `amazonlinux` and `ubuntu` |
| Images.BeforeIrreflexive | appBackup.py:54 | no creation date sorts before itself |
| Images.BeforeTransitive | appBackup.py:54 | the string order on creation dates is transitive |
| Images.BeforeAt | appBackup.py:54 | the first differing character decides the order |
| Images.BeforeTotal | appBackup.py:54 | any two distinct dates are ordered one way |
| Images.BeforeAsymmetric | appBackup.py:54 | the order never holds both ways |
| Images.Latest | appBackup.py:54 | the chosen image has the newest date, and every earlier candidate is strictly older |
| Images.LatestIsUnique | appBackup.py:54 | exactly one candidate meets that description |
| Images.StrictlyNewestWins | appBackup.py:54 | a candidate strictly newer than all others is chosen |
| Images.UbuntuExample | appBackup.py:54 | a 2023 candidate is chosen among any number of 2021 and 2022 candidates, at any position and in any order |
| Images.TieGoesToFirst | appBackup.py:54 | of two equally dated candidates the first is chosen |
| Compute.ChooseImage | appBackup.py:41-55 | unknown system exactly when the table has no query; no image exactly when the answer is empty; otherwise the newest candidate |
| Compute.GetAmiId | appBackup.py:30-55 | no call for an unknown system; otherwise one image search, a failure crashes, and the answer is `ChooseImage`'s |
| Compute.CountInstances | appBackup.py:79 | the count is the number of instances over all reservations |
| Compute.AddingPendingKeepsCount | appBackup.py:70-79 | a new pending instance leaves the quota count unchanged and adds one owned instance when it is owned |
| Compute.PlanFor | appBackup.py:58-69 | a halt never reports success; a launch is planned exactly for admitted requests whose image search does not fail, with the lowered allowed type and the newest image |
| Compute.PlanLaunch | appBackup.py:58-69 | the checks and the image lookup decide as `PlanFor` and issue the calls `PlanCalls` lists |
| Compute.LaunchUnderCap | appBackup.py:71-100 | as `LaunchEffect`: a failed count crashes; at the cap it is denied and nothing is launched; under it one pending instance with a fresh id and the given tags is added and the count plus one reported |
| Compute.CreateInstance | appBackup.py:57-100 | as `CreateEffect`: the checks of `PlanFor`, then the quota check and launch of `LaunchEffect` with the owned, named tags |
| Compute.CreateValidatesFirst | appBackup.py:58-69 | a missing option, a type off the allow-list and an unknown system are refused before any call, with nothing changed |
| Compute.CreateOnlyUnderCap | appBackup.py:71-84 | a run call, a new reservation or a success only for admitted requests with fewer than 2 owned instances running |
| Compute.CreateSuccess | appBackup.py:70-100 | a success adds exactly one new, pending, owned instance with the name, lowered type and chosen image, and reports the running count it saw plus one, at most 2; the quota count of the new state is unchanged |
| Compute.CreateDecidesByCount | appBackup.py:79-86 | with no failing call an admitted request is launched under the cap and denied at it |
| Compute.BackToBackCreatesPassCap | appBackup.py:70-100 | under the cap, two admitted creates in a row both launch, with distinct ids; the quota count stays where it was while the owned instances grow by two |
| Compute.TwoPendingLaunches | appBackup.py:70-100 | two pending owned launches keep the quota count and add two owned instances |
| Compute.ActingOnMatchedIds | appBackup.py:113-135 | acting on the ids of the matched instances changes exactly those instances |
| Compute.RepeatFindsNothing | appBackup.py:119-135 | after a start or stop the same query finds nothing more |
| Compute.ActOnState | appBackup.py:123-136 | a first instance already in the target state is reported with no call; otherwise the start or stop call is issued and applied |
| Compute.FirstSelectedInPriorState | appBackup.py:113-123 | the first instance the query returns is in the prior state the query asked for |
| Compute.StartStopFilter | appBackup.py:102-110 | the query asks for the prior state, which differs from the target state, so no instance already in the target state is selected; the name is filtered exactly when given |
| Compute.StartOrStop | appBackup.py:102-136 | as `StartStopEffect`: query failure crashes; no match is not found; otherwise the start or stop call for the matched ids, applied unless it fails |
| Compute.StartOrStopOutcomes | appBackup.py:119-136 | the handler never reports already-in-state; a success moves exactly the matched instances, at least one, to the target state |
| Compute.OwnerOf | appBackup.py:148-152 | the owner is the first Owner tag's value, or empty when there is none |
| Compute.ListingAppend | appBackup.py:144-154 | listings of two instance runs concatenate |
| Compute.RowsOf | appBackup.py:145-154 | one row per instance in order, with id, state and owner |
| Compute.ListInstances | appBackup.py:138-154 | as `ListEffect`: one query for owned instances in any state; a failure crashes; otherwise one row per owned instance in provider order |
| Compute.ListedOwnerIsOperator | appBackup.py:148-152 | every listed owner is the operator when tag keys are unique |
| Compute.DeleteFilter | appBackup.py:162-166 | an instance is selected exactly when it carries both ownership tags and a Name tag matching the name as a filter pattern, whatever its state |
| Compute.DeleteInstances | appBackup.py:157-183 | as `DeleteEffect`: missing name is refused with no call; query failure crashes; no match is not found; otherwise exactly the selected instances are terminated, or a caught error changes nothing |
| Compute.DeleteOutcomes | appBackup.py:157-183 | success exactly when the name is given, both calls go through and something matches; any other outcome changes nothing; a success only terminates instances |
| Compute.DeleteSparesOthers | appBackup.py:162-180 | an instance without both ownership tags, or whose Name tags all fail the pattern, is never touched |
| Compute.DeletePlainNameSparesOthers | appBackup.py:162-180 | with a wildcard-free name, an instance not tagged with exactly that name is never touched |
| Compute.DeleteStarSelectsAllNamed | appBackup.py:165 | the name `*` selects every owned instance that has a Name tag |
| Compute.DeleteFindsCreated | appBackup.py:91-95 | an instance created under a wildcard-free name is selected by a later delete of that name |
| Provider.PlainMatchesItself | appBackup.py:165 | a filter value without wildcards or escapes matches exactly itself |
| Provider.StarMatchesAll | appBackup.py:165 | the filter value `*` matches every string |
| Provider.PlainNameIsExact | appBackup.py:110 | for a wildcard-free name the Name filter is the exact tag test |
| Provider.Flatten | appBackup.py:113-117 | an instance is in the flattened answer exactly when some reservation holds it |
| Provider.IdsOf | appBackup.py:113-117 | one id per instance, in answer order |
| ObjectStore.SessionRegion | appBackup.py:207-208 | the configured region when one is given, otherwise us-east-1; never empty |
| ObjectStore.ReadAnswer | appBackup.py:199-202 | the answer is yes or no exactly when the lower-cased reply is that word |
| ObjectStore.AnswerIgnoresCase | appBackup.py:199-202 | `YES`, `Yes` and `No` are read as the words; `y` is neither |
| Provider.BucketCreation | appBackup.py:210-216 | a fresh name is added, empty, untagged and fully blocked, exactly when it follows the naming rules, no other account holds it and us-east-1 is not named; a held name succeeds only with no location in us-east-1 and changes nothing |
| Provider.BucketNameExamples | appBackup.py:210-216 | `My_Bucket`, `ab`, `-logs` and `a..b` break the naming rules; `logs-2024.backup` follows them |
| ObjectStore.LocationFor | appBackup.py:210-216 | no location constraint for us-east-1, and the bucket always lands in the requested region |
| ObjectStore.Provision | appBackup.py:206-242 | as `ProvisionEffect`: create, tag the bucket now under the name, then block public access for private buckets; the first failure ends it with an error and earlier effects remain |
| ObjectStore.Secure | appBackup.py:219-238 | on the bucket under the name: tagging, then the block for a private bucket; each failure reports an error and keeps the earlier steps |
| ObjectStore.ProvisionOutcomes | appBackup.py:206-242 | the create call comes first; success exactly when the create is accepted and no call fails; a fresh name ends as the owned bucket, fully blocked whether public or not; a failure after the create leaves it blocked, and tagged exactly when tagging went through; a held name is re-tagged in place and no other bucket changes |
| ObjectStore.ProvisionOfHeldName | appBackup.py:206-242 | a success on a held name happens only in us-east-1; that bucket is tagged (and blocked unless public) in place and every other bucket is unchanged |
| ObjectStore.HeldBucketAdopted | appBackup.py:206-242 | re-creating a bucket already held in us-east-1 reports success and leaves it owned, with its objects |
| ObjectStore.InvalidNameRefused | appBackup.py:206-242 | a fresh name that breaks the naming rules ends in the caught error after the create call alone, and no bucket changes |
| ObjectStore.CreateBucket | appBackup.py:188-242 | as `CreateBucketEffect`: missing name, declined and invalid answers issue no call and change nothing; otherwise `ProvisionEffect` in the session region |
| ObjectStore.CallsOnlyWhenProceeding | appBackup.py:188-216 | a provider call is made exactly when the name is given and, for a public bucket, the answer is yes; otherwise nothing changes and the outcome is no success |
| ObjectStore.CreatedBucketShape | appBackup.py:206-238 | a created bucket is owned, empty, in its region, and fully blocked |
| ObjectStore.PublicFlagOnlySkipsBlockCall | appBackup.py:206-238 | a public and a private create of the same fresh name leave the same buckets, the new one fully blocked; the private create only adds the block call, and succeeds exactly when that call does |
| ObjectStore.UploadFile | appBackup.py:245-276 | missing name or file: no call; a failed existence check: not found; otherwise the guarded upload, each step logged in order |
| ObjectStore.Store | appBackup.py:258-276 | tags unreadable or absent: refused; not both ownership tags: refused; otherwise the upload of the base name, which a fault leaves undone |
| ObjectStore.UploadOutcomes | appBackup.py:245-276 | only an existing bucket that carries both ownership tags gains an object, and exactly the file's base name; every refusal leaves the buckets alone; at most three calls are appended |
| ObjectStore.OwnedBucketNames | appBackup.py:286-292 | never more names than buckets |
| ObjectStore.OwnedBucketNamesMembers | appBackup.py:286-292 | a name is listed exactly when a bucket of that name carries both ownership tags |
| ObjectStore.TaggingQueries | appBackup.py:287-288 | one tag fetch per bucket |
| ObjectStore.BucketListingStep | appBackup.py:286-292 | one more bucket adds one tag fetch and its name when owned |
| ObjectStore.ScanBucket | appBackup.py:287-292 | one tag fetch; the name is kept exactly when the tags are readable and owned |
| ObjectStore.CollectOwnedBuckets | appBackup.py:286-292 | one tag fetch per bucket in order; the owned names in order, none when every fetch fails |
| ObjectStore.ListBuckets | appBackup.py:279-304 | as `ListBucketsEffect`: one tag fetch per bucket in order; unreadable tags are skipped; only a listing failure is an error |
| Dns.CreateZone | appBackup.py:307-336 | as `CreateZoneEffect`: missing name: no call; otherwise one fresh zone under its lower-cased dot-terminated name, tagged by its bare id, or left untagged when tagging fails |
| Dns.CreatedZoneIsOwned | appBackup.py:314-333 | a reported success leaves an owned zone last, under the stored name, and reports its id |
| Provider.HostedZoneName | appBackup.py:315-316 | a stored zone name ends in a dot and holds no upper-case letter |
| Dns.StampZone | appBackup.py:324-333 | the bare id cut from the returned path names the new zone; it gains exactly the ownership pair, or nothing changes on failure |
| Dns.RetagNewestZone | appBackup.py:324-333 | the last path segment of the new zone's path is its bare id, and tagging by that id leaves exactly that zone with the ownership pair |
| Dns.BareZoneId | appBackup.py:405 | the last path segment is the zone's bare id |
| Dns.FirstMatchingZone | appBackup.py:355 | the index of the first zone whose name matches ignoring trailing dots, or none |
| Dns.MatchIgnoresTrailingDot | appBackup.py:347-355 | adding the trailing dot to the domain never changes the selected zone |
| Dns.MatchDependsOnStripped | appBackup.py:355 | two domains with the same stripped form select the same zone |
| Dns.SameZoneNameUpToDot | appBackup.py:355 | names equal once dot-terminated match, and a trailing dot on either side never changes the answer |
| Dns.MixedCaseNameMissesItsZone | appBackup.py:355 | a zone created for `Example.com` does not match `Example.com` |
| Dns.LookupZone | appBackup.py:354-366 | either call failing crashes; not found exactly when no zone name matches; otherwise the first match and its tags |
| Dns.LocateZone | appBackup.py:354-366 | the lookup's result and calls are `LookupZone`'s and `LookupCalls`' |
| Dns.RecordAction | appBackup.py:344-345 | update becomes upsert, any other action keeps its name |
| Dns.BadRecordArgs | appBackup.py:350 | for a non-empty domain the request is accepted exactly for delete, or for create and upsert with a value |
| Dns.UpperActionNames | appBackup.py:381 | the three record actions upper-case to CREATE, UPSERT and DELETE |
| Dns.RecordChange | appBackup.py:339-390 | the dot-terminated name; CREATE, UPSERT for update, or DELETE; TTL 300; the single value as given; the given type or A |
| Dns.SendChange | appBackup.py:374-395 | the change applies to the located zone only, or an error leaves every zone unchanged |
| Dns.ChangeInZone | appBackup.py:354-395 | lookup, CreatedBy guard and change, as `ChangeEffect` states |
| Dns.ChangeRecord | appBackup.py:338-395 | as `RecordRequestEffect`: missing name crashes with no call; bad arguments are refused with no call; otherwise `ChangeEffect` of the built change |
| Dns.ChangeOnlyInOwnedZone | appBackup.py:361-392 | a change alters only the first matching zone, only when it carries CreatedBy, and leaves the requested record there |
| Dns.OwnedZones | appBackup.py:404-412 | never more zones listed than exist |
| Dns.OwnedZonesMembers | appBackup.py:410-412 | a summary is listed exactly when some zone with both ownership tags is reported as it |
| Dns.ZoneTagQueries | appBackup.py:406-409 | one tag query per zone |
| Dns.ListingStep | appBackup.py:404-412 | one more zone adds one tag query after the earlier calls, and its summary when owned |
| Dns.FetchZoneTags | appBackup.py:405-409 | one tag query by the zone's bare id; the zone's tags, or a failure when the call fails |
| Dns.ScanZone | appBackup.py:405-412 | one tag fetch by bare id; the summary is kept exactly when the zone is owned |
| Dns.CollectOwnedZones | appBackup.py:403-412 | fetches tags for every zone in order, or stops at the first failure |
| Dns.ListZones | appBackup.py:398-422 | as `ListZonesEffect`: listing failure or the first tag failure is an error; otherwise the owned zones in order, after one tag query per zone |
| Dns.ListRecords | appBackup.py:424-460 | as `ListRecordsEffect`: missing name is refused; lookup as `LookupZone`; the CreatedBy dictionary guard; then the zone's records or a caught error |
| Dispatcher.Route | appBackup.py:484-510 | every routed handler belongs to the named resource, and the read-only handlers are exactly the list actions |
| Dispatcher.UnroutedPairs | appBackup.py:484-510 | the pairs with no handler, listed action by action |
| Dispatcher.SystemSelectsRecordListing | appBackup.py:507-510 | `--system` changes only the Route 53 listing: records with it, zones without |
| Dispatcher.RouteIsInjective | appBackup.py:484-510 | no two pairs share a handler except start/stop and update/delete |
| Dispatcher.FramedByService | appBackup.py:484-510 | a handler changes only its own service's state and the log, and a listing only the log |
| Dispatcher.RunCompute | appBackup.py:484-492 | `HandlerEffect` of the EC2 handler chosen: its effect predicate, with buckets and zones unchanged |
| Dispatcher.ChangeCompute | appBackup.py:485-492 | `HandlerEffect` of launch, start/stop or terminate, whichever was chosen |
| Dispatcher.RunStorage | appBackup.py:494-500 | `HandlerEffect` of the S3 handler chosen: its effect predicate, with instances, zones and the id counter unchanged |
| Dispatcher.ChangeDns | appBackup.py:503-506 | `HandlerEffect` of zone creation or the record change, whichever was chosen |
| Dispatcher.ListDns | appBackup.py:507-510 | `HandlerEffect` of the zone or record listing chosen: its effect predicate, and only the log changes |
| Dispatcher.Run | appBackup.py:464-510 | `HandlerEffect` of the handler `Route` selects: exactly that handler's effect, nothing outside its service; an unrouted pair changes nothing |

## Left out

- Argument parsing (`parse_args`, appBackup.py:4-13) is taken as done. `Cli.Args` holds
  the parsed, lower-cased resource and action.
- Client construction (`get_ec2_clients`, `get_route53_client`) is left out. The session
  region of `get_s3_clients` is a parameter of `ObjectStore.CreateBucket` and
  `Dispatcher.Run`.
- Printed messages are left out. Each path's message is represented by its `Outcome`.
- The reply to the confirmation prompt (`input()`) is a parameter.
- Reading the local file during upload is folded into the upload call's failure.
- The `CallerReference` hash of a new zone is left out. The model's provider accepts
  every create.
- Bucket ACLs, which S3 resets when a bucket is re-created in `us-east-1`, are not
  modelled.
- Pagination of every listing call is left out. Each call returns everything.
- The image search's name glob is abstracted into a catalog from query to candidates.
- A launched instance stays `pending`. The provider later moves it to `running` on its
  own, outside any call the controller makes, and the model has no step for that.
- The other transitional instance states are collapsed:
  - start reaches `running`;
  - stop reaches `stopped`;
  - terminate reaches `terminated`.
- Provider.BucketCreation: of S3's bucket naming rules, only length, characters, the
  ends and adjacent dots are checked. The rules against names formatted as IP addresses
  and against reserved prefixes and suffixes (`xn--`, `sthree-`, `-s3alias`, `--ol-s3`)
  are not modelled. They only add further refusals of the same kind.
- Case mapping covers ASCII letters only. Python's Unicode case mapping is not modelled.
- The SOA and NS records a new zone receives are not modelled. Zones start empty.
- Exception types are not distinguished. Every provider failure in `list_buckets` and
  `upload_file_to_bucket` is treated as the `ClientError` those handlers catch.
- Concurrency with other clients of the same account is not modelled.
- Provider.Cloud methods are the model's stand-in for boto3 and the AWS services. They
  are specified, not derived from the controller's code.
