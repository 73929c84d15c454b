/** The command line as the handlers see it, and what a handler reports back. */
module Cli {
  import opened Wrappers
  import opened Provider

  datatype Resource = Ec2 | S3 | Route53

  /** The positional action, already lower-cased and restricted to the accepted words. */
  datatype Action = Create | Start | Stop | Update | Delete | List | Upload

  function ActionName(a: Action): string {
    match a
    case Create => "create"
    case Start => "start"
    case Stop => "stop"
    case Update => "update"
    case Delete => "delete"
    case List => "list"
    case Upload => "upload"
  }

  /** The parsed arguments; each option is None when it was not given. */
  datatype Args = Args(resource: Resource, action: Action, name: Option<string>, instanceType: Option<string>,
                       public: bool, system: Option<string>, file: Option<string>)

  /** Python truthiness of an optional string: present and not empty. */
  predicate Given(o: Option<string>) {
    o.Some? && o.value != ""
  }

  /** `o if o else fallback` */
  function OrElse(o: Option<string>, fallback: string): (r: string)
    ensures Given(o) ==> r == o.value
    ensures !Given(o) ==> r == fallback
  {
    if Given(o) then o.value else fallback
  }

  datatype Invalid = MissingArgument | UnsupportedInstanceType | UnknownSystem | InvalidAnswer | BadRecordRequest

  datatype Denial = NotOwned | TagsUnavailable | QuotaReached | Declined

  datatype InstanceRow = InstanceRow(id: string, state: InstanceState, owner: string)

  datatype Report =
    | InstanceCreated(id: string, running: nat)
    | InstancesChanged(ids: seq<string>)
    | AlreadyInState
    | InstanceListing(rows: seq<InstanceRow>)
    | BucketCreated(bucket: string)
    | Uploaded(bucket: string, key: string)
    | BucketListing(names: seq<string>)
    | ZoneCreated(zoneId: string)
    | RecordChanged
    | ZoneListing(zones: seq<ZoneSummary>)
    | RecordListing(records: seq<RecordSet>)

  /** What an invocation ends with. `Crashed` is a provider exception (or a `None`
      dereference) that no handler catches; `Unrouted` is a resource and action pair
      with no handler. */
  datatype Outcome =
    | Ok(report: Report)
    | Validation(invalid: Invalid)
    | Denied(denial: Denial)
    | NotFound
    | ProviderError
    | Crashed
    | Unrouted
}
