/** `main`: route the parsed resource and action to one handler. */
module Dispatcher {
  import opened Wrappers
  import Provider
  import opened Cli
  import Compute
  import ObjectStore
  import Dns

  /** The handler an invocation reaches, or none. */
  datatype Handler =
    | CreateInstance | StartOrStop | ListInstances | DeleteInstances
    | CreateBucket | UploadFile | ListBuckets
    | CreateZone | ChangeRecord | ListZones | ListRecords
    | NoHandler

  /** The service a handler talks to. */
  function ServiceOf(h: Handler): Option<Resource> {
    match h
    case CreateInstance | StartOrStop | ListInstances | DeleteInstances => Some(Ec2)
    case CreateBucket | UploadFile | ListBuckets => Some(S3)
    case CreateZone | ChangeRecord | ListZones | ListRecords => Some(Route53)
    case NoHandler => None
  }

  /** Handlers that only read: the provider state other than the call log is left alone. */
  predicate ReadOnly(h: Handler) {
    h == ListInstances || h == ListBuckets || h == ListZones || h == ListRecords
  }

  /** The branch `main` takes. `--system` is read with Python truthiness, so an empty value
      sends a Route53 listing to the zones. */
  function Route(resource: Resource, action: Action, systemGiven: bool): (h: Handler)
    ensures h != NoHandler ==> ServiceOf(h) == Some(resource)
    ensures ReadOnly(h) <==> action == List
  {
    match resource
    case Ec2 =>
      if action == Create then CreateInstance
      else if action == Start || action == Stop then StartOrStop
      else if action == List then ListInstances
      else if action == Delete then DeleteInstances
      else NoHandler
    case S3 =>
      if action == Create then CreateBucket
      else if action == Upload then UploadFile
      else if action == List then ListBuckets
      else NoHandler
    case Route53 =>
      if action == Create then CreateZone
      else if action == Update || action == Delete then ChangeRecord
      else if action == List && !systemGiven then ListZones
      else if action == List && systemGiven then ListRecords
      else NoHandler
  }

  function RouteOf(args: Args): Handler {
    Route(args.resource, args.action, Given(args.system))
  }

  /** The pairs with no handler, listed action by action. */
  lemma UnroutedPairs(resource: Resource, action: Action, systemGiven: bool)
    ensures Route(resource, action, systemGiven) == NoHandler <==>
      || (action == Upload && resource != S3)
      || ((action == Start || action == Stop) && resource != Ec2)
      || (action == Update && resource != Route53)
      || (action == Delete && resource == S3)
  {
  }

  /** `--system` changes the route only for a Route53 listing: with it the records of one
      zone, without it the zones. */
  lemma SystemSelectsRecordListing(resource: Resource, action: Action)
    ensures Route(resource, action, true) != Route(resource, action, false) <==> resource == Route53 && action == List
    ensures resource == Route53 && action == List ==>
      Route(resource, action, true) == ListRecords && Route(resource, action, false) == ListZones
  {
  }

  /** No two pairs share a handler, except start and stop on EC2 and update and delete on
      Route53, which `main` sends to one function each. */
  lemma RouteIsInjective(r1: Resource, a1: Action, r2: Resource, a2: Action, s: bool)
    requires Route(r1, a1, s) == Route(r2, a2, s) != NoHandler
    ensures r1 == r2
    ensures a1 == a2 || (r1 == Ec2 && {a1, a2} == {Start, Stop}) || (r1 == Route53 && {a1, a2} == {Update, Delete})
  {
  }

  /** The provider state a handler works on, as one value. */
  datatype World = World(reservations: seq<Provider.Reservation>, buckets: seq<Provider.Bucket>,
                         zones: seq<Provider.Zone>, serial: nat, log: seq<Provider.Call>)

  ghost function Snapshot(cloud: Provider.Cloud): World
    reads cloud
  {
    World(cloud.reservations, cloud.buckets, cloud.zones, cloud.serial, cloud.log)
  }

  /** The parts of the world handler `h` may change: its service's part (and the serial
      for the two creates that mint identifiers) and the log. A listing changes only the
      log; no handler, nothing. */
  ghost predicate Framed(h: Handler, w0: World, w1: World) {
    match h
    case CreateInstance => w1 == w0.(reservations := w1.reservations, serial := w1.serial, log := w1.log)
    case StartOrStop | DeleteInstances => w1 == w0.(reservations := w1.reservations, log := w1.log)
    case CreateBucket | UploadFile => w1 == w0.(buckets := w1.buckets, log := w1.log)
    case CreateZone => w1 == w0.(zones := w1.zones, serial := w1.serial, log := w1.log)
    case ChangeRecord => w1 == w0.(zones := w1.zones, log := w1.log)
    case ListInstances | ListBuckets | ListZones | ListRecords => w1 == w0.(log := w1.log)
    case NoHandler => w1 == w0
  }

  /** What handler `h` does to its part of the world and reports: the effect its own
      module states for it. `configuredRegion` and `reply` matter only to the bucket
      creation. */
  ghost predicate Handled(cloud: Provider.Cloud, h: Handler, args: Args, configuredRegion: Option<string>,
                          reply: string, w0: World, w1: World, r: Outcome) {
    var faults := cloud.faults;
    match h
    case CreateInstance =>
      Compute.CreateEffect(args, cloud.catalog, faults, w0.reservations, w0.serial, r, w1.reservations, w0.log, w1.log)
    case StartOrStop => Compute.StartStopEffect(args, faults, w0.reservations, r, w1.reservations, w0.log, w1.log)
    case ListInstances => Compute.ListEffect(faults, w0.reservations, r, w0.log, w1.log)
    case DeleteInstances => Compute.DeleteEffect(args, faults, w0.reservations, r, w1.reservations, w0.log, w1.log)
    case CreateBucket =>
      ObjectStore.CreateBucketEffect(args, configuredRegion, reply, faults, cloud.takenNames,
                                     w0.buckets, r, w1.buckets, w0.log, w1.log)
    case UploadFile => ObjectStore.UploadEffect(faults, w0.buckets, args, r, w1.buckets, w0.log, w1.log)
    case ListBuckets => ObjectStore.ListBucketsEffect(faults, w0.buckets, r, w0.log, w1.log)
    case CreateZone => Dns.CreateZoneEffect(args, faults, w0.zones, w0.serial, r, w1.zones, w0.log, w1.log)
    case ChangeRecord => Dns.RecordRequestEffect(args, faults, w0.zones, r, w1.zones, w0.log, w1.log)
    case ListZones => Dns.ListZonesEffect(faults, w0.zones, r, w0.log, w1.log)
    case ListRecords => Dns.ListRecordsEffect(args, faults, w0.zones, r, w0.log, w1.log)
    case NoHandler => r == Unrouted
  }

  /** What an invocation routed to `h` does: that handler's effect, and nothing outside
      its part of the world. */
  ghost predicate HandlerEffect(cloud: Provider.Cloud, h: Handler, args: Args, configuredRegion: Option<string>,
                                reply: string, w0: World, w1: World, r: Outcome) {
    Handled(cloud, h, args, configuredRegion, reply, w0, w1, r) && Framed(h, w0, w1)
  }

  /** A handler changes only the part of the world its service owns (and the log), and a
      listing changes nothing but the log. */
  lemma FramedByService(h: Handler, w0: World, w1: World)
    requires Framed(h, w0, w1)
    ensures ReadOnly(h) || h == NoHandler ==> w1 == w0.(log := w1.log)
    ensures ServiceOf(h) != Some(Ec2) ==> w1.reservations == w0.reservations
    ensures ServiceOf(h) != Some(S3) ==> w1.buckets == w0.buckets
    ensures ServiceOf(h) != Some(Route53) ==> w1.zones == w0.zones
  {
  }

  /** The EC2 branches of `main`. */
  method RunCompute(cloud: Provider.Cloud, args: Args, h: Handler) returns (r: Outcome)
    requires cloud.Valid() && ServiceOf(h) == Some(Ec2)
    modifies cloud`log, cloud`reservations, cloud`serial
    ensures cloud.Valid()
    ensures HandlerEffect(cloud, h, args, None, "", old(Snapshot(cloud)), Snapshot(cloud), r)
  {
    if h == ListInstances {
      r := Compute.ListInstances(cloud);
    } else {
      r := ChangeCompute(cloud, args, h);
    }
  }

  /** The EC2 branches of `main` that launch, start, stop or terminate. */
  method ChangeCompute(cloud: Provider.Cloud, args: Args, h: Handler) returns (r: Outcome)
    requires cloud.Valid() && (h == CreateInstance || h == StartOrStop || h == DeleteInstances)
    modifies cloud`log, cloud`reservations, cloud`serial
    ensures cloud.Valid()
    ensures HandlerEffect(cloud, h, args, None, "", old(Snapshot(cloud)), Snapshot(cloud), r)
  {
    if h == CreateInstance {
      r := Compute.CreateInstance(cloud, args);
    } else if h == StartOrStop {
      r := Compute.StartOrStop(cloud, args);
    } else {
      r := Compute.DeleteInstances(cloud, args);
    }
  }

  /** The S3 branches of `main`. */
  method RunStorage(cloud: Provider.Cloud, args: Args, h: Handler, configuredRegion: Option<string>, reply: string)
    returns (r: Outcome)
    requires cloud.Valid() && ServiceOf(h) == Some(S3)
    modifies cloud`log, cloud`buckets
    ensures cloud.Valid()
    ensures HandlerEffect(cloud, h, args, configuredRegion, reply, old(Snapshot(cloud)), Snapshot(cloud), r)
  {
    if h == CreateBucket {
      r := ObjectStore.CreateBucket(cloud, args, configuredRegion, reply);
    } else if h == UploadFile {
      r := ObjectStore.UploadFile(cloud, args);
    } else {
      r := ObjectStore.ListBuckets(cloud);
    }
  }

  /** The Route53 branches of `main` that create or change. */
  method ChangeDns(cloud: Provider.Cloud, args: Args, h: Handler) returns (r: Outcome)
    requires cloud.Valid() && (h == CreateZone || h == ChangeRecord)
    modifies cloud`log, cloud`zones, cloud`serial
    ensures cloud.Valid()
    ensures HandlerEffect(cloud, h, args, None, "", old(Snapshot(cloud)), Snapshot(cloud), r)
  {
    if h == CreateZone {
      r := Dns.CreateZone(cloud, args);
    } else {
      r := Dns.ChangeRecord(cloud, args);
    }
  }

  /** The Route53 listings of `main`, which only read. */
  method ListDns(cloud: Provider.Cloud, args: Args, h: Handler) returns (r: Outcome)
    requires cloud.Valid() && (h == ListZones || h == ListRecords)
    modifies cloud`log
    ensures cloud.Valid()
    ensures HandlerEffect(cloud, h, args, None, "", old(Snapshot(cloud)), Snapshot(cloud), r)
  {
    if h == ListZones {
      r := Dns.ListZones(cloud);
    } else {
      r := Dns.ListRecords(cloud, args);
    }
  }

  /** `main` after the clients exist: `configuredRegion` is the session's region setting and
      `reply` the line typed at the public-bucket prompt, read only when that prompt is shown.
      The invocation does exactly what the handler its route selects does. */
  method Run(cloud: Provider.Cloud, args: Args, configuredRegion: Option<string>, reply: string) returns (r: Outcome)
    requires cloud.Valid()
    modifies cloud`log, cloud`reservations, cloud`serial, cloud`buckets, cloud`zones
    ensures cloud.Valid()
    ensures HandlerEffect(cloud, RouteOf(args), args, configuredRegion, reply, old(Snapshot(cloud)), Snapshot(cloud), r)
  {
    var h := RouteOf(args);
    if h == NoHandler {
      r := Unrouted;
    } else if ServiceOf(h) == Some(Ec2) {
      r := RunCompute(cloud, args, h);
    } else if ServiceOf(h) == Some(S3) {
      r := RunStorage(cloud, args, h, configuredRegion, reply);
    } else if h == CreateZone || h == ChangeRecord {
      r := ChangeDns(cloud, args, h);
    } else {
      r := ListDns(cloud, args, h);
    }
  }
}
