/** The compute lifecycle: image resolution, create under the running cap, start and
    stop, list, and delete by name. */
module Compute {
  import opened Wrappers
  import opened Text
  import opened Ownership
  import opened Images
  import opened Provider
  import opened Cli

  /** The instance types the controller accepts, compared after lower-casing. */
  const AllowedTypes: seq<string> := ["t2.small", "t3.micro"]

  /** The most owned instances that may be running when a new one is created. */
  const RunningCap: nat := 2

  /** The quota query: running, with both ownership tags. */
  const RunningOwned: InstanceFilter := InstanceFilter(Some(Running), None)

  /** The listing query: both ownership tags, any state. */
  const AnyOwned: InstanceFilter := InstanceFilter(None, None)

  function RunningOwnedCount(rs: seq<Reservation>): nat {
    |Keep(Flatten(rs), RunningOwned)|
  }

  // ---------------------------------------------------------------- image resolution

  datatype ImageLookup = Found(imageId: string) | UnsupportedSystem | NoImage | LookupCrashed

  /** What the resolver answers when the image search succeeds: an unknown system is
      refused, an empty search finds nothing, otherwise the newest candidate's id. */
  function ChooseImage(system: string, catalog: map<ImageQuery, seq<ImageCandidate>>): (r: ImageLookup)
    ensures r != LookupCrashed
    ensures r == UnsupportedSystem <==> QueryFor(NormaliseSystem(system)).None?
    ensures r == NoImage <==>
      QueryFor(NormaliseSystem(system)).Some? && CatalogAnswer(catalog, QueryFor(NormaliseSystem(system)).value) == []
    ensures r.Found? ==> var c := CatalogAnswer(catalog, QueryFor(NormaliseSystem(system)).value);
      exists k :: IsLatest(c, k) && r.imageId == c[k].imageId
  {
    match QueryFor(NormaliseSystem(system))
    case None => UnsupportedSystem
    case Some(q) =>
      var c := CatalogAnswer(catalog, q);
      if c == [] then NoImage else Found(c[Latest(c)].imageId)
  }

  /** `get_ami_id`: no image search for an unknown system; the search itself is not
      guarded, so its failure crashes the run. */
  method GetAmiId(cloud: Cloud, system: string) returns (r: ImageLookup)
    modifies cloud`log
    ensures QueryFor(NormaliseSystem(system)).None? ==> r == UnsupportedSystem && cloud.log == old(cloud.log)
    ensures QueryFor(NormaliseSystem(system)).Some? ==>
      && cloud.log == old(cloud.log) + [DescribeImages(QueryFor(NormaliseSystem(system)).value)]
      && r == if DescribeImagesApi in cloud.faults then LookupCrashed else ChooseImage(system, cloud.catalog)
  {
    var normalised := NormaliseSystem(system);
    var query := QueryFor(normalised);
    if query.None? {
      return UnsupportedSystem;
    }
    var images := cloud.DescribeImagesCall(query.value);
    if images.Failure? {
      return LookupCrashed;
    }
    if images.value == [] {
      return NoImage;
    }
    r := Found(images.value[Latest(images.value)].imageId);
  }

  // ---------------------------------------------------------------- create

  lemma FlattenPrefix(rs: seq<Reservation>, i: nat)
    requires i < |rs|
    ensures Flatten(rs[..i + 1]) == Flatten(rs[..i]) + rs[i].instances
  {
    assert rs[..i + 1] == rs[..i] + [rs[i]];
    FlattenAppend(rs[..i], [rs[i]]);
    assert Flatten([rs[i]]) == rs[i].instances;
  }

  /** `sum(len(res["Instances"]) for res in reservations)` */
  method CountInstances(rs: seq<Reservation>) returns (count: nat)
    ensures count == |Flatten(rs)|
  {
    count := 0;
    var i := 0;
    while i < |rs|
      invariant 0 <= i <= |rs|
      invariant count == |Flatten(rs[..i])|
    {
      FlattenPrefix(rs, i);
      count := count + |rs[i].instances|;
      i := i + 1;
    }
    assert rs[..i] == rs;
  }

  /** Everything the create path checks before it counts running instances. */
  predicate Admitted(args: Args, catalog: map<ImageQuery, seq<ImageCandidate>>) {
    && Given(args.system) && Given(args.instanceType)
    && ToLower(args.instanceType.value) in AllowedTypes
    && ChooseImage(args.system.value, catalog).Found?
    && ChooseImage(args.system.value, catalog).imageId != ""
  }

  /** The instance a successful create adds. */
  function NewInstance(id: string, args: Args, catalog: map<ImageQuery, seq<ImageCandidate>>): Instance
    requires Admitted(args, catalog)
  {
    Instance(id, Pending, ToLower(args.instanceType.value), ChooseImage(args.system.value, catalog).imageId,
             InstanceTags(OrElse(args.name, "")))
  }

  /** A new reservation holding one instance that is not yet running leaves the quota
      count as it was, and adds one to the owned instances when the instance is owned. */
  lemma AddingPendingKeepsCount(rs: seq<Reservation>, x: Instance)
    requires x.state == Pending
    ensures RunningOwnedCount(rs + [Reservation([x])]) == RunningOwnedCount(rs)
    ensures |Keep(Flatten(rs + [Reservation([x])]), AnyOwned)|
            == |Keep(Flatten(rs), AnyOwned)| + (if MatchesOwnerFilter(x.tags) then 1 else 0)
  {
    FlattenAppend(rs, [Reservation([x])]);
    assert Flatten([Reservation([x])]) == [x];
    KeepAppend(Flatten(rs), [x], RunningOwned);
    KeepAppend(Flatten(rs), [x], AnyOwned);
  }

  predicate IssuesRun(calls: seq<Call>) {
    exists c :: c in calls && c.RunInstances?
  }

  lemma IssuesRunAppend(a: seq<Call>, b: seq<Call>)
    ensures IssuesRun(a + b) <==> IssuesRun(a) || IssuesRun(b)
  {
    assert forall c :: c in a + b <==> c in a || c in b;
  }

  /** What the quota check and the launch do, from log `log0` and reservations `rs0` on. */
  ghost predicate LaunchEffect(faults: set<Api>, rs0: seq<Reservation>, serial0: nat, instanceType: string,
                               imageId: string, tags: seq<Tag>, r: Outcome, rs1: seq<Reservation>,
                               log0: seq<Call>, log1: seq<Call>) {
    var query := log0 + [DescribeInstances(RunningOwned)];
    var id := MintedInstanceId(serial0);
    if DescribeInstancesApi in faults then r == Crashed && log1 == query && rs1 == rs0
    else if RunningOwnedCount(rs0) >= RunningCap then r == Denied(QuotaReached) && log1 == query && rs1 == rs0
    else
      && log1 == query + [RunInstances(imageId, instanceType, tags)]
      && (RunInstancesApi in faults ==> r == Crashed && rs1 == rs0)
      && (RunInstancesApi !in faults ==>
            && r == Ok(InstanceCreated(id, RunningOwnedCount(rs0) + 1))
            && id !in IdsOf(Flatten(rs0))
            && rs1 == rs0 + [Reservation([Instance(id, Pending, instanceType, imageId, tags)])])
  }

  /** The quota check and the launch: count the running owned instances and launch one
      more only under the cap. Neither call is guarded, so a failure crashes the run. */
  method LaunchUnderCap(cloud: Cloud, instanceType: string, imageId: string, tags: seq<Tag>) returns (r: Outcome)
    requires cloud.Valid()
    modifies cloud`log, cloud`reservations, cloud`serial
    ensures cloud.Valid()
    ensures LaunchEffect(cloud.faults, old(cloud.reservations), old(cloud.serial), instanceType, imageId, tags,
                         r, cloud.reservations, old(cloud.log), cloud.log)
  {
    var running := cloud.DescribeInstancesCall(RunningOwned);
    if running.Failure? {
      return Crashed;
    }
    var count := CountInstances(running.value);
    if count >= RunningCap {
      return Denied(QuotaReached);
    }
    var launched := cloud.RunInstancesCall(imageId, instanceType, tags);
    if launched.Failure? {
      return Crashed;
    }
    r := Ok(InstanceCreated(launched.value, count + 1));
  }

  /** What the checks before the quota query decide: stop with an outcome, or launch
      this type from this image. */
  datatype Plan = Halt(outcome: Outcome) | Launch(instanceType: string, imageId: string)

  /** The decision of the argument checks and the image lookup of `create_ec2_instance`:
      a missing option, a type off the allow-list and an unknown system are refused; a
      failed search crashes; an empty search (or an empty id) finds nothing. */
  function PlanFor(args: Args, catalog: map<ImageQuery, seq<ImageCandidate>>, faults: set<Api>): (plan: Plan)
    ensures plan.Halt? ==> !plan.outcome.Ok?
    ensures plan.Launch? <==> Admitted(args, catalog) && DescribeImagesApi !in faults
    ensures plan.Launch? ==>
      && plan.instanceType == ToLower(args.instanceType.value) && plan.instanceType in AllowedTypes
      && plan.imageId == ChooseImage(args.system.value, catalog).imageId
  {
    if !Given(args.system) || !Given(args.instanceType) then Halt(Validation(MissingArgument))
    else if ToLower(args.instanceType.value) !in AllowedTypes then Halt(Validation(UnsupportedInstanceType))
    else if QueryFor(NormaliseSystem(args.system.value)).None? then Halt(Validation(UnknownSystem))
    else if DescribeImagesApi in faults then Halt(Crashed)
    else match ChooseImage(args.system.value, catalog)
      case Found(id) => if id == "" then Halt(NotFound) else Launch(ToLower(args.instanceType.value), id)
      case _ => Halt(NotFound)
  }

  /** The calls the checks issue: the image search, once the arguments pass. */
  function PlanCalls(args: Args): seq<Call> {
    if !Given(args.system) || !Given(args.instanceType) || ToLower(args.instanceType.value) !in AllowedTypes then []
    else match QueryFor(NormaliseSystem(args.system.value))
      case None => []
      case Some(q) => [DescribeImages(q)]
  }

  /** The argument checks and the image lookup of `create_ec2_instance`. */
  method PlanLaunch(cloud: Cloud, args: Args) returns (plan: Plan)
    modifies cloud`log
    ensures plan == PlanFor(args, cloud.catalog, cloud.faults)
    ensures cloud.log == old(cloud.log) + PlanCalls(args)
  {
    if !Given(args.system) || !Given(args.instanceType) {
      return Halt(Validation(MissingArgument));
    }
    var instanceType := ToLower(args.instanceType.value);
    if instanceType !in AllowedTypes {
      return Halt(Validation(UnsupportedInstanceType));
    }
    var image := GetAmiId(cloud, args.system.value);
    if image.UnsupportedSystem? {
      plan := Halt(Validation(UnknownSystem));
    } else if image.NoImage? {
      plan := Halt(NotFound);
    } else if image.LookupCrashed? {
      plan := Halt(Crashed);
    } else if image.imageId == "" {
      plan := Halt(NotFound);
    } else {
      plan := Launch(instanceType, image.imageId);
    }
  }

  /** What `create_ec2_instance` does: the checks, then (for a launch plan) the quota
      check and the launch with the ownership tags and the given name. */
  ghost predicate CreateEffect(args: Args, catalog: map<ImageQuery, seq<ImageCandidate>>, faults: set<Api>,
                               rs0: seq<Reservation>, serial0: nat, r: Outcome, rs1: seq<Reservation>,
                               log0: seq<Call>, log1: seq<Call>) {
    match PlanFor(args, catalog, faults)
    case Halt(outcome) => r == outcome && rs1 == rs0 && log1 == log0 + PlanCalls(args)
    case Launch(instanceType, imageId) =>
      LaunchEffect(faults, rs0, serial0, instanceType, imageId, InstanceTags(OrElse(args.name, "")),
                   r, rs1, log0 + PlanCalls(args), log1)
  }

  /** `create_ec2_instance` */
  method CreateInstance(cloud: Cloud, args: Args) returns (r: Outcome)
    requires cloud.Valid()
    modifies cloud`log, cloud`reservations, cloud`serial
    ensures cloud.Valid()
    ensures CreateEffect(args, cloud.catalog, cloud.faults, old(cloud.reservations), old(cloud.serial),
                         r, cloud.reservations, old(cloud.log), cloud.log)
  {
    var plan := PlanLaunch(cloud, args);
    if plan.Halt? {
      return plan.outcome;
    }
    r := LaunchUnderCap(cloud, plan.instanceType, plan.imageId, InstanceTags(OrElse(args.name, "")));
  }

  /** The arguments are checked before any provider call. */
  lemma CreateValidatesFirst(args: Args, catalog: map<ImageQuery, seq<ImageCandidate>>, faults: set<Api>,
                             rs0: seq<Reservation>, serial0: nat, r: Outcome, rs1: seq<Reservation>,
                             log0: seq<Call>, log1: seq<Call>)
    requires CreateEffect(args, catalog, faults, rs0, serial0, r, rs1, log0, log1)
    ensures !Given(args.system) || !Given(args.instanceType) ==>
      r == Validation(MissingArgument) && log1 == log0 && rs1 == rs0
    ensures Given(args.system) && Given(args.instanceType) && ToLower(args.instanceType.value) !in AllowedTypes ==>
      r == Validation(UnsupportedInstanceType) && log1 == log0 && rs1 == rs0
    ensures Given(args.system) && Given(args.instanceType) && ToLower(args.instanceType.value) in AllowedTypes
            && QueryFor(NormaliseSystem(args.system.value)).None? ==>
      r == Validation(UnknownSystem) && log1 == log0 && rs1 == rs0
  {
  }

  /** Nothing is launched, and no launch is even requested, unless the request is admitted
      and fewer than the cap of owned instances are running. */
  lemma CreateOnlyUnderCap(args: Args, catalog: map<ImageQuery, seq<ImageCandidate>>, faults: set<Api>,
                           rs0: seq<Reservation>, serial0: nat, r: Outcome, rs1: seq<Reservation>,
                           log0: seq<Call>, log1: seq<Call>)
    requires CreateEffect(args, catalog, faults, rs0, serial0, r, rs1, log0, log1)
    requires !IssuesRun(log0)
    ensures IssuesRun(log1) || rs1 != rs0 || r.Ok? ==> Admitted(args, catalog) && RunningOwnedCount(rs0) < RunningCap
  {
    assert !IssuesRun(PlanCalls(args));
    assert !IssuesRun([DescribeInstances(RunningOwned)]);
    IssuesRunAppend(log0, PlanCalls(args));
    IssuesRunAppend(log0 + PlanCalls(args), [DescribeInstances(RunningOwned)]);
  }

  /** A successful create adds exactly one new, owned and named instance with the lowered
      type and the chosen image, and reports one more than the running count it saw, which
      is at most the cap. The new instance is still pending, so the quota count of the new
      state is the one the check saw. */
  lemma CreateSuccess(args: Args, catalog: map<ImageQuery, seq<ImageCandidate>>, faults: set<Api>,
                      rs0: seq<Reservation>, serial0: nat, r: Outcome, rs1: seq<Reservation>,
                      log0: seq<Call>, log1: seq<Call>)
    requires CreateEffect(args, catalog, faults, rs0, serial0, r, rs1, log0, log1)
    requires r.Ok?
    ensures Admitted(args, catalog)
    ensures r.report.InstanceCreated? && r.report.id !in IdsOf(Flatten(rs0))
    ensures rs1 == rs0 + [Reservation([NewInstance(r.report.id, args, catalog)])]
    ensures r.report.running == RunningOwnedCount(rs0) + 1 <= RunningCap
    ensures RunningOwnedCount(rs1) == RunningOwnedCount(rs0)
  {
    AddingPendingKeepsCount(rs0, NewInstance(r.report.id, args, catalog));
  }

  /** With no failing call an admitted request is launched under the cap and denied at it. */
  lemma CreateDecidesByCount(args: Args, catalog: map<ImageQuery, seq<ImageCandidate>>, faults: set<Api>,
                             rs0: seq<Reservation>, serial0: nat, r: Outcome, rs1: seq<Reservation>,
                             log0: seq<Call>, log1: seq<Call>)
    requires CreateEffect(args, catalog, faults, rs0, serial0, r, rs1, log0, log1)
    requires Admitted(args, catalog) && faults !! {DescribeImagesApi, DescribeInstancesApi, RunInstancesApi}
    ensures RunningOwnedCount(rs0) < RunningCap ==> r.Ok?
    ensures RunningOwnedCount(rs0) >= RunningCap ==> r == Denied(QuotaReached) && rs1 == rs0
  {
  }

  /** The quota counts running instances only, and a new instance starts out pending. So
      a second create issued before the first instance is running sees the same count and
      launches too: under the cap, two creates in a row both add an owned instance while
      the quota count stays where it was. */
  lemma BackToBackCreatesPassCap(args1: Args, args2: Args, catalog: map<ImageQuery, seq<ImageCandidate>>,
                                 faults: set<Api>, rs0: seq<Reservation>, serial0: nat, serial1: nat,
                                 r1: Outcome, r2: Outcome, rs1: seq<Reservation>, rs2: seq<Reservation>,
                                 log0: seq<Call>, log1: seq<Call>, log2: seq<Call>)
    requires CreateEffect(args1, catalog, faults, rs0, serial0, r1, rs1, log0, log1)
    requires CreateEffect(args2, catalog, faults, rs1, serial1, r2, rs2, log1, log2)
    requires Admitted(args1, catalog) && Admitted(args2, catalog)
    requires faults !! {DescribeImagesApi, DescribeInstancesApi, RunInstancesApi}
    requires RunningOwnedCount(rs0) < RunningCap
    ensures r1.Ok? && r2.Ok? && r1.report.id != r2.report.id
    ensures rs2 == rs0 + [Reservation([NewInstance(r1.report.id, args1, catalog)]),
                          Reservation([NewInstance(r2.report.id, args2, catalog)])]
    ensures RunningOwnedCount(rs2) == RunningOwnedCount(rs0)
    ensures |Keep(Flatten(rs2), AnyOwned)| == |Keep(Flatten(rs0), AnyOwned)| + 2
  {
    CreateDecidesByCount(args1, catalog, faults, rs0, serial0, r1, rs1, log0, log1);
    CreateSuccess(args1, catalog, faults, rs0, serial0, r1, rs1, log0, log1);
    CreateDecidesByCount(args2, catalog, faults, rs1, serial1, r2, rs2, log1, log2);
    CreateSuccess(args2, catalog, faults, rs1, serial1, r2, rs2, log1, log2);
    TwoPendingLaunches(rs0, NewInstance(r1.report.id, args1, catalog), NewInstance(r2.report.id, args2, catalog));
  }

  /** Two pending owned launches in a row: distinct ids when the second is fresh, the
      quota count unchanged and two more owned instances. */
  lemma TwoPendingLaunches(rs0: seq<Reservation>, x1: Instance, x2: Instance)
    requires x1.state == Pending && x2.state == Pending
    requires MatchesOwnerFilter(x1.tags) && MatchesOwnerFilter(x2.tags)
    ensures x2.id !in IdsOf(Flatten(rs0 + [Reservation([x1])])) ==> x1.id != x2.id
    ensures rs0 + [Reservation([x1])] + [Reservation([x2])] == rs0 + [Reservation([x1]), Reservation([x2])]
    ensures RunningOwnedCount(rs0 + [Reservation([x1])] + [Reservation([x2])]) == RunningOwnedCount(rs0)
    ensures |Keep(Flatten(rs0 + [Reservation([x1])] + [Reservation([x2])]), AnyOwned)|
            == |Keep(Flatten(rs0), AnyOwned)| + 2
  {
    var rs1 := rs0 + [Reservation([x1])];
    AddingPendingKeepsCount(rs0, x1);
    AddingPendingKeepsCount(rs1, x2);
    FlattenAppend(rs0, [Reservation([x1])]);
    assert Flatten([Reservation([x1])]) == [x1];
    assert IdsOf(Flatten(rs1))[|Flatten(rs1)| - 1] == x1.id;
  }

  // ---------------------------------------------------------------- start and stop

  /** The state an instance must be in for the action to apply to it. */
  function PreState(a: Action): InstanceState {
    if a == Start then Stopped else Running
  }

  /** The state the action moves a matched instance to. */
  function TargetState(a: Action): InstanceState {
    if a == Start then Running else Stopped
  }

  /** The start/stop query: both ownership tags, the prior state, and the name if given. */
  function StartStopFilter(args: Args): (f: InstanceFilter)
    ensures f.state == Some(PreState(args.action)) && PreState(args.action) != TargetState(args.action)
    ensures forall x :: Matches(x, f) ==> x.state != TargetState(args.action)
    ensures f.name.Some? <==> Given(args.name)
    ensures f.name.Some? ==> f.name.value == args.name.value
  {
    InstanceFilter(Some(PreState(args.action)), if Given(args.name) then Some(args.name.value) else None)
  }

  /** `after` is `before` with exactly the instances passing `f` moved to `target`. */
  predicate ChangedExactly(before: seq<Instance>, after: seq<Instance>, f: InstanceFilter, target: InstanceState) {
    && |after| == |before|
    && forall i :: 0 <= i < |before| ==>
         after[i] == if Matches(before[i], f) then before[i].(state := target) else before[i]
  }

  /** With unique instance ids, acting on the ids of the matched instances changes the
      matched instances and no other. */
  lemma ActingOnMatchedIds(xs: seq<Instance>, f: InstanceFilter, target: InstanceState)
    requires Distinct(IdsOf(xs))
    ensures ChangedExactly(xs, Transition(xs, IdsOf(Keep(xs, f)), target), f, target)
  {
    var kept := Keep(xs, f);
    forall i | 0 <= i < |xs|
      ensures xs[i].id in IdsOf(kept) <==> Matches(xs[i], f)
    {
      if Matches(xs[i], f) {
        assert xs[i] in kept;
        var j :| 0 <= j < |kept| && kept[j] == xs[i];
        assert IdsOf(kept)[j] == xs[i].id;
      }
      if xs[i].id in IdsOf(kept) {
        var j :| 0 <= j < |kept| && IdsOf(kept)[j] == xs[i].id;
        assert kept[j] in xs;
        var k :| 0 <= k < |xs| && xs[k] == kept[j];
        assert IdsOf(xs)[k] == IdsOf(xs)[i];
        assert k == i;
      }
    }
  }

  lemma {:induction false} KeepNone(xs: seq<Instance>, f: InstanceFilter)
    requires forall i :: 0 <= i < |xs| ==> !Matches(xs[i], f)
    ensures Keep(xs, f) == []
  {
    if xs != [] {
      KeepNone(xs[1..], f);
    }
  }

  /** Once a start (or stop) has succeeded, the same query finds nothing more to act on:
      repeating the command is a no-op. */
  lemma RepeatFindsNothing(before: seq<Instance>, after: seq<Instance>, f: InstanceFilter, target: InstanceState)
    requires ChangedExactly(before, after, f, target)
    requires f.state.Some? && f.state.value != target
    ensures Keep(after, f) == []
  {
    forall i | 0 <= i < |after|
      ensures !Matches(after[i], f)
    {
      assert Matches(before[i], f) || after[i] == before[i];
    }
    KeepNone(after, f);
  }

  /** The call a start (or stop) issues for these ids, and the API it goes to. */
  function ActionCall(action: Action, ids: seq<string>): Call {
    if action == Start then StartInstances(ids) else StopInstances(ids)
  }

  function ActionApi(action: Action): Api {
    if action == Start then StartInstancesApi else StopInstancesApi
  }

  /** The branch on the first matched instance's state: report it as already there, or
      issue the start (or stop) call for all matched ids, unguarded. */
  method ActOnState(cloud: Cloud, action: Action, ids: seq<string>, state: InstanceState) returns (r: Outcome)
    requires cloud.Valid()
    modifies cloud`log, cloud`reservations
    ensures cloud.Valid()
    ensures state == TargetState(action) ==>
      r == Ok(AlreadyInState) && cloud.log == old(cloud.log) && cloud.reservations == old(cloud.reservations)
    ensures state != TargetState(action) ==>
      && cloud.log == old(cloud.log) + [ActionCall(action, ids)]
      && (ActionApi(action) in cloud.faults ==> r == Crashed && cloud.reservations == old(cloud.reservations))
      && (ActionApi(action) !in cloud.faults ==>
            && r == Ok(InstancesChanged(ids))
            && Flatten(cloud.reservations) == Transition(Flatten(old(cloud.reservations)), ids, TargetState(action)))
  {
    if action == Start {
      if state == Running {
        r := Ok(AlreadyInState);
      } else {
        var started := cloud.StartInstancesCall(ids);
        r := if started.Failure? then Crashed else Ok(InstancesChanged(ids));
      }
    } else {
      if state == Stopped {
        r := Ok(AlreadyInState);
      } else {
        var stopped := cloud.StopInstancesCall(ids);
        r := if stopped.Failure? then Crashed else Ok(InstancesChanged(ids));
      }
    }
  }

  /** What `start_or_stop_ec2` does from reservations `rs0` and log `log0` on: the query,
      then (when it matches anything) the start or stop call for the matched ids. */
  ghost predicate StartStopEffect(args: Args, faults: set<Api>, rs0: seq<Reservation>, r: Outcome,
                                  rs1: seq<Reservation>, log0: seq<Call>, log1: seq<Call>) {
    var filter := StartStopFilter(args);
    var query := log0 + [DescribeInstances(filter)];
    var matched := Keep(Flatten(rs0), filter);
    if DescribeInstancesApi in faults then r == Crashed && log1 == query && rs1 == rs0
    else if matched == [] then r == NotFound && log1 == query && rs1 == rs0
    else
      var ids := IdsOf(matched);
      && log1 == query + [ActionCall(args.action, ids)]
      && (ActionApi(args.action) in faults ==> r == Crashed && rs1 == rs0)
      && (ActionApi(args.action) !in faults ==>
            r == Ok(InstancesChanged(ids)) && Flatten(rs1) == Transition(Flatten(rs0), ids, TargetState(args.action)))
  }

  /** The first selected instance passed the query, so it is in the prior state. */
  lemma FirstSelectedInPriorState(rs: seq<Reservation>, f: InstanceFilter)
    requires Select(rs, f) != [] && f.state.Some?
    ensures Select(rs, f)[0].instances[0].state == f.state.value
  {
    var sel := Select(rs, f);
    assert sel == [sel[0]] + sel[1..];
    FlattenAppend([sel[0]], sel[1..]);
    assert sel[0].instances[0] in Flatten(sel);
  }

  /** `start_or_stop_ec2`. The state test after the query can never see the target
      state, since the query only admits the prior state; the "already running" and
      "already stopped" answers are unreachable. */
  method StartOrStop(cloud: Cloud, args: Args) returns (r: Outcome)
    requires cloud.Valid()
    modifies cloud`log, cloud`reservations
    ensures cloud.Valid()
    ensures StartStopEffect(args, cloud.faults, old(cloud.reservations), r, cloud.reservations, old(cloud.log), cloud.log)
  {
    var filter := StartStopFilter(args);
    var found := cloud.DescribeInstancesCall(filter);
    if found.Failure? {
      return Crashed;
    }
    var ids := IdsOf(Flatten(found.value));
    if ids == [] {
      return NotFound;
    }
    FirstSelectedInPriorState(cloud.reservations, filter);
    r := ActOnState(cloud, args.action, ids, found.value[0].instances[0].state);
  }

  /** A start or stop never reports the instances as already there; when it succeeds,
      exactly the instances the query matched (and at least one) moved to the target
      state. */
  lemma StartOrStopOutcomes(args: Args, faults: set<Api>, rs0: seq<Reservation>, r: Outcome,
                            rs1: seq<Reservation>, log0: seq<Call>, log1: seq<Call>)
    requires StartStopEffect(args, faults, rs0, r, rs1, log0, log1)
    requires Distinct(IdsOf(Flatten(rs0)))
    ensures r != Ok(AlreadyInState)
    ensures r.Ok? ==>
      && Keep(Flatten(rs0), StartStopFilter(args)) != []
      && ChangedExactly(Flatten(rs0), Flatten(rs1), StartStopFilter(args), TargetState(args.action))
  {
    ActingOnMatchedIds(Flatten(rs0), StartStopFilter(args), TargetState(args.action));
  }

  // ---------------------------------------------------------------- list

  /** `rows` lists `xs` in order: id, state, and the value of the first `Owner` tag
      (empty when there is none). */
  predicate ListingOf(rows: seq<InstanceRow>, xs: seq<Instance>) {
    && |rows| == |xs|
    && forall i :: 0 <= i < |xs| ==>
         rows[i].id == xs[i].id && rows[i].state == xs[i].state && IsFirstValue(xs[i].tags, OwnerKey, rows[i].owner)
  }

  /** The tag scan of `list_ec2`: the first `Owner` value, or empty. */
  method OwnerOf(tags: seq<Tag>) returns (owner: string)
    ensures IsFirstValue(tags, OwnerKey, owner)
  {
    owner := "";
    var i := 0;
    while i < |tags|
      invariant 0 <= i <= |tags|
      invariant forall j :: 0 <= j < i ==> tags[j].key != OwnerKey
    {
      if tags[i].key == OwnerKey {
        owner := tags[i].value;
        return;
      }
      i := i + 1;
    }
  }

  lemma ListingAppend(rows1: seq<InstanceRow>, xs1: seq<Instance>, rows2: seq<InstanceRow>, xs2: seq<Instance>)
    requires ListingOf(rows1, xs1) && ListingOf(rows2, xs2)
    ensures ListingOf(rows1 + rows2, xs1 + xs2)
  {
    forall i | 0 <= i < |xs1 + xs2|
      ensures (rows1 + rows2)[i].id == (xs1 + xs2)[i].id
      ensures (rows1 + rows2)[i].state == (xs1 + xs2)[i].state
      ensures IsFirstValue((xs1 + xs2)[i].tags, OwnerKey, (rows1 + rows2)[i].owner)
    {
      if i >= |xs1| {
        assert (rows1 + rows2)[i] == rows2[i - |xs1|] && (xs1 + xs2)[i] == xs2[i - |xs1|];
      }
    }
  }

  /** The inner loop of `list_ec2`: one row per instance of a reservation. */
  method RowsOf(instances: seq<Instance>) returns (rows: seq<InstanceRow>)
    ensures ListingOf(rows, instances)
  {
    rows := [];
    var j := 0;
    while j < |instances|
      invariant 0 <= j <= |instances|
      invariant ListingOf(rows, instances[..j])
    {
      var owner := OwnerOf(instances[j].tags);
      ListingAppend(rows, instances[..j], [InstanceRow(instances[j].id, instances[j].state, owner)], [instances[j]]);
      assert instances[..j + 1] == instances[..j] + [instances[j]];
      rows := rows + [InstanceRow(instances[j].id, instances[j].state, owner)];
      j := j + 1;
    }
    assert instances[..j] == instances;
  }

  /** What `list_ec2` reports and logs: one query for every owned instance, whatever its
      state, and a row per instance found. The query is not guarded. */
  ghost predicate ListEffect(faults: set<Api>, rs: seq<Reservation>, r: Outcome, log0: seq<Call>, log1: seq<Call>) {
    && log1 == log0 + [DescribeInstances(AnyOwned)]
    && (DescribeInstancesApi in faults ==> r == Crashed)
    && (DescribeInstancesApi !in faults ==>
          r.Ok? && r.report.InstanceListing? && ListingOf(r.report.rows, Keep(Flatten(rs), AnyOwned)))
  }

  /** `list_ec2` */
  method ListInstances(cloud: Cloud) returns (r: Outcome)
    modifies cloud`log
    ensures ListEffect(cloud.faults, cloud.reservations, r, old(cloud.log), cloud.log)
  {
    var found := cloud.DescribeInstancesCall(AnyOwned);
    if found.Failure? {
      return Crashed;
    }
    var rs := found.value;
    var rows: seq<InstanceRow> := [];
    var i := 0;
    while i < |rs|
      invariant 0 <= i <= |rs|
      invariant ListingOf(rows, Flatten(rs[..i]))
      invariant cloud.log == old(cloud.log) + [DescribeInstances(AnyOwned)]
    {
      FlattenPrefix(rs, i);
      var more := RowsOf(rs[i].instances);
      ListingAppend(rows, Flatten(rs[..i]), more, rs[i].instances);
      rows := rows + more;
      i := i + 1;
    }
    assert rs[..i] == rs;
    r := Ok(InstanceListing(rows));
  }

  /** Every listed owner is the operator when the instance's tag keys are unique, which
      the provider enforces. */
  lemma ListedOwnerIsOperator(rows: seq<InstanceRow>, xs: seq<Instance>, i: nat)
    requires ListingOf(rows, xs) && i < |xs|
    requires Matches(xs[i], AnyOwned) && UniqueKeys(xs[i].tags)
    ensures rows[i].owner == Operator
  {
    FirstValueOnUniqueKeys(xs[i].tags, OwnerKey, rows[i].owner, Operator);
  }

  // ---------------------------------------------------------------- delete

  /** The delete query: both ownership tags and the given name. */
  function DeleteFilter(name: string): (f: InstanceFilter)
    ensures forall x :: Matches(x, f) <==> MatchesOwnerFilter(x.tags) && NameTagMatches(x.tags, name)
  {
    InstanceFilter(None, Some(name))
  }

  /** What `delete_ec2_instance` does: the name is required; the query for owned
      instances under that name is not guarded, the termination of every match is. */
  ghost predicate DeleteEffect(args: Args, faults: set<Api>, rs0: seq<Reservation>, r: Outcome,
                               rs1: seq<Reservation>, log0: seq<Call>, log1: seq<Call>) {
    if !Given(args.name) then r == Validation(MissingArgument) && log1 == log0 && rs1 == rs0
    else
      var filter := DeleteFilter(args.name.value);
      var query := log0 + [DescribeInstances(filter)];
      var matched := Keep(Flatten(rs0), filter);
      if DescribeInstancesApi in faults then r == Crashed && log1 == query && rs1 == rs0
      else if matched == [] then r == NotFound && log1 == query && rs1 == rs0
      else
        var ids := IdsOf(matched);
        && log1 == query + [TerminateInstances(ids)]
        && (TerminateInstancesApi in faults ==> r == ProviderError && rs1 == rs0)
        && (TerminateInstancesApi !in faults ==>
              r == Ok(InstancesChanged(ids)) && ChangedExactly(Flatten(rs0), Flatten(rs1), filter, Terminated))
  }

  /** `delete_ec2_instance` */
  method DeleteInstances(cloud: Cloud, args: Args) returns (r: Outcome)
    requires cloud.Valid()
    modifies cloud`log, cloud`reservations
    ensures cloud.Valid()
    ensures DeleteEffect(args, cloud.faults, old(cloud.reservations), r, cloud.reservations, old(cloud.log), cloud.log)
  {
    if !Given(args.name) {
      return Validation(MissingArgument);
    }
    var filter := DeleteFilter(args.name.value);
    var found := cloud.DescribeInstancesCall(filter);
    if found.Failure? {
      return Crashed;
    }
    var ids := IdsOf(Flatten(found.value));
    if ids == [] {
      return NotFound;
    }
    ActingOnMatchedIds(Flatten(cloud.reservations), filter, Terminated);
    var terminated := cloud.TerminateInstancesCall(ids);
    r := if terminated.Failure? then ProviderError else Ok(InstancesChanged(ids));
  }

  /** A delete reports success exactly when the name is given, the query runs, something
      matches and the termination goes through; every other outcome changes nothing. */
  lemma DeleteOutcomes(args: Args, faults: set<Api>, rs0: seq<Reservation>, r: Outcome,
                       rs1: seq<Reservation>, log0: seq<Call>, log1: seq<Call>)
    requires DeleteEffect(args, faults, rs0, r, rs1, log0, log1)
    ensures r.Ok? <==>
      && Given(args.name) && DescribeInstancesApi !in faults && TerminateInstancesApi !in faults
      && Keep(Flatten(rs0), DeleteFilter(args.name.value)) != []
    ensures !r.Ok? ==> rs1 == rs0
    ensures r.Ok? ==> forall i :: 0 <= i < |Flatten(rs0)| ==>
      Flatten(rs1)[i] == Flatten(rs0)[i] || Flatten(rs1)[i] == Flatten(rs0)[i].(state := Terminated)
  {
  }

  /** Deleting never touches an instance without both ownership tags or whose `Name`
      tags all fail the name pattern. */
  lemma DeleteSparesOthers(before: seq<Instance>, after: seq<Instance>, name: string, i: nat)
    requires ChangedExactly(before, after, DeleteFilter(name), Terminated) && i < |before|
    requires !MatchesOwnerFilter(before[i].tags) || !NameTagMatches(before[i].tags, name)
    ensures after[i] == before[i]
  {
  }

  /** With a name free of wildcards, deleting spares every instance not tagged with
      exactly that name. */
  lemma DeletePlainNameSparesOthers(before: seq<Instance>, after: seq<Instance>, name: string, i: nat)
    requires ChangedExactly(before, after, DeleteFilter(name), Terminated) && i < |before|
    requires Plain(name)
    requires !MatchesOwnerFilter(before[i].tags) || !HasTag(before[i].tags, NameKey, name)
    ensures after[i] == before[i]
  {
    PlainNameIsExact(before[i].tags, name);
  }

  /** Deleting `*` selects every owned instance that carries a `Name` tag at all. */
  lemma DeleteStarSelectsAllNamed(x: Instance)
    ensures Matches(x, DeleteFilter("*")) <==> MatchesOwnerFilter(x.tags) && NameKey in Keys(x.tags)
  {
    if NameKey in Keys(x.tags) {
      var t :| t in x.tags && t.key == NameKey;
      var i :| 0 <= i < |x.tags| && x.tags[i] == t;
      StarMatchesAll(t.value);
    }
  }

  /** An instance the create handler launched under a plain name is selected by a
      later delete of that name. */
  lemma DeleteFindsCreated(x: Instance, name: string)
    requires x.tags == InstanceTags(name) && Plain(name)
    ensures Matches(x, DeleteFilter(name))
  {
    PlainNameIsExact(x.tags, name);
  }
}
