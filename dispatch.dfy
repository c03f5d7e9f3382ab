/**
 * The job dispatch coordinator's specification. Every outside call the
 * fstests runner makes (the record store, the notification channel, the
 * scratch directory, the execution backend) is a `Call` in a trace, and
 * its outcome comes from a `World` of oracle functions. The functions
 * below give, for each operation of the runner, the calls it makes in
 * order and what it returns or raises; the lemmas state the ordering and
 * result guarantees of the coordinator over those traces.
 */
module Dispatch {
  import opened Wrappers
  import opened Values

  /** One outside call, with the arguments the runner passes. */
  datatype Call =
    | SubmitNode(node: Dict)                       // db.submit({'node': node}, True)
    | GetNode(id: string)                          // db.get_node(node_id)
    | Subscribe(filter: Dict)                      // db.subscribe_node_channel(filters=...)
    | Receive(sub: string)                         // db.receive_node(sub_id)
    | Unsubscribe(sub: string)                     // db.unsubscribe(sub_id)
    | MakeTempDir(prefix: string, parent: string)  // tempfile.mkdtemp(prefix=..., dir=...)
    | Generate(params: Dict, device: string)       // runtime.generate(params, device, plan)
    | SaveFile(job: string, dir: string, params: Dict)  // runtime.save_file(job, tmp, params)
    | SubmitJob(file: string)                      // runtime.submit(output_file)
    | Wait(handle: string)                         // job.wait()

  /** What one `receive_node` call gives: a checkout, or the interrupt or error that ends the loop. */
  datatype Event = Delivered(node: Dict) | Interrupted | ReceiveFailed

  /**
   * The outcomes of the outside calls. `None` (or `false`) stands for a
   * call that raises. The i-th `receive_node` of the subscription gives
   * `events[i]`; once the events are used up the operator interrupts.
   * `clock(i)` is the timestamp prefix taken for the i-th job.
   */
  datatype World = World(
    submitNode: Dict -> Option<Dict>,
    getNode: string -> Option<Dict>,
    subscribe: Dict -> Option<string>,
    events: seq<Event>,
    unsubscribe: string -> bool,
    mkdtemp: (string, string) -> Option<string>,
    generate: (Dict, string) -> Option<string>,
    saveFile: (string, string, Dict) -> Option<string>,
    submitJob: string -> Option<string>,
    clock: nat -> string)

  datatype Plan = Plan(name: string, params: Dict)
  datatype Device = Device(name: string, params: Dict)

  /** The runner's configuration: command-line options and the loaded configs. */
  datatype Config = Config(
    dbConfigYaml: string,
    gce: Value,
    gceProject: Value,
    gceZone: Value,
    gsBucket: Value,
    kernel: Value,
    maxShards: Value,
    njobs: Value,
    nodeId: Option<string>,
    plan: Plan,
    skipBuild: Value,
    sshHost: Value,
    sshKey: Value,
    sshPort: Value,
    sshUser: Value,
    srcDir: Value,
    output: string,
    testcase: Value,
    testcfg: Value,
    testgroup: Value,
    xfstestsBldPath: Value,
    labType: string,
    devices: map<string, Device>)

  datatype RunError =
    | KeyMissing(key: string)   // KeyError on a record or on the device configs
    | PathNotAList              // TypeError from `path + [name]`
    | StoreFailure              // the store call raised
    | JobResultUnbound          // UnboundLocalError: the backend step raised, `job_result` was never set
    | SubscribeFailed
    | UnsubscribeFailed

  /** The calls an operation makes, and what it returns or raises. */
  datatype Outcome<T> = Outcome(calls: seq<Call>, result: Result<T, RunError>)

  const ShellDevice: string := "shell"

  /** The subscription filter of subscription mode. */
  const CheckoutFilter: Dict := map["name" := Str("checkout"), "state" := Str("available")]

  // ---------------------------------------------------------------------
  // One job
  // ---------------------------------------------------------------------

  /** The child record `_create_node` builds from a checkout, or the error building it raises. */
  function ChildRecord(checkout: Dict, plan: Plan): Result<Dict, RunError>
  {
    if "_id" !in checkout then Err(KeyMissing("_id"))
    else if "artifacts" !in checkout then Err(KeyMissing("artifacts"))
    else if "revision" !in checkout then Err(KeyMissing("revision"))
    else if "path" !in checkout then Err(KeyMissing("path"))
    else if !checkout["path"].List? then Err(PathNotAList)
    else Ok(map[
      "parent" := checkout["_id"],
      "name" := Str(plan.name),
      "artifacts" := checkout["artifacts"],
      "revision" := checkout["revision"],
      "path" := List(checkout["path"].items + [Str(plan.name)])])
  }

  /** `_create_node`: build the child record, then submit it; the store's copy is returned. */
  function CreateNode(world: World, checkout: Dict, plan: Plan): Outcome<Dict>
  {
    match ChildRecord(checkout, plan)
    case Err(e) => Outcome([], Err(e))
    case Ok(child) =>
      var stored := world.submitNode(child);
      Outcome([SubmitNode(child)], if stored.Some? then Ok(stored.value) else Err(StoreFailure))
  }

  /** The artifact location the job downloads: `node['artifacts']['tarball']`. */
  predicate HasTarball(node: Dict)
  {
    "artifacts" in node && node["artifacts"].Dict? && "tarball" in node["artifacts"].entries
  }

  /** The base run parameters; `None` when reading the created node raises. */
  function BaseParams(cfg: Config, node: Dict, revision: Value, tmp: string): Option<Dict>
  {
    if "_id" !in node || !HasTarball(node) then None
    else Some(map[
      "db_config_yaml" := Str(cfg.dbConfigYaml),
      "gce" := cfg.gce,
      "gce_project" := cfg.gceProject,
      "gce_zone" := cfg.gceZone,
      "gs_bucket" := cfg.gsBucket,
      "kernel" := cfg.kernel,
      "max_shards" := cfg.maxShards,
      "name" := Str(cfg.plan.name),
      "njobs" := cfg.njobs,
      "node_id" := node["_id"],
      "revision" := revision,
      "runtime" := Str(cfg.labType),
      "skip_build" := cfg.skipBuild,
      "ssh_host" := cfg.sshHost,
      "ssh_key" := cfg.sshKey,
      "ssh_port" := cfg.sshPort,
      "ssh_user" := cfg.sshUser,
      "src_dir" := cfg.srcDir,
      "tarball_url" := node["artifacts"].entries["tarball"],
      "testcase" := cfg.testcase,
      "testcfg" := cfg.testcfg,
      "testgroup" := cfg.testgroup,
      "output" := Str(tmp),
      "xfstests_bld_path" := cfg.xfstestsBldPath])
  }

  /** The job descriptor: base, then plan parameters, then device parameters. */
  function JobParams(base: Dict, plan: Plan, device: Device): Dict
  {
    base + plan.params + device.params
  }

  /** `generate`, `save_file`, `submit`: the calls made and the job handle, if every step returns. */
  function Backend(world: World, params: Dict, device: Device, tmp: string): Outcome<string>
  {
    var job := world.generate(params, device.name);
    if job.None? then Outcome([Generate(params, device.name)], Err(JobResultUnbound))
    else
      var file := world.saveFile(job.value, tmp, params);
      if file.None? then Outcome([Generate(params, device.name), SaveFile(job.value, tmp, params)], Err(JobResultUnbound))
      else
        var handle := world.submitJob(file.value);
        Outcome([Generate(params, device.name), SaveFile(job.value, tmp, params), SubmitJob(file.value)],
                if handle.Some? then Ok(handle.value) else Err(JobResultUnbound))
  }

  /**
   * `_schedule_job`: create the child record (outside the `try`), read its
   * revision, then build the descriptor and hand it to the backend; any
   * failure inside the `try` leaves `job_result` unbound.
   */
  function ScheduleJob(cfg: Config, world: World, checkout: Dict, device: Device, tmp: string): Outcome<string>
  {
    var created := CreateNode(world, checkout, cfg.plan);
    if created.result.Err? then Outcome(created.calls, Err(created.result.error))
    else
      var node := created.result.value;
      if "revision" !in node then Outcome(created.calls, Err(KeyMissing("revision")))
      else
        match BaseParams(cfg, node, node["revision"], tmp)
        case None => Outcome(created.calls, Err(JobResultUnbound))
        case Some(base) =>
          var backend := Backend(world, JobParams(base, cfg.plan, device), device, tmp);
          Outcome(created.calls + backend.calls, backend.result)
  }

  /**
   * `_run_single_job`: a scratch directory named after the timestamp, the
   * scheduled job, and a wait on it; every failure is swallowed and the
   * result is always `True`, so only the calls are specified.
   */
  function RunSingleJob(cfg: Config, world: World, checkout: Dict, device: Device, stamp: string): seq<Call>
  {
    [MakeTempDir(stamp, cfg.output)]
    + match world.mkdtemp(stamp, cfg.output)
      case None => []
      case Some(tmp) =>
        var scheduled := ScheduleJob(cfg, world, checkout, device, tmp);
        scheduled.calls + (if scheduled.result.Ok? then [Wait(scheduled.result.value)] else [])
  }

  // ---------------------------------------------------------------------
  // The two modes
  // ---------------------------------------------------------------------

  /** The i-th `receive_node` of the subscription. */
  function EventAt(world: World, i: nat): Event
  {
    if i < |world.events| then world.events[i] else Interrupted
  }

  /**
   * The announcement `print` reads `_id` and slices `revision['commit']`;
   * a checkout for which that raises ends the loop.
   */
  predicate Announceable(checkout: Dict)
  {
    && "_id" in checkout
    && "revision" in checkout
    && checkout["revision"].Dict?
    && "commit" in checkout["revision"].entries
    && (checkout["revision"].entries["commit"].Str? || checkout["revision"].entries["commit"].List?)
  }

  /** Whether the loop goes on after the i-th receive: a checkout came and could be announced. */
  predicate Proceeds(cfg: Config, world: World, i: nat)
  {
    && EventAt(world, i).Delivered?
    && Announceable(EventAt(world, i).node)
    && ShellDevice in cfg.devices
  }

  /** One pass of the `while True` loop: the i-th receive, then the job it starts. */
  function Iteration(cfg: Config, world: World, sub: string, i: nat): seq<Call>
  {
    [Receive(sub)]
    + if Proceeds(cfg, world, i)
      then RunSingleJob(cfg, world, EventAt(world, i).node, cfg.devices[ShellDevice], world.clock(i))
      else []
  }

  /** The `while True` loop from the i-th receive on. */
  function Listen(cfg: Config, world: World, sub: string, i: nat): seq<Call>
    decreases |world.events| - i
  {
    Iteration(cfg, world, sub, i)
    + if Proceeds(cfg, world, i) then Listen(cfg, world, sub, i + 1) else []
  }

  /** `_subscribe_and_run`: subscribe, listen until the loop ends, and unsubscribe in `finally`. */
  function SubscribeAndRun(cfg: Config, world: World, filter: Dict): Outcome<()>
  {
    var sub := world.subscribe(filter);
    if sub.None? then Outcome([Subscribe(filter)], Err(SubscribeFailed))
    else
      Outcome([Subscribe(filter)] + Listen(cfg, world, sub.value, 0) + [Unsubscribe(sub.value)],
              if world.unsubscribe(sub.value) then Ok(()) else Err(UnsubscribeFailed))
  }

  /** `_run_node_id`: fetch the checkout once and run a single job on the shell device. */
  function RunNodeId(cfg: Config, world: World, id: string): Outcome<()>
  {
    var node := world.getNode(id);
    if node.None? then Outcome([GetNode(id)], Err(StoreFailure))
    else if ShellDevice !in cfg.devices then Outcome([GetNode(id)], Err(KeyMissing(ShellDevice)))
    else Outcome([GetNode(id)] + RunSingleJob(cfg, world, node.value, cfg.devices[ShellDevice], world.clock(0)), Ok(()))
  }

  /** `if self._node_id:` */
  predicate DirectMode(cfg: Config)
  {
    cfg.nodeId.Some? && cfg.nodeId.value != ""
  }

  /** `run`: direct mode for a configured checkout id, subscription mode otherwise; then `True`. */
  function Run(cfg: Config, world: World): Outcome<bool>
  {
    var ran := if DirectMode(cfg) then RunNodeId(cfg, world, cfg.nodeId.value)
               else SubscribeAndRun(cfg, world, CheckoutFilter);
    Outcome(ran.calls, if ran.result.Ok? then Ok(true) else Err(ran.result.error))
  }

  // ---------------------------------------------------------------------
  // Classes of calls
  // ---------------------------------------------------------------------

  /** A call to the execution backend. */
  predicate BackendCall(c: Call)
  {
    c.Generate? || c.SaveFile? || c.SubmitJob? || c.Wait?
  }

  /** A call on the notification channel or a direct fetch. */
  predicate ChannelCall(c: Call)
  {
    c.GetNode? || c.Subscribe? || c.Receive? || c.Unsubscribe?
  }

  /** Every successful submission in the trace is followed at once by the wait on its handle. */
  predicate SubmitsAwaited(world: World, calls: seq<Call>)
  {
    forall k :: 0 <= k < |calls| && calls[k].SubmitJob? && world.submitJob(calls[k].file).Some? ==>
      k + 1 < |calls| && calls[k + 1] == Wait(world.submitJob(calls[k].file).value)
  }

  /** Every wait in the trace is on the handle the call just before it returned. */
  predicate WaitsFollowSubmits(world: World, calls: seq<Call>)
  {
    forall k :: 0 <= k < |calls| && calls[k].Wait? ==>
      k >= 1 && calls[k - 1].SubmitJob? && world.submitJob(calls[k - 1].file) == Some(calls[k].handle)
  }

  // ---------------------------------------------------------------------
  // Lemmas
  // ---------------------------------------------------------------------

  /**
   * The child record: its parent is the checkout's `_id`, its name the
   * plan's, artifacts and revision are the checkout's, and its path is
   * the checkout's path extended by the plan name; building it fails
   * exactly when one of those keys is missing or the path is not a list.
   */
  lemma ChildRecordFields(checkout: Dict, plan: Plan)
    ensures ChildRecord(checkout, plan).Ok? <==>
              && "_id" in checkout && "artifacts" in checkout && "revision" in checkout
              && "path" in checkout && checkout["path"].List?
    ensures ChildRecord(checkout, plan).Ok? ==>
              var child := ChildRecord(checkout, plan).value;
              && child.Keys == {"parent", "name", "artifacts", "revision", "path"}
              && child["parent"] == checkout["_id"]
              && child["name"] == Str(plan.name)
              && child["artifacts"] == checkout["artifacts"]
              && child["revision"] == checkout["revision"]
              && child["path"] == List(checkout["path"].items + [Str(plan.name)])
  {
  }

  /**
   * Parameter precedence: a device parameter always wins, a plan
   * parameter wins over the base, and a base parameter survives only
   * where neither the plan nor the device names it.
   */
  lemma ParamsPrecedence(base: Dict, plan: Plan, device: Device)
    ensures JobParams(base, plan, device).Keys == base.Keys + plan.params.Keys + device.params.Keys
    ensures forall k :: k in device.params ==> JobParams(base, plan, device)[k] == device.params[k]
    ensures forall k :: k in plan.params && k !in device.params ==> JobParams(base, plan, device)[k] == plan.params[k]
    ensures forall k :: k in base && k !in plan.params && k !in device.params ==> JobParams(base, plan, device)[k] == base[k]
  {
  }

  /**
   * The base parameters bind the created node's id and tarball location,
   * the plan name, the revision and the scratch directory; reading the
   * node fails exactly when it lacks an id or a tarball artifact.
   */
  lemma BaseBindings(cfg: Config, node: Dict, revision: Value, tmp: string)
    ensures BaseParams(cfg, node, revision, tmp).Some? <==> "_id" in node && HasTarball(node)
    ensures BaseParams(cfg, node, revision, tmp).Some? ==>
              var base := BaseParams(cfg, node, revision, tmp).value;
              && base["node_id"] == node["_id"]
              && base["tarball_url"] == node["artifacts"].entries["tarball"]
              && base["name"] == Str(cfg.plan.name)
              && base["revision"] == revision
              && base["output"] == Str(tmp)
  {
  }

  /**
   * No backend call without the anchor: scheduling makes no call at all
   * when the child record cannot be built, its first call submits that
   * record, and a backend call is only ever made once the store accepted it.
   */
  lemma AnchorBeforeBackend(cfg: Config, world: World, checkout: Dict, device: Device, tmp: string)
    ensures var calls := ScheduleJob(cfg, world, checkout, device, tmp).calls;
            && (ChildRecord(checkout, cfg.plan).Err? ==> calls == [])
            && (ChildRecord(checkout, cfg.plan).Ok? ==>
                  && |calls| >= 1
                  && calls[0] == SubmitNode(ChildRecord(checkout, cfg.plan).value)
                  && forall k :: 0 <= k < |calls| && BackendCall(calls[k]) ==>
                       k >= 1 && world.submitNode(ChildRecord(checkout, cfg.plan).value).Some?)
  {
  }

  /**
   * The shape of a scheduling outcome: no wait and no channel call; a
   * handle only after four calls ending with the submission that returned
   * it; a submission only as the last call, returning exactly when a
   * handle is the result.
   */
  predicate ScheduleShaped(world: World, s: Outcome<string>)
  {
    && (forall k :: 0 <= k < |s.calls| ==> !s.calls[k].Wait? && !ChannelCall(s.calls[k]))
    && (s.result.Ok? ==>
          && |s.calls| == 4
          && s.calls[3].SubmitJob?
          && world.submitJob(s.calls[3].file) == Some(s.result.value))
    && (forall k :: 0 <= k < |s.calls| && s.calls[k].SubmitJob? ==>
          k == |s.calls| - 1 && (world.submitJob(s.calls[k].file).Some? <==> s.result.Ok?))
  }

  /** The shape of the backend's outcome: one to three backend calls, only the last a submission. */
  predicate BackendShaped(world: World, b: Outcome<string>)
  {
    && 1 <= |b.calls| <= 3
    && (forall k :: 0 <= k < |b.calls| ==> b.calls[k].Generate? || b.calls[k].SaveFile? || b.calls[k].SubmitJob?)
    && (forall k :: 0 <= k < |b.calls| - 1 ==> !b.calls[k].SubmitJob?)
    && (b.calls[|b.calls| - 1].SubmitJob? ==> (world.submitJob(b.calls[|b.calls| - 1].file).Some? <==> b.result.Ok?))
    && (b.result.Ok? ==>
          && |b.calls| == 3
          && b.calls[2].SubmitJob?
          && world.submitJob(b.calls[2].file) == Some(b.result.value))
  }

  /**
   * Scheduling returns a handle exactly when the store and all three
   * backend steps succeeded; its trace then ends with the submission
   * that returned the handle, and holds no wait.
   */
  lemma ScheduleOutcome(cfg: Config, world: World, checkout: Dict, device: Device, tmp: string)
    ensures ScheduleShaped(world, ScheduleJob(cfg, world, checkout, device, tmp))
  {
    var created := CreateNode(world, checkout, cfg.plan);
    if created.result.Ok? && "revision" in created.result.value {
      var node := created.result.value;
      var base := BaseParams(cfg, node, node["revision"], tmp);
      if base.Some? {
        var b := Backend(world, JobParams(base.value, cfg.plan, device), device, tmp);
        BackendShape(world, JobParams(base.value, cfg.plan, device), device, tmp);
        StoredThenBackend(world, created.calls[0], b);
      }
    }
  }

  /** The backend makes the backend calls in order, generating first and saving second. */
  lemma BackendShape(world: World, params: Dict, device: Device, tmp: string)
    ensures var b := Backend(world, params, device, tmp);
            && BackendShaped(world, b)
            && b.calls[0] == Generate(params, device.name)
            && (|b.calls| >= 2 ==> b.calls[1].SaveFile?)
  {
  }

  /** The stored anchor record followed by the backend's calls. */
  lemma StoredThenBackend(world: World, stored: Call, b: Outcome<string>)
    requires stored.SubmitNode? && BackendShaped(world, b)
    ensures ScheduleShaped(world, Outcome([stored] + b.calls, b.result))
  {
    var calls := [stored] + b.calls;
    forall k | 1 <= k < |calls| ensures calls[k] == b.calls[k - 1] {
    }
  }

  /**
   * A single job waits only on a handle the backend returned, right after
   * the submission that returned it; when the backend fails there is no
   * wait, and the job never touches the channel.
   */
  lemma SingleJobWaits(cfg: Config, world: World, checkout: Dict, device: Device, stamp: string)
    ensures var calls := RunSingleJob(cfg, world, checkout, device, stamp);
            && calls[0] == MakeTempDir(stamp, cfg.output)
            && SubmitsAwaited(world, calls)
            && WaitsFollowSubmits(world, calls)
            && (forall k :: 0 <= k < |calls| ==> !ChannelCall(calls[k]))
            && (forall k :: 0 <= k < |calls| && calls[k].Wait? ==> k == |calls| - 1)
  {
    var calls := RunSingleJob(cfg, world, checkout, device, stamp);
    var tmp := world.mkdtemp(stamp, cfg.output);
    if tmp.Some? {
      var s := ScheduleJob(cfg, world, checkout, device, tmp.value);
      ScheduleOutcome(cfg, world, checkout, device, tmp.value);
      var tail := if s.result.Ok? then [Wait(s.result.value)] else [];
      assert calls == [MakeTempDir(stamp, cfg.output)] + s.calls + tail;
      forall k | 0 <= k < |calls| && calls[k].SubmitJob? && world.submitJob(calls[k].file).Some?
        ensures k + 1 < |calls| && calls[k + 1] == Wait(world.submitJob(calls[k].file).value)
      {
        assert s.calls[k - 1] == calls[k];
      }
      forall k | 0 <= k < |calls| && calls[k].Wait?
        ensures k >= 1 && calls[k - 1].SubmitJob? && world.submitJob(calls[k - 1].file) == Some(calls[k].handle)
      {
        assert k == |calls| - 1;
      }
    }
  }

  /**
   * At most one job's worth of work: no two scratch directories, child
   * records, backend submissions or waits in the trace.
   */
  predicate OneJob(calls: seq<Call>)
  {
    forall i, j :: 0 <= i < j < |calls| ==>
      && !(calls[i].MakeTempDir? && calls[j].MakeTempDir?)
      && !(calls[i].SubmitNode? && calls[j].SubmitNode?)
      && !(calls[i].SubmitJob? && calls[j].SubmitJob?)
      && !(calls[i].Wait? && calls[j].Wait?)
  }

  /** Scheduling submits the child record only as its first call and makes no scratch directory. */
  lemma ScheduleCallKinds(cfg: Config, world: World, checkout: Dict, device: Device, tmp: string)
    ensures var calls := ScheduleJob(cfg, world, checkout, device, tmp).calls;
            forall k :: 0 <= k < |calls| ==> (calls[k].SubmitNode? ==> k == 0) && !calls[k].MakeTempDir?
  {
    var created := CreateNode(world, checkout, cfg.plan);
    if created.result.Ok? && "revision" in created.result.value {
      var node := created.result.value;
      var base := BaseParams(cfg, node, node["revision"], tmp);
      if base.Some? {
        BackendShape(world, JobParams(base.value, cfg.plan, device), device, tmp);
      }
    }
  }

  /** A single job makes one scratch directory, one child record, one submission and one wait at most. */
  lemma SingleJobOnce(cfg: Config, world: World, checkout: Dict, device: Device, stamp: string)
    ensures OneJob(RunSingleJob(cfg, world, checkout, device, stamp))
  {
    var calls := RunSingleJob(cfg, world, checkout, device, stamp);
    var tmp := world.mkdtemp(stamp, cfg.output);
    if tmp.Some? {
      var s := ScheduleJob(cfg, world, checkout, device, tmp.value);
      ScheduleOutcome(cfg, world, checkout, device, tmp.value);
      ScheduleCallKinds(cfg, world, checkout, device, tmp.value);
      var tail := if s.result.Ok? then [Wait(s.result.value)] else [];
      assert calls == [MakeTempDir(stamp, cfg.output)] + s.calls + tail;
      forall k | 1 <= k <= |s.calls| ensures calls[k] == s.calls[k - 1] {
      }
      forall k | |s.calls| < k < |calls| ensures calls[k].Wait? {
      }
    }
  }

  /** Both trace properties carry over to a concatenation of traces that ends no submission open. */
  lemma AwaitedConcat(world: World, xs: seq<Call>, ys: seq<Call>)
    requires SubmitsAwaited(world, xs) && WaitsFollowSubmits(world, xs)
    requires SubmitsAwaited(world, ys) && WaitsFollowSubmits(world, ys)
    requires ys != [] ==> !ys[0].Wait?
    ensures SubmitsAwaited(world, xs + ys) && WaitsFollowSubmits(world, xs + ys)
  {
    var zs := xs + ys;
    forall k | 0 <= k < |zs| && zs[k].SubmitJob? && world.submitJob(zs[k].file).Some?
      ensures k + 1 < |zs| && zs[k + 1] == Wait(world.submitJob(zs[k].file).value)
    {
      if k < |xs| {
        assert xs[k] == zs[k];
      } else {
        assert ys[k - |xs|] == zs[k];
      }
    }
    forall k | 0 <= k < |zs| && zs[k].Wait?
      ensures k >= 1 && zs[k - 1].SubmitJob? && world.submitJob(zs[k - 1].file) == Some(zs[k].handle)
    {
      if k < |xs| {
        assert xs[k] == zs[k];
      } else {
        assert ys[k - |xs|] == zs[k];
        assert k - |xs| >= 1;
      }
    }
  }

  /**
   * In subscription mode one checkout is processed to completion before
   * the next receive: every successful submission is awaited immediately,
   * and every wait belongs to the submission just before it.
   */
  lemma {:induction false} ListenSerialises(cfg: Config, world: World, sub: string, i: nat)
    ensures Listen(cfg, world, sub, i)[0] == Receive(sub)
    ensures SubmitsAwaited(world, Listen(cfg, world, sub, i))
    ensures WaitsFollowSubmits(world, Listen(cfg, world, sub, i))
    decreases |world.events| - i
  {
    var ev := EventAt(world, i);
    if ev.Delivered? && Announceable(ev.node) && ShellDevice in cfg.devices {
      var job := RunSingleJob(cfg, world, ev.node, cfg.devices[ShellDevice], world.clock(i));
      var rest := Listen(cfg, world, sub, i + 1);
      SingleJobWaits(cfg, world, ev.node, cfg.devices[ShellDevice], world.clock(i));
      ListenSerialises(cfg, world, sub, i + 1);
      ReceiveThenJob(world, sub, job, rest);
      assert Listen(cfg, world, sub, i) == [Receive(sub)] + job + rest;
    }
  }

  /** One iteration of the loop: a receive, a job's calls, then the rest of the loop. */
  lemma ReceiveThenJob(world: World, sub: string, job: seq<Call>, rest: seq<Call>)
    requires job != [] && !job[0].Wait? && rest != [] && !rest[0].Wait?
    requires SubmitsAwaited(world, job) && WaitsFollowSubmits(world, job)
    requires SubmitsAwaited(world, rest) && WaitsFollowSubmits(world, rest)
    ensures SubmitsAwaited(world, [Receive(sub)] + job + rest)
    ensures WaitsFollowSubmits(world, [Receive(sub)] + job + rest)
  {
    AwaitedConcat(world, [Receive(sub)], job);
    AwaitedConcat(world, [Receive(sub)] + job, rest);
  }

  /** No subscribing, unsubscribing or direct fetching of a checkout. */
  predicate OffChannel(calls: seq<Call>)
  {
    forall k :: 0 <= k < |calls| ==> !calls[k].Subscribe? && !calls[k].Unsubscribe? && !calls[k].GetNode?
  }

  lemma OffChannelConcat(a: seq<Call>, b: seq<Call>)
    requires OffChannel(a) && OffChannel(b)
    ensures OffChannel(a + b)
  {
    forall k | |a| <= k < |a + b| ensures (a + b)[k] == b[k - |a|] {
    }
  }

  /** The subscription loop neither subscribes, unsubscribes nor fetches a checkout directly. */
  lemma {:induction false} ListenStaysOnChannel(cfg: Config, world: World, sub: string, i: nat)
    ensures OffChannel(Listen(cfg, world, sub, i))
    decreases |world.events| - i
  {
    if Proceeds(cfg, world, i) {
      var job := RunSingleJob(cfg, world, EventAt(world, i).node, cfg.devices[ShellDevice], world.clock(i));
      SingleJobWaits(cfg, world, EventAt(world, i).node, cfg.devices[ShellDevice], world.clock(i));
      assert OffChannel(job);
      OffChannelConcat([Receive(sub)], job);
      ListenStaysOnChannel(cfg, world, sub, i + 1);
      OffChannelConcat([Receive(sub)] + job, Listen(cfg, world, sub, i + 1));
    } else {
      assert Listen(cfg, world, sub, i) == [Receive(sub)];
    }
  }

  /**
   * In subscription mode with a subscription opened, the subscription is
   * the first call, `unsubscribe` is made exactly once and as the last
   * call, and no checkout is fetched directly.
   */
  lemma UnsubscribeOnceLast(cfg: Config, world: World, filter: Dict)
    requires world.subscribe(filter).Some?
    ensures var calls := SubscribeAndRun(cfg, world, filter).calls;
            && calls[0] == Subscribe(filter)
            && calls[|calls| - 1] == Unsubscribe(world.subscribe(filter).value)
            && (forall k :: 0 <= k < |calls| - 1 ==> !calls[k].Unsubscribe?)
            && (forall k :: 0 <= k < |calls| ==> !calls[k].GetNode?)
            && SubmitsAwaited(world, calls)
  {
    var sub := world.subscribe(filter).value;
    var listen := Listen(cfg, world, sub, 0);
    ListenSerialises(cfg, world, sub, 0);
    ListenStaysOnChannel(cfg, world, sub, 0);
    var calls := SubscribeAndRun(cfg, world, filter).calls;
    assert calls == [Subscribe(filter)] + listen + [Unsubscribe(sub)];
    forall k | 0 <= k < |calls| - 1
      ensures !calls[k].Unsubscribe?
    {
      if k >= 1 {
        assert calls[k] == listen[k - 1];
      }
    }
    forall k | 0 <= k < |calls|
      ensures !calls[k].GetNode?
    {
      if 1 <= k < |calls| - 1 {
        assert calls[k] == listen[k - 1];
      }
    }
    AwaitedConcat(world, [Subscribe(filter)], listen);
    AwaitedConcat(world, [Subscribe(filter)] + listen, [Unsubscribe(sub)]);
  }

  /**
   * Mode selection: with a checkout id configured, `run` fetches it once,
   * never touches the channel, and runs exactly one job on it when the
   * fetch succeeds and a shell device exists (none otherwise); without
   * one it subscribes with the checkout filter and never fetches directly.
   */
  lemma ModeSelection(cfg: Config, world: World)
    ensures DirectMode(cfg) ==>
              var calls := Run(cfg, world).calls;
              && calls[0] == GetNode(cfg.nodeId.value)
              && (forall k :: 1 <= k < |calls| ==> !ChannelCall(calls[k]))
              && OneJob(calls)
              && (world.getNode(cfg.nodeId.value).Some? && ShellDevice in cfg.devices ==>
                    |calls| >= 2 && calls[1] == MakeTempDir(world.clock(0), cfg.output))
              && (world.getNode(cfg.nodeId.value).None? || ShellDevice !in cfg.devices ==> calls == [GetNode(cfg.nodeId.value)])
    ensures !DirectMode(cfg) ==>
              var calls := Run(cfg, world).calls;
              && calls[0] == Subscribe(map["name" := Str("checkout"), "state" := Str("available")])
              && forall k :: 0 <= k < |calls| ==> !calls[k].GetNode?
  {
    if DirectMode(cfg) {
      var id := cfg.nodeId.value;
      var calls := Run(cfg, world).calls;
      var node := world.getNode(id);
      if node.Some? && ShellDevice in cfg.devices {
        var job := RunSingleJob(cfg, world, node.value, cfg.devices[ShellDevice], world.clock(0));
        SingleJobWaits(cfg, world, node.value, cfg.devices[ShellDevice], world.clock(0));
        SingleJobOnce(cfg, world, node.value, cfg.devices[ShellDevice], world.clock(0));
        assert calls == [GetNode(id)] + job;
        forall k | 1 <= k < |calls|
          ensures calls[k] == job[k - 1]
        {
        }
      }
    } else {
      var sub := world.subscribe(CheckoutFilter);
      if sub.Some? {
        UnsubscribeOnceLast(cfg, world, CheckoutFilter);
      }
    }
  }

  /**
   * `run` returns `True` whenever it returns, and raises exactly when the
   * checkout cannot be fetched or there is no shell device (direct mode)
   * or when subscribing or unsubscribing fails (subscription mode).
   */
  lemma RunResult(cfg: Config, world: World)
    ensures Run(cfg, world).result.Ok? ==> Run(cfg, world).result.value == true
    ensures DirectMode(cfg) ==>
              (Run(cfg, world).result.Err? <==>
                 world.getNode(cfg.nodeId.value).None? || ShellDevice !in cfg.devices)
    ensures !DirectMode(cfg) ==>
              (Run(cfg, world).result.Err? <==>
                 world.subscribe(CheckoutFilter).None? || !world.unsubscribe(world.subscribe(CheckoutFilter).value))
  {
  }

  /**
   * The subscription loop ends at a checkout whose announcement raises, at
   * a missing shell device, and at an interrupt or a failed receive,
   * without scheduling anything more.
   */
  lemma ListenStops(cfg: Config, world: World, sub: string, i: nat)
    requires || !EventAt(world, i).Delivered?
             || !Announceable(EventAt(world, i).node)
             || ShellDevice !in cfg.devices
    ensures Listen(cfg, world, sub, i) == [Receive(sub)]
  {
  }
}
