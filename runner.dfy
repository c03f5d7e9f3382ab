/**
 * The fstests runner object. Its outside calls go through the small
 * methods at the top, each of which records its `Call` in `trace` and
 * returns what the `World` gives; every operation of the runner is then
 * proved to make exactly the calls, and return exactly the result, that
 * module Dispatch specifies for it.
 */
module Runner {
  import opened Wrappers
  import opened Values
  import opened Dispatch
  import opened Sequences

  /** The calls and the result of a subscription that was granted. */
  lemma SubscribedCalls(cfg: Config, world: World, filter: Dict, sub: string)
    requires world.subscribe(filter) == Some(sub)
    ensures Dispatch.SubscribeAndRun(cfg, world, filter).calls
            == [Subscribe(filter)] + Listen(cfg, world, sub, 0) + [Unsubscribe(sub)]
    ensures Dispatch.SubscribeAndRun(cfg, world, filter).result
            == if world.unsubscribe(sub) then Ok(()) else Err(UnsubscribeFailed)
  {
  }

  class FstestsRunner {
    const cfg: Config
    const world: World
    /** Every outside call made so far, in order. */
    var trace: seq<Call>

    constructor (cfg: Config, world: World)
      ensures this.cfg == cfg && this.world == world && trace == []
    {
      this.cfg := cfg;
      this.world := world;
      trace := [];
    }

    // -------------------------------------------------------------------
    // Outside calls
    // -------------------------------------------------------------------

    method DbSubmit(node: Dict) returns (r: Option<Dict>)
      modifies this
      ensures trace == old(trace) + [SubmitNode(node)] && r == world.submitNode(node)
    {
      trace := trace + [SubmitNode(node)];
      r := world.submitNode(node);
    }

    method DbGetNode(id: string) returns (r: Option<Dict>)
      modifies this
      ensures trace == old(trace) + [GetNode(id)] && r == world.getNode(id)
    {
      trace := trace + [GetNode(id)];
      r := world.getNode(id);
    }

    method DbSubscribe(filter: Dict) returns (r: Option<string>)
      modifies this
      ensures trace == old(trace) + [Subscribe(filter)] && r == world.subscribe(filter)
    {
      trace := trace + [Subscribe(filter)];
      r := world.subscribe(filter);
    }

    /** The i-th `receive_node` on the subscription. */
    method DbReceive(sub: string, i: nat) returns (r: Event)
      modifies this
      ensures trace == old(trace) + [Receive(sub)] && r == EventAt(world, i)
    {
      trace := trace + [Receive(sub)];
      r := EventAt(world, i);
    }

    method DbUnsubscribe(sub: string) returns (r: bool)
      modifies this
      ensures trace == old(trace) + [Unsubscribe(sub)] && r == world.unsubscribe(sub)
    {
      trace := trace + [Unsubscribe(sub)];
      r := world.unsubscribe(sub);
    }

    method MkdTemp(prefix: string, parent: string) returns (r: Option<string>)
      modifies this
      ensures trace == old(trace) + [MakeTempDir(prefix, parent)] && r == world.mkdtemp(prefix, parent)
    {
      trace := trace + [MakeTempDir(prefix, parent)];
      r := world.mkdtemp(prefix, parent);
    }

    method RuntimeGenerate(params: Dict, device: string) returns (r: Option<string>)
      modifies this
      ensures trace == old(trace) + [Generate(params, device)] && r == world.generate(params, device)
    {
      trace := trace + [Generate(params, device)];
      r := world.generate(params, device);
    }

    method RuntimeSaveFile(job: string, dir: string, params: Dict) returns (r: Option<string>)
      modifies this
      ensures trace == old(trace) + [SaveFile(job, dir, params)] && r == world.saveFile(job, dir, params)
    {
      trace := trace + [SaveFile(job, dir, params)];
      r := world.saveFile(job, dir, params);
    }

    method RuntimeSubmit(file: string) returns (r: Option<string>)
      modifies this
      ensures trace == old(trace) + [SubmitJob(file)] && r == world.submitJob(file)
    {
      trace := trace + [SubmitJob(file)];
      r := world.submitJob(file);
    }

    method JobWait(handle: string)
      modifies this
      ensures trace == old(trace) + [Wait(handle)]
    {
      trace := trace + [Wait(handle)];
    }

    // -------------------------------------------------------------------
    // The runner
    // -------------------------------------------------------------------

    /** `_create_node`: the child record of a checkout, submitted to the store. */
    method CreateNode(checkout: Dict) returns (r: Result<Dict, RunError>)
      modifies this
      ensures trace == old(trace) + Dispatch.CreateNode(world, checkout, cfg.plan).calls
      ensures r == Dispatch.CreateNode(world, checkout, cfg.plan).result
    {
      var node := ChildRecord(checkout, cfg.plan);
      if node.Err? {
        return Err(node.error);
      }
      var stored := DbSubmit(node.value);
      if stored.None? {
        return Err(StoreFailure);
      }
      return Ok(stored.value);
    }

    /** `_schedule_job`: anchor record first, then the layered parameters and the backend. */
    method ScheduleJob(checkout: Dict, device: Device, tmp: string) returns (r: Result<string, RunError>)
      modifies this
      ensures trace == old(trace) + Dispatch.ScheduleJob(cfg, world, checkout, device, tmp).calls
      ensures r == Dispatch.ScheduleJob(cfg, world, checkout, device, tmp).result
    {
      var node := CreateNode(checkout);
      if node.Err? {
        return Err(node.error);
      }
      if "revision" !in node.value {
        return Err(KeyMissing("revision"));
      }
      var revision := node.value["revision"];
      var base := BaseParams(cfg, node.value, revision, tmp);
      if base.None? {
        return Err(JobResultUnbound);
      }
      var params := Update(base.value, cfg.plan.params);
      params := Update(params, device.params);
      assert params == JobParams(base.value, cfg.plan, device);
      var job := RuntimeGenerate(params, device.name);
      if job.None? {
        return Err(JobResultUnbound);
      }
      var outputFile := RuntimeSaveFile(job.value, tmp, params);
      if outputFile.None? {
        return Err(JobResultUnbound);
      }
      var jobResult := RuntimeSubmit(outputFile.value);
      AppendAssoc(old(trace), Dispatch.CreateNode(world, checkout, cfg.plan).calls,
                  Backend(world, params, device, tmp).calls);
      if jobResult.None? {
        return Err(JobResultUnbound);
      }
      return Ok(jobResult.value);
    }

    /** `_run_single_job`: scratch directory, schedule, wait; always `True`. */
    method RunSingleJob(checkout: Dict, device: Device, jobIndex: nat) returns (ok: bool)
      modifies this
      ensures ok
      ensures trace == old(trace) + Dispatch.RunSingleJob(cfg, world, checkout, device, world.clock(jobIndex))
    {
      var stamp := world.clock(jobIndex);
      var tmp := MkdTemp(stamp, cfg.output);
      if tmp.Some? {
        ghost var started := trace;
        var job := ScheduleJob(checkout, device, tmp.value);
        ghost var scheduled := Dispatch.ScheduleJob(cfg, world, checkout, device, tmp.value).calls;
        AppendAssoc(old(trace), [MakeTempDir(stamp, cfg.output)], scheduled);
        if job.Ok? {
          JobWait(job.value);
          AppendAssoc(started, scheduled, [Wait(job.value)]);
          AppendAssoc(old(trace), [MakeTempDir(stamp, cfg.output)], scheduled + [Wait(job.value)]);
        } else {
          AppendEmpty(scheduled);
        }
      }
      return true;
    }

    /**
     * One pass of the `while True` loop of `_subscribe_and_run`: receive,
     * announce and run one job; whether the loop goes on.
     */
    method Step(sub: string, i: nat) returns (more: bool)
      modifies this
      ensures trace == old(trace) + Iteration(cfg, world, sub, i)
      ensures more == Proceeds(cfg, world, i)
    {
      var event := DbReceive(sub, i);
      if !event.Delivered? || !Announceable(event.node) || ShellDevice !in cfg.devices {
        return false;
      }
      var _ := RunSingleJob(event.node, cfg.devices[ShellDevice], i);
      return true;
    }

    /**
     * The `while True` loop: it ends at an interrupt or a failed receive,
     * or when a malformed checkout makes the announcement raise.
     */
    method ListenLoop(sub: string)
      modifies this
      ensures trace == old(trace) + Listen(cfg, world, sub, 0)
    {
      ghost var target := trace + Listen(cfg, world, sub, 0);
      var i := 0;
      while true
        invariant trace + Listen(cfg, world, sub, i) == target
        decreases |world.events| - i
      {
        ghost var before := trace;
        var more := Step(sub, i);
        if !more {
          AppendEmpty(Iteration(cfg, world, sub, i));
          break;
        }
        AppendAssoc(before, Iteration(cfg, world, sub, i), Listen(cfg, world, sub, i + 1));
        i := i + 1;
      }
    }

    /** `_subscribe_and_run`: subscribe, listen, and unsubscribe in `finally`. */
    method SubscribeAndRun(filter: Dict) returns (r: Result<(), RunError>)
      modifies this
      ensures trace == old(trace) + Dispatch.SubscribeAndRun(cfg, world, filter).calls
      ensures r == Dispatch.SubscribeAndRun(cfg, world, filter).result
    {
      var sub := DbSubscribe(filter);
      if sub.None? {
        r := Err(SubscribeFailed);
      } else {
        ListenLoop(sub.value);
        var unsubscribed := DbUnsubscribe(sub.value);
        AppendAssoc(old(trace), [Subscribe(filter)], Listen(cfg, world, sub.value, 0));
        AppendAssoc(old(trace), [Subscribe(filter)] + Listen(cfg, world, sub.value, 0), [Unsubscribe(sub.value)]);
        r := if unsubscribed then Ok(()) else Err(UnsubscribeFailed);
        SubscribedCalls(cfg, world, filter, sub.value);
      }
    }

    /** `_run_node_id`: one fetch and one job on the shell device. */
    method RunNodeId() returns (r: Result<(), RunError>)
      requires cfg.nodeId.Some?
      modifies this
      ensures trace == old(trace) + Dispatch.RunNodeId(cfg, world, cfg.nodeId.value).calls
      ensures r == Dispatch.RunNodeId(cfg, world, cfg.nodeId.value).result
    {
      var node := DbGetNode(cfg.nodeId.value);
      if node.None? {
        return Err(StoreFailure);
      }
      if ShellDevice !in cfg.devices {
        return Err(KeyMissing(ShellDevice));
      }
      var _ := RunSingleJob(node.value, cfg.devices[ShellDevice], 0);
      return Ok(());
    }

    /** `run`: the mode chosen by the configured checkout id; `True` unless something raised. */
    method Run() returns (r: Result<bool, RunError>)
      modifies this
      ensures r.Ok? ==> r.value
      ensures trace == old(trace) + Dispatch.Run(cfg, world).calls
      ensures r == Dispatch.Run(cfg, world).result
    {
      var ran;
      if DirectMode(cfg) {
        ran := RunNodeId();
      } else {
        ran := SubscribeAndRun(CheckoutFilter);
      }
      if ran.Err? {
        return Err(ran.error);
      }
      return Ok(true);
    }
  }
}
