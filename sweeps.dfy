/**
 * The sweep-to-launch bridge (`SweepDaimyo`): a heartbeat worker that turns
 * legacy sweep commands into entries of a run-status table and a FIFO queue,
 * and a dispatcher that drains that queue into launch run specifications.
 *
 * Each worker is a `while True` loop around one step; the model gives one
 * step of each as a method of the class `SweepDaimyo`, and specifies every
 * step by a pure function on `Snapshot`, the value of the four pieces of
 * state the steps touch.
 */
module Sweeps {
  import opened Wrappers

  /** A run id as read with `command.get("run_id")`: absent when the command has none. */
  type RunKey = Option<string>

  /** The `args` payload of a sweep command; opaque to this core. */
  type Config = map<string, string>

  /** The run states, which must agree with the backend's RunStatus. */
  datatype Status = Queued | Running | Stopped | Errored | Done

  /**
   * The `args` entry of a command dictionary: missing, present with the value
   * `None`, or present with a payload. (For `type` and `run_id`, `get` reads a
   * missing key and a `None` value alike, so `Option` suffices there.)
   */
  datatype ArgsEntry = Missing | Null | Given(payload: Config)

  /** One command as returned by the heartbeat RPC: a dictionary whose keys may be missing. */
  datatype SweepCommand = SweepCommand(kind: Option<string>, runId: Option<string>, args: ArgsEntry)

  /** `LegacySweepRun`: the run record built from a sweep command; `config` is `None` for a null `args`. */
  datatype LegacySweepRun = LegacySweepRun(kind: Option<string>, id: RunKey, config: Option<Config>)

  /** The handle of a launched job; `kills` counts the `kill()` requests it received. */
  datatype JobHandle = JobHandle(jobId: string, kills: nat) {
    function Kill(): (h: JobHandle)
      ensures h.jobId == jobId && h.kills == kills + 1
    {
      this.(kills := kills + 1)
    }
  }

  datatype Overrides = Overrides(args: seq<string>, entryPoint: string)

  /** The run specification submitted to the launch queue. */
  datatype RunSpec = RunSpec(uri: string, resource: string, overrides: Overrides)

  const LocalProcess: string := "local-process"

  /**
   * `LegacySweepRun.__init__`: reads `type`, `run_id` and `args`; the default
   * `{}` applies only when the `args` key is missing, not when it holds `None`.
   */
  function NewLegacySweepRun(command: SweepCommand): (run: LegacySweepRun)
    ensures run.kind == command.kind && run.id == command.runId
    ensures command.args.Missing? ==> run.config == Some(map[])
    ensures command.args.Null? ==> run.config == None
    ensures command.args.Given? ==> run.config == Some(command.args.payload)
  {
    var config := match command.args
      case Missing => Some(map[])
      case Null => None
      case Given(payload) => Some(payload);
    LegacySweepRun(command.kind, command.runId, config)
  }

  /** The command types that enqueue a run. */
  predicate IsEnqueueKind(kind: Option<string>) {
    kind == Some("run") || kind == Some("resume")
  }

  /** The command types the heartbeat worker acts on. */
  predicate IsKnownKind(kind: Option<string>) {
    IsEnqueueKind(kind) || kind == Some("stop") || kind == Some("exit")
  }

  /**
   * The state the two workers share: the status table, the FIFO queue, the
   * jobs tracked by the controller, and whether the heartbeat loop still runs.
   */
  datatype Snapshot = Snapshot(
    statuses: map<RunKey, Status>,
    queue: seq<LegacySweepRun>,
    jobs: map<RunKey, JobHandle>,
    heartbeatAlive: bool)
  {
    /** Every queued run has a status entry, so the dispatcher's table lookup cannot fail. */
    ghost predicate QueueTracked() {
      forall i :: 0 <= i < |queue| ==> queue[i].id in statuses
    }

    /** `_stop_run(id)`. */
    function Stop(id: RunKey): (t: Snapshot)
      ensures id in t.statuses && t.statuses[id] == Stopped
      ensures t.statuses.Keys == statuses.Keys + {id}
      ensures forall k :: k in statuses && k != id ==> t.statuses[k] == statuses[k]
      ensures t.jobs.Keys == jobs.Keys
      ensures forall k :: k in jobs ==>
        t.jobs[k].jobId == jobs[k].jobId && t.jobs[k].kills == jobs[k].kills + (if k == id then 1 else 0)
      ensures t.queue == queue && t.heartbeatAlive == heartbeatAlive
      ensures QueueTracked() ==> t.QueueTracked()
    {
      var jobs' := if id in jobs then jobs[id := jobs[id].Kill()] else jobs;
      Snapshot(statuses[id := Stopped], queue, jobs', heartbeatAlive)
    }

    /** The state after `_stop_run` has been applied to every id in `done`, in any order. */
    function StoppedOn(done: set<RunKey>): (t: Snapshot)
      requires done <= jobs.Keys
    {
      Snapshot(
        map k | k in statuses.Keys + done :: if k in done then Stopped else statuses[k],
        queue,
        map k | k in jobs :: if k in done then jobs[k].Kill() else jobs[k],
        heartbeatAlive)
    }

    /** `_stop_all_runs`: `_stop_run` on every id of the jobs map (not of the status table). */
    function StopAll(): (t: Snapshot)
      ensures t.statuses.Keys == statuses.Keys + jobs.Keys
      ensures forall k :: k in jobs ==> t.statuses[k] == Stopped
      ensures forall k :: k in statuses && k !in jobs ==> t.statuses[k] == statuses[k]
      ensures t.jobs.Keys == jobs.Keys
      ensures forall k :: k in jobs ==> t.jobs[k] == jobs[k].Kill()
      ensures t.queue == queue && t.heartbeatAlive == heartbeatAlive
      ensures QueueTracked() ==> t.QueueTracked()
    {
      StoppedOn(jobs.Keys)
    }

    /** `_exit`: stop every tracked run, then end the heartbeat loop. */
    function Exit(): (t: Snapshot)
      ensures t.statuses.Keys == statuses.Keys + jobs.Keys
      ensures forall k :: k in jobs ==> t.statuses[k] == Stopped
      ensures forall k :: k in statuses && k !in jobs ==> t.statuses[k] == statuses[k]
      ensures t.jobs.Keys == jobs.Keys
      ensures forall k :: k in jobs ==> t.jobs[k] == jobs[k].Kill()
      ensures t.queue == queue && !t.heartbeatAlive
    {
      StopAll().(heartbeatAlive := false)
    }

    /** One heartbeat step after the RPC returned `cmd` (its first command, if any). */
    function AfterCommand(cmd: Option<SweepCommand>): (t: Snapshot)
      ensures QueueTracked() ==> t.QueueTracked()
      ensures cmd.None? || !IsKnownKind(cmd.value.kind) ==> t == this
      ensures cmd.Some? && IsEnqueueKind(cmd.value.kind) ==>
        && t.queue == queue + [NewLegacySweepRun(cmd.value)]
        && cmd.value.runId in t.statuses && t.statuses[cmd.value.runId] == Queued
        && t.statuses.Keys == statuses.Keys + {cmd.value.runId}
        && (forall k :: k in statuses && k != cmd.value.runId ==> t.statuses[k] == statuses[k])
        && t.jobs == jobs && t.heartbeatAlive == heartbeatAlive
      ensures cmd.Some? && cmd.value.kind == Some("stop") ==> t == Stop(cmd.value.runId)
      ensures cmd.Some? && cmd.value.kind == Some("exit") ==> t == Exit()
    {
      match cmd
      case None => this
      case Some(c) =>
        var run := NewLegacySweepRun(c);
        if IsEnqueueKind(run.kind) then
          Snapshot(statuses[run.id := Queued], queue + [run], jobs, heartbeatAlive)
        else if run.kind == Some("stop") then
          Stop(run.id)
        else if run.kind == Some("exit") then
          Exit()
        else
          this
    }

    /**
     * One dispatcher step: dequeue the head of the queue (an empty queue is the
     * `queue.Empty` timeout) and, unless its run is STOPPED, build the run
     * specification to submit and mark the run RUNNING.
     */
    function AfterDispatch(cwd: string, commandArgs: Option<Config> -> seq<string>): (r: (Snapshot, Option<RunSpec>))
      requires QueueTracked()
      ensures r.0.QueueTracked()
      ensures queue == [] ==> r == (this, None)
      ensures queue != [] ==>
        r.0.queue == queue[1..] && r.0.jobs == jobs && r.0.heartbeatAlive == heartbeatAlive
      ensures queue != [] && statuses[queue[0].id] == Stopped ==>
        r.1 == None && r.0.statuses == statuses
      ensures queue != [] && statuses[queue[0].id] != Stopped ==>
        && r.1 == Some(RunSpec(cwd, LocalProcess, Overrides(commandArgs(queue[0].config), "")))
        && r.0.statuses.Keys == statuses.Keys
        && r.0.statuses[queue[0].id] == Running
        && (forall k :: k in statuses && k != queue[0].id ==> r.0.statuses[k] == statuses[k])
    {
      if queue == [] then
        (this, None)
      else
        var run := queue[0];
        var rest := this.(queue := queue[1..]);
        if statuses[run.id] == Stopped then
          (rest, None)
        else
          var spec := RunSpec(cwd, LocalProcess, Overrides(commandArgs(run.config), ""));
          (rest.(statuses := statuses[run.id := Running]), Some(spec))
    }
  }

  /** Stopping one more tracked id extends the set of stopped ids by that id. */
  lemma StoppedOnStep(s: Snapshot, done: set<RunKey>, id: RunKey)
    requires done <= s.jobs.Keys && id in s.jobs && id !in done
    ensures s.StoppedOn(done).Stop(id) == s.StoppedOn(done + {id})
  {
  }

  /** A STOP that arrives while the run waits in the queue makes the dispatcher discard it. */
  lemma StopBeforeDequeueDiscards(s: Snapshot, stop: SweepCommand, cwd: string, commandArgs: Option<Config> -> seq<string>)
    requires s.QueueTracked() && s.heartbeatAlive && s.queue != []
    requires stop.kind == Some("stop") && stop.runId == s.queue[0].id
    ensures s.AfterCommand(Some(stop)).AfterDispatch(cwd, commandArgs) == (s.Stop(stop.runId).(queue := s.queue[1..]), None)
  {
  }

  /**
   * Nothing stops a late `run`/`resume` from overwriting STOPPED, DONE or
   * ERRORED with QUEUED: a `run` for an id that was stopped while still
   * queued overwrites STOPPED with QUEUED, so the earlier queue entry is
   * dispatched after all.
   */
  lemma RequeueAfterStopDispatchesStaleEntry(
    s: Snapshot, stop: SweepCommand, rerun: SweepCommand, cwd: string, commandArgs: Option<Config> -> seq<string>)
    requires s.QueueTracked() && s.queue != []
    requires stop.kind == Some("stop") && stop.runId == s.queue[0].id
    requires rerun.kind == Some("run") && rerun.runId == s.queue[0].id
    ensures s.AfterCommand(Some(stop)).AfterCommand(Some(rerun)).AfterDispatch(cwd, commandArgs).1
         == Some(RunSpec(cwd, LocalProcess, Overrides(commandArgs(s.queue[0].config), "")))
  {
  }

  /**
   * A `run` command followed by a dispatch on an otherwise empty queue submits
   * the local-process specification for that run and leaves it RUNNING.
   */
  lemma RunThenDispatch(s: Snapshot, run: SweepCommand, cwd: string, commandArgs: Option<Config> -> seq<string>)
    requires s.QueueTracked() && s.queue == [] && run.kind == Some("run")
    ensures var (u, spec) := s.AfterCommand(Some(run)).AfterDispatch(cwd, commandArgs);
      && spec == Some(RunSpec(cwd, LocalProcess, Overrides(commandArgs(NewLegacySweepRun(run).config), "")))
      && u.statuses[run.runId] == Running
      && u.queue == []
  {
  }

  /** A run killed through a STOP and then again through EXIT has received two kill requests. */
  lemma StopThenExitKillsTwice(s: Snapshot, stop: SweepCommand, exit: SweepCommand)
    requires s.heartbeatAlive && stop.kind == Some("stop") && stop.runId in s.jobs && exit.kind == Some("exit")
    ensures s.AfterCommand(Some(stop)).AfterCommand(Some(exit)).jobs[stop.runId].kills == s.jobs[stop.runId].kills + 2
  {
  }

  /** The controller: the heartbeat and dispatcher workers' shared state, updated in place. */
  class SweepDaimyo {
    var statuses: map<RunKey, Status>
    var queue: seq<LegacySweepRun>
    var jobs: map<RunKey, JobHandle>
    var heartbeatAlive: bool

    ghost function Model(): Snapshot
      reads this
    {
      Snapshot(statuses, queue, jobs, heartbeatAlive)
    }

    ghost predicate Valid()
      reads this
    {
      Model().QueueTracked()
    }

    /** `_start`: an empty status table and queue, the base class's jobs, a live heartbeat loop. */
    constructor (trackedJobs: map<RunKey, JobHandle>)
      ensures Valid()
      ensures statuses == map[] && queue == [] && jobs == trackedJobs && heartbeatAlive
    {
      statuses := map[];
      queue := [];
      jobs := trackedJobs;
      heartbeatAlive := true;
    }

    /** The liveness report sent with every heartbeat: the QUEUED and RUNNING runs, each mapped to true. */
    function LivenessReport(): (report: map<RunKey, bool>)
      reads this
      ensures forall id :: id in report <==> id in statuses && (statuses[id] == Queued || statuses[id] == Running)
      ensures forall id :: id in report ==> report[id]
    {
      map id | id in statuses && (statuses[id] == Queued || statuses[id] == Running) :: true
    }

    /** `_stop_run`. */
    method StopRun(id: RunKey)
      requires Valid()
      modifies this
      ensures Valid()
      ensures Model() == old(Model()).Stop(id)
    {
      statuses := statuses[id := Stopped];
      if id in jobs {
        jobs := jobs[id := jobs[id].Kill()];
      }
    }

    /** `_stop_all_runs`: loops over the keys of the jobs map. */
    method StopAllRuns()
      requires Valid()
      modifies this
      ensures Valid()
      ensures Model() == old(Model()).StopAll()
    {
      ghost var s0 := Model();
      var remaining := jobs.Keys;
      ghost var done: set<RunKey> := {};
      while remaining != {}
        invariant Valid()
        invariant done !! remaining && done + remaining == s0.jobs.Keys
        invariant Model() == s0.StoppedOn(done)
        decreases remaining
      {
        var id :| id in remaining;
        StoppedOnStep(s0, done, id);
        StopRun(id);
        remaining := remaining - {id};
        done := done + {id};
      }
      assert done == s0.jobs.Keys;
    }

    /** `_exit`: stop all runs, then end the heartbeat loop. */
    method Exit()
      requires Valid()
      modifies this
      ensures Valid()
      ensures Model() == old(Model()).Exit()
    {
      StopAllRuns();
      heartbeatAlive := false;
    }

    /** One heartbeat iteration after the RPC returned `cmd`. */
    method ApplyCommand(cmd: Option<SweepCommand>)
      requires Valid() && heartbeatAlive
      modifies this
      ensures Valid()
      ensures Model() == old(Model()).AfterCommand(cmd)
    {
      if cmd.Some? {
        var run := NewLegacySweepRun(cmd.value);
        if IsEnqueueKind(run.kind) {
          queue := queue + [run];
          statuses := statuses[run.id := Queued];
        } else if run.kind == Some("stop") {
          StopRun(run.id);
        } else if run.kind == Some("exit") {
          Exit();
        }
      }
    }

    /**
     * One dispatcher iteration; `submitted` is the specification handed to the
     * launch queue, if any. `cwd` is the working directory and `commandArgs`
     * the legacy agent's argument builder.
     */
    method DispatchStep(cwd: string, commandArgs: Option<Config> -> seq<string>) returns (submitted: Option<RunSpec>)
      requires Valid()
      modifies this
      ensures Valid()
      ensures (Model(), submitted) == old(Model()).AfterDispatch(cwd, commandArgs)
    {
      if queue == [] {
        return None;
      }
      var run := queue[0];
      queue := queue[1..];
      if statuses[run.id] == Stopped {
        return None;
      }
      var spec := RunSpec(cwd, LocalProcess, Overrides(commandArgs(run.config), ""));
      statuses := statuses[run.id := Running];
      return Some(spec);
    }
  }
}
