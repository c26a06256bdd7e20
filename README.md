# Sweep-to-launch bridge and Docker image builder

A Dafny model of two pieces of the launch subsystem.

**The sweep daimyo** (`wandb/sdk/launch/sweeps/sweep_daimyo.py`) is a controller with two workers.

- The heartbeat worker polls the legacy sweep backend for commands.
  - A `run` or `resume` command puts a `LegacySweepRun` on a FIFO queue and marks the run QUEUED.
  - A `stop` command marks one run STOPPED and kills its job, if one is tracked.
  - An `exit` command stops every tracked job and ends the heartbeat loop.
- The dispatcher worker drains the queue. It skips runs that are already STOPPED. For every other run it submits a `local-process` run specification to the launch queue and marks the run RUNNING.

Module `Sweeps` (`sweeps.dfy`) models this as the class `SweepDaimyo`. Its four fields are updated in place:

- the status table `statuses`;
- the `queue`;
- the `jobs` map;
- the `heartbeatAlive` flag.

Each worker's loop body is one method: `ApplyCommand` for the heartbeat and `DispatchStep` for the dispatcher. `StopRun`, `StopAllRuns` and `Exit` model `_stop_run`, `_stop_all_runs` and `_exit`. Every method is specified by a pure function on `Snapshot`, the value of those four fields. The properties are stated on those functions and in lemmas that chain several steps. The class invariant `Valid()` says that every queued run has a status entry. It is kept by every method, so in the model, where each step runs whole, the dispatcher's table lookup never fails.

Three behaviours of the code a reader might not expect:

- a `run`/`resume` command overwrites any earlier status, including STOPPED, DONE and ERRORED, with QUEUED: nothing stops a late `run`/`resume` from overwriting STOPPED, DONE or ERRORED (`RequeueAfterStopDispatchesStaleEntry`);
- `stop` inserts a STOPPED entry even for an id that has no entry yet;
- `exit` stops the ids of the jobs map, not the QUEUED or RUNNING entries of the status table.

**The Docker builder** (`wandb/sdk/launch/builder/docker.py`, `DockerBuilder.build_image`) works in four steps:

1. It resolves the image URI: `repository:run_id` when the repository is truthy, otherwise the project's local URI.
2. It builds the image from `Dockerfile.wandb-autogenerated` in the build context. A `DockerError` becomes a `LaunchError`.
3. It removes the build context. A failure here is only logged.
4. If a repository is given, it splits the URI on `":"` and pushes the two pieces.

A `None` push response is a `LaunchError`. For the `sagemaker` resource, so is a response that does not name the repository.

Module `DockerBuilder` (`docker_builder.dfy`) models `build_image` as the method `BuildImage`. The Docker calls and the filesystem become its inputs: the build error, whether removal succeeded, and the push response. The method returns the result and a trace of the calls made. The string logic is modelled exactly: the URI, Python's `str.split` (`Split`, with `Join` as its inverse) and `os.path.join`.

The tuple unpacking `reg, tag = image_uri.split(":")` raises `ValueError` unless the split gives exactly two pieces. That is the case whenever the repository or the run id contains a colon, for example a registry address with a port such as `localhost:5000/model`. The model keeps this outcome as `UnpackError` (`ImageUriSplitsTooFar`, `RegistryWithPortCannotBePushed`).

## Model

| member | source | states |
|---|---|---|
| `Sweeps.NewLegacySweepRun` | wandb/sdk/launch/sweeps/sweep_daimyo.py:27-30 | the record takes the command's `type` and `run_id` (absent stays absent); `config` is `args`, the empty map when the `args` key is missing, and `None` when `args` holds `None` |
| `Sweeps.SweepDaimyo.constructor` | wandb/sdk/launch/sweeps/sweep_daimyo.py:57-61 | the controller starts with an empty status table, an empty queue, the base class's jobs and a live heartbeat loop; the invariant holds |
| `Sweeps.SweepDaimyo.LivenessReport` | wandb/sdk/launch/sweeps/sweep_daimyo.py:69-73 | the report's keys are exactly the ids whose status is QUEUED or RUNNING, and every value is true |
| `Sweeps.Snapshot.Stop` | wandb/sdk/launch/sweeps/sweep_daimyo.py:167-174 | the id becomes STOPPED and its entry is inserted if absent; no other status changes; the queue is untouched; the id's job, if tracked, gets exactly one more kill request and no other job gets one |
| `Sweeps.Snapshot.StopAll` | wandb/sdk/launch/sweeps/sweep_daimyo.py:176-179 | every id of the jobs map becomes STOPPED and its job gets one kill request; status entries of ids without a job are unchanged; the queue is untouched; the invariant is kept |
| `Sweeps.Snapshot.Exit` | wandb/sdk/launch/sweeps/sweep_daimyo.py:181-183 | as `StopAll`, and the heartbeat loop has ended |
| `Sweeps.Snapshot.AfterCommand` | wandb/sdk/launch/sweeps/sweep_daimyo.py:76-86 | no command, or an unrecognised type, changes nothing; `run`/`resume` appends the run at the tail of the queue and sets its status to QUEUED whatever it was, changing no other entry and no job; `stop` is `Stop`, `exit` is `Exit`; every queued run keeps a status entry |
| `Sweeps.Snapshot.AfterDispatch` | wandb/sdk/launch/sweeps/sweep_daimyo.py:94-125 | an empty queue changes nothing; otherwise the head is dequeued; a STOPPED head is dropped with no submission and the status table unchanged; any other head yields the spec `{uri: cwd, resource: "local-process", overrides: {args from its config, entry_point: ""}}` and becomes RUNNING, with no other entry changed |
| `Sweeps.StoppedOnStep` | wandb/sdk/launch/sweeps/sweep_daimyo.py:178-179 | stopping the tracked ids one at a time reaches the same state whatever their order |
| `Sweeps.StopBeforeDequeueDiscards` | wandb/sdk/launch/sweeps/sweep_daimyo.py:81-105 | a STOP that arrives while the run is at the head of the queue makes the next dispatch drop it without submitting anything |
| `Sweeps.RequeueAfterStopDispatchesStaleEntry` | wandb/sdk/launch/sweeps/sweep_daimyo.py:78-105 | a `run` for a stopped run that is still queued revives it: the earlier queue entry is submitted after all |
| `Sweeps.RunThenDispatch` | wandb/sdk/launch/sweeps/sweep_daimyo.py:78-125 | a `run` command followed by a dispatch on an empty queue submits that run's local-process spec and leaves it RUNNING with the queue empty |
| `Sweeps.StopThenExitKillsTwice` | wandb/sdk/launch/sweeps/sweep_daimyo.py:167-183 | a job stopped by a STOP and again by EXIT has received two kill requests: kills are not deduplicated |
| `Sweeps.SweepDaimyo.StopRun` | wandb/sdk/launch/sweeps/sweep_daimyo.py:167-174 | the in-place update yields `Stop` of the old state and keeps the invariant |
| `Sweeps.SweepDaimyo.StopAllRuns` | wandb/sdk/launch/sweeps/sweep_daimyo.py:176-179 | the loop over the jobs map's keys yields `StopAll` of the old state and keeps the invariant |
| `Sweeps.SweepDaimyo.Exit` | wandb/sdk/launch/sweeps/sweep_daimyo.py:181-183 | the new state is `Exit` of the old state, so the heartbeat loop has ended |
| `Sweeps.SweepDaimyo.ApplyCommand` | wandb/sdk/launch/sweeps/sweep_daimyo.py:76-86 | one heartbeat iteration yields `AfterCommand` of the old state and keeps the invariant |
| `Sweeps.SweepDaimyo.DispatchStep` | wandb/sdk/launch/sweeps/sweep_daimyo.py:94-125 | one dispatcher iteration yields `AfterDispatch` of the old state, returning the submitted spec; the invariant makes the status lookup total |
| `DockerBuilder.ImageUri` | wandb/sdk/launch/builder/docker.py:45-48 | with a truthy repository the URI is the repository, a colon, then the run id; otherwise it is the local URI; being a function, equal inputs give equal URIs |
| `DockerBuilder.Split` | wandb/sdk/launch/builder/docker.py:75 | `str.split` gives separator-free pieces, one more than there are separators, which join back to the input |
| `DockerBuilder.SplitJoin` | wandb/sdk/launch/builder/docker.py:75 | splitting separator-free pieces joined by the separator gives back the pieces |
| `DockerBuilder.ImageUriSplitsBack` | wandb/sdk/launch/builder/docker.py:74-77 | if neither the repository nor the run id contains a colon, splitting the URI gives exactly (repository, run id) |
| `DockerBuilder.ImageUriSplitsTooFar` | wandb/sdk/launch/builder/docker.py:75 | if either contains a colon, the split gives more than two pieces, so the unpacking fails |
| `DockerBuilder.RegistryWithPortCannotBePushed` | wandb/sdk/launch/builder/docker.py:75 | the repository `localhost:5000/model` splits into three pieces |
| `DockerBuilder.PathJoin` | wandb/sdk/launch/builder/docker.py:61 | `os.path.join`: an absolute name replaces the directory; otherwise the name is appended after a `/`, which is inserted only if the directory does not already end with one |
| `DockerBuilder.DockerfilePath` | wandb/sdk/launch/builder/docker.py:61 | the Dockerfile path starts with the build-context path, ends with `Dockerfile.wandb-autogenerated`, and has at most one character between them |
| `DockerBuilder.PushError` | wandb/sdk/launch/builder/docker.py:78-84 | a `None` response is an error; for `sagemaker` a response is an error exactly when it lacks `The push refers to repository [<repository>]`, and that error message contains the response; for any other resource every response succeeds |
| `DockerBuilder.BuildImage` | wandb/sdk/launch/builder/docker.py:37-86 | see the list below the table |

`DockerBuilder.BuildImage` states:

- the build is always called with the URI as its only tag, the Dockerfile path and the context;
- a build error yields `LaunchError("Error communicating with docker client: …")`, and no removal or push is attempted;
- after a successful build, removal is attempted, and its outcome affects nothing else;
- without a truthy repository, no push is attempted and the result is the local URI;
- with a truthy, colon-free repository and run id, the push targets exactly (repository, run id), and the result follows `PushError`;
- with a colon in either, the result is the unpacking error with one more piece than the URI has colons, and nothing is pushed;
- no clause on `result` mentions the removal outcome, so it cannot change the result.

## Left out

- Threads, the `daemon` flag, `time.sleep`, the queue's 5-second timeout and the `is_alive()` polling: each worker is modelled as one step at a time. An empty queue stands for the timeout.
- The `register_agent` and `agent_heartbeat` RPCs. `ApplyCommand` takes the first returned command, if any, as a parameter.
- `_add_to_launch_queue`, which belongs to the `Daimyo` base class. `DispatchStep` returns the spec it would submit. How the base class fills `_jobs` is not part of this model: `jobs` is given to the constructor, and dispatching leaves it alone.
- `LegacySweepAgent._create_command_args`, which belongs to the legacy agent and is not part of this model. It is the `commandArgs` parameter.
- `os.getcwd()`: the `cwd` parameter.
- `Sweeps.SweepDaimyo.ApplyCommand`: lines 79-80 of sweep_daimyo.py are not atomic. The `put` on the queue comes before the status write, so a dispatcher blocked in `get` (line 94) can reach the lookup at line 104 first. For a new id that lookup raises `KeyError`. For a `run` of a STOPPED id the run is dropped, and the id then stays QUEUED with nothing queued. The model runs each step whole; the guarantee of `Valid()` that the lookup never fails depends on that reading.
- Job handles are values with a kill counter. Two ids sharing one handle object is not modelled.
- The `breakpoint()` calls, logging and `termlog` output.
- The log message at sweep_daimyo.py:101. It refers to `job` before it is bound; the model continues as if the message were well formed.
- `self._heartbeat_thread.kill()`: `Thread` has no such method, so the call ends the heartbeat thread with an exception. It is modelled as `heartbeatAlive` becoming false, and `ApplyCommand` requires a live loop.
- The commented-out flapping detection in `_run`. It is dead code. No transition into DONE or ERRORED exists in the code, so none is modelled.
- `Sweeps.Config`: the `args` payload is a map from strings to strings. The model never looks inside it. What `_create_command_args` does with a `None` config is not modelled.
- `docker.build`, `docker.push`, `os.remove` and `validate_docker_installation` are calls into the Docker CLI and the filesystem. Their outcomes are the parameters of `BuildImage`.
- `generate_dockerfile`, `create_metadata_file`, `get_entry_point_command` and `sanitize_wandb_api_key` produce only files and log text that the result does not depend on. `construct_local_image_uri` and `_create_docker_build_ctx` are parameters (`localUri`, `buildCtxPath`). An exception raised inside any of them is not modelled.
