/** The run button (`handleRunClick`) against an opaque sandbox: kill the
    previous server, mount the store plus two synthesized files, install,
    await the install's exit, start, record the process and listen for
    readiness. The sandbox's answers are a parameter; the result is the
    trace of the completed steps of the run and where the run stopped. */
module Runner {
  import opened Wrappers
  import opened FileTree

  /** A sandbox process handle. */
  type Pid = nat

  /** A command spawned in the sandbox: program and arguments. */
  datatype Command = Command(program: string, args: seq<string>)

  const Install: Command := Command("npm", ["install"])
  const Start: Command := Command("npm", ["start"])

  const ServerPath: Path := "server.js"
  const ManifestPath: Path := "package.json"

  /** The synthesized static file server listening on port 3000. */
  const ServerJs: string :=
    "\n                const express = require('express');\n                const app = express();\n                const path = require('path');\n\n                app.use(express.static('.'));\n\n                app.get('*', (req, res) => {\n                    res.sendFile(path.join(__dirname, 'index.html'));\n                });\n\n                app.listen(3000, () => {\n                    console.log('Server running on port 3000');\n                });\n            "

  /** The synthesized manifest, serialized with two-space indentation. */
  const PackageJson: string :=
    "{\n  \"name\": \"web-project\",\n  \"version\": \"1.0.0\",\n  \"scripts\": {\n    \"start\": \"node server.js\"\n  },\n  \"dependencies\": {\n    \"express\": \"^4.17.1\"\n  }\n}"

  /** What is mounted: the store with the two synthesized files on top. */
  function MountedFiles(tree: Tree): (r: Tree)
    ensures r.Keys == tree.Keys + {ServerPath, ManifestPath}
    ensures r[ServerPath] == ServerJs && r[ManifestPath] == PackageJson
    ensures forall p :: p in tree && p != ServerPath && p != ManifestPath ==> r[p] == tree[p]
  {
    Merge(tree, map[ServerPath := ServerJs, ManifestPath := PackageJson])
  }

  /** A completed step of the run: an awaited sandbox call, the process
      recorded in the workspace, or the readiness listener registered. */
  datatype Event =
    | Killed(pid: Pid)                  // `await runProcess.kill()`
    | Mounted(files: Tree)              // `await webContainer.mount(...)`
    | Spawned(command: Command, pid: Pid)
    | Exited(pid: Pid, code: int)       // the install's exit promise resolved
    | Recorded(pid: Pid)                // `setRunProcess`
    | ListeningForReady                 // `webContainer.on('server-ready', ...)`

  /** How the sandbox answers: whether kill and mount resolve, what each
      spawn yields, and the install's exit code (`None`: it never exits). */
  datatype SpawnReply = Started(pid: Pid) | Refused
  datatype Sandbox = Sandbox(
    killOk: bool,
    mountOk: bool,
    install: SpawnReply,
    installExit: Option<int>,
    start: SpawnReply)

  /** The awaited step whose rejection reached the `catch`. */
  datatype Stage = Killing | Mounting | SpawningInstall | SpawningStart

  datatype Outcome =
    | NoContainer           // the early `return`
    | Aborted(stage: Stage)
    | AwaitingInstall       // the install never exits: the run waits forever
    | Running(pid: Pid)     // start spawned, recorded, readiness listened for

  datatype Run = Run(trace: seq<Event>, outcome: Outcome)

  /** The position of each event in the protocol. */
  function Rank(e: Event): nat
  {
    match e
    case Killed(_) => 0
    case Mounted(_) => 1
    case Spawned(c, _) => if c == Install then 2 else if c == Start then 4 else 100
    case Exited(_, _) => 3
    case Recorded(_) => 5
    case ListeningForReady => 6
  }

  /** The trace walks the protocol one step at a time from its first step:
      the kill when a previous process exists, the mount otherwise. */
  predicate FollowsProtocol(previous: Option<Pid>, trace: seq<Event>)
  {
    && (|trace| > 0 ==> Rank(trace[0]) == (if previous.Some? then 0 else 1))
    && (forall i :: 0 < i < |trace| ==> Rank(trace[i]) == Rank(trace[i - 1]) + 1)
  }

  /** The run from the mount on, once any previous process is gone;
      `files` is what gets mounted. */
  function FromMount(files: Tree, sandbox: Sandbox): (r: Run)
    ensures FollowsProtocol(None, r.trace)
    ensures forall i :: 0 <= i < |r.trace| && r.trace[i].Mounted? ==> r.trace[i].files == files
    ensures r.outcome != NoContainer && r.outcome != Aborted(Killing)
    ensures r.outcome.Running? <==>
      sandbox.mountOk && sandbox.install.Started? && sandbox.installExit.Some? && sandbox.start.Started?
    ensures r.outcome.Running? ==>
      var i, s := sandbox.install.pid, sandbox.start.pid;
      r.trace == [Mounted(files), Spawned(Install, i), Exited(i, sandbox.installExit.value),
                  Spawned(Start, s), Recorded(s), ListeningForReady]
  {
    var mount := Mounted(files);
    if !sandbox.mountOk then Run([], Aborted(Mounting))
    else
      match sandbox.install
      case Refused => Run([mount], Aborted(SpawningInstall))
      case Started(i) =>
        match sandbox.installExit
        case None => Run([mount, Spawned(Install, i)], AwaitingInstall)
        case Some(code) =>
          match sandbox.start
          case Refused => Run([mount, Spawned(Install, i), Exited(i, code)], Aborted(SpawningStart))
          case Started(s) =>
            Run([mount, Spawned(Install, i), Exited(i, code), Spawned(Start, s), Recorded(s), ListeningForReady],
                Running(s))
  }

  /** A completed kill in front of a run that starts at the mount. */
  lemma PrependKill(pid: Pid, trace: seq<Event>)
    requires FollowsProtocol(None, trace)
    ensures FollowsProtocol(Some(pid), [Killed(pid)] + trace)
  {
  }

  /** `handleRunClick`: nothing without a container; otherwise kill the
      previous process, if any, and continue from the mount. */
  function RunPipeline(container: bool, previous: Option<Pid>, tree: Tree, sandbox: Sandbox): (r: Run)
    ensures !container <==> r.outcome == NoContainer
    ensures !container ==> r.trace == []
    ensures FollowsProtocol(previous, r.trace)
  {
    if !container then Run([], NoContainer)
    else
      match previous
      case None => FromMount(MountedFiles(tree), sandbox)
      case Some(p) =>
        if !sandbox.killOk then Run([], Aborted(Killing))
        else
          var rest := FromMount(MountedFiles(tree), sandbox);
          PrependKill(p, rest.trace);
          Run([Killed(p)] + rest.trace, rest.outcome)
  }

  /** The run reaches a running server exactly when every awaited step
      succeeds, and then it ends by recording the started process and
      listening for readiness. */
  lemma RunningIff(container: bool, previous: Option<Pid>, tree: Tree, sandbox: Sandbox)
    ensures var r := RunPipeline(container, previous, tree, sandbox);
      r.outcome.Running? <==>
        && container
        && (previous.Some? ==> sandbox.killOk)
        && sandbox.mountOk
        && sandbox.install.Started?
        && sandbox.installExit.Some?
        && sandbox.start.Started?
    ensures var r := RunPipeline(container, previous, tree, sandbox);
      r.outcome.Running? ==>
        && r.outcome.pid == sandbox.start.pid
        && |r.trace| >= 3
        && r.trace[|r.trace| - 3..] == [Spawned(Start, r.outcome.pid), Recorded(r.outcome.pid), ListeningForReady]
  {
  }

  /** Every kill is of the previous process, every mount carries the store
      plus the synthesized files, and the start command is only spawned
      right after an exit was observed. */
  lemma TraceContents(container: bool, previous: Option<Pid>, tree: Tree, sandbox: Sandbox)
    ensures var t := RunPipeline(container, previous, tree, sandbox).trace;
      && (forall i :: 0 <= i < |t| && t[i].Killed? ==> previous == Some(t[i].pid))
      && (forall i :: 0 <= i < |t| && t[i].Mounted? ==> t[i].files == MountedFiles(tree))
      && (forall i :: 0 <= i < |t| && t[i].Spawned? && t[i].command == Start ==> i > 0 && t[i - 1].Exited?)
  {
    var t := RunPipeline(container, previous, tree, sandbox).trace;
    forall i | 0 <= i < |t| && t[i].Killed?
      ensures previous == Some(t[i].pid)
    {
      RanksGrow(previous, t, 0, i);
    }
    forall i | 0 <= i < |t| && t[i].Spawned? && t[i].command == Start
      ensures i > 0 && t[i - 1].Exited?
    {
      RanksGrow(previous, t, 0, i);
      assert Rank(t[i - 1]) == 3;
    }
  }

  /** The spawns and exits from the mount on are the sandbox's answers. */
  lemma FromMountPids(files: Tree, sandbox: Sandbox)
    ensures var t := FromMount(files, sandbox).trace;
      && (forall i :: 0 <= i < |t| && t[i].Spawned? && t[i].command == Install ==>
            sandbox.install == Started(t[i].pid))
      && (forall i :: 0 <= i < |t| && t[i].Exited? ==>
            sandbox.install == Started(t[i].pid) && sandbox.installExit == Some(t[i].code))
      && (forall i :: 0 <= i < |t| && t[i].Spawned? && t[i].command == Start ==>
            sandbox.start == Started(t[i].pid))
  {
  }

  /** Every spawn and exit in the trace is the sandbox's answer for that
      step: the install spawn has the install's pid, the exit awaited is
      that process's, and the start spawn has the start's pid. */
  lemma TracePids(container: bool, previous: Option<Pid>, tree: Tree, sandbox: Sandbox)
    ensures var t := RunPipeline(container, previous, tree, sandbox).trace;
      && (forall i :: 0 <= i < |t| && t[i].Spawned? && t[i].command == Install ==>
            sandbox.install == Started(t[i].pid))
      && (forall i :: 0 <= i < |t| && t[i].Exited? ==>
            sandbox.install == Started(t[i].pid) && sandbox.installExit == Some(t[i].code))
      && (forall i :: 0 <= i < |t| && t[i].Spawned? && t[i].command == Start ==>
            sandbox.start == Started(t[i].pid))
  {
    if container && (previous.None? || sandbox.killOk) {
      var rest := FromMount(MountedFiles(tree), sandbox).trace;
      FromMountPids(MountedFiles(tree), sandbox);
      var t := RunPipeline(container, previous, tree, sandbox).trace;
      if previous.Some? {
        assert t == [Killed(previous.value)] + rest;
        assert forall i :: 0 < i < |t| ==> t[i] == rest[i - 1];
      } else {
        assert t == rest;
      }
    }
  }

  /** A run that does not start the server stops at the first awaited step
      the sandbox refuses, or waits forever on an install that never
      exits. */
  lemma StopsAtFirstFailure(container: bool, previous: Option<Pid>, tree: Tree, sandbox: Sandbox)
    ensures var o := RunPipeline(container, previous, tree, sandbox).outcome;
      var killed := container && (previous.Some? ==> sandbox.killOk);
      && (o == Aborted(Killing) <==> container && previous.Some? && !sandbox.killOk)
      && (o == Aborted(Mounting) <==> killed && !sandbox.mountOk)
      && (o == Aborted(SpawningInstall) <==> killed && sandbox.mountOk && sandbox.install.Refused?)
      && (o == AwaitingInstall <==>
            killed && sandbox.mountOk && sandbox.install.Started? && sandbox.installExit.None?)
      && (o == Aborted(SpawningStart) <==>
            killed && sandbox.mountOk && sandbox.install.Started? && sandbox.installExit.Some?
            && sandbox.start.Refused?)
  {
  }

  /** A run that stops early ends its trace with the last step that
      completed. */
  lemma StoppedRunEnds(container: bool, previous: Option<Pid>, tree: Tree, sandbox: Sandbox)
    ensures var r := RunPipeline(container, previous, tree, sandbox);
      var t := r.trace;
      && (r.outcome == Aborted(Killing) ==> t == [])
      && (r.outcome == Aborted(Mounting) ==> t == if previous.Some? then [Killed(previous.value)] else [])
      && (r.outcome == Aborted(SpawningInstall) ==> |t| > 0 && t[|t| - 1] == Mounted(MountedFiles(tree)))
      && (r.outcome == AwaitingInstall ==> |t| > 0 && t[|t| - 1] == Spawned(Install, sandbox.install.pid))
      && (r.outcome == Aborted(SpawningStart) ==>
            |t| > 0 && t[|t| - 1] == Exited(sandbox.install.pid, sandbox.installExit.value))
  {
  }

  /** Stepping one rank at a time, ranks grow with the distance. */
  lemma {:induction false} RanksGrow(previous: Option<Pid>, trace: seq<Event>, i: int, j: int)
    requires FollowsProtocol(previous, trace)
    requires 0 <= i <= j < |trace|
    ensures Rank(trace[j]) == Rank(trace[i]) + (j - i)
    decreases j - i
  {
    if i < j {
      RanksGrow(previous, trace, i, j - 1);
    }
  }

  /** A previous process is killed, once, before anything is mounted; with
      no previous process nothing is killed. */
  lemma KillBeforeMount(container: bool, previous: Option<Pid>, tree: Tree, sandbox: Sandbox)
    ensures var t := RunPipeline(container, previous, tree, sandbox).trace;
      && (forall i, j :: 0 <= i < |t| && 0 <= j < |t| && t[i].Killed? && t[j].Mounted? ==> i < j)
      && (forall i, j :: 0 <= i < |t| && 0 <= j < |t| && t[i].Killed? && t[j].Killed? ==> i == j)
      && (previous.None? ==> forall i :: 0 <= i < |t| ==> !t[i].Killed?)
      && (previous.Some? && (exists j :: 0 <= j < |t| && t[j].Mounted?) ==> t[0] == Killed(previous.value))
  {
    var t := RunPipeline(container, previous, tree, sandbox).trace;
    forall i, j | 0 <= i < |t| && 0 <= j < |t| && t[i].Killed? && t[j].Mounted?
      ensures i < j
    {
      if j < i { RanksGrow(previous, t, j, i); }
    }
    forall i, j | 0 <= i < |t| && 0 <= j < |t| && t[i].Killed? && t[j].Killed?
      ensures i == j
    {
      if i < j { RanksGrow(previous, t, i, j); } else if j < i { RanksGrow(previous, t, j, i); }
    }
    forall i | 0 <= i < |t|
      ensures Rank(t[i]) == Rank(t[0]) + i
    {
      RanksGrow(previous, t, 0, i);
    }
  }

  /** Mounting never writes the store: the mounted files are the store's
      with the synthesized ones overriding same-named user files, and both
      synthesized files are there. */
  lemma MountOverridesUserFiles(tree: Tree, userServer: string)
    ensures MountedFiles(tree[ServerPath := userServer])[ServerPath] == ServerJs
    ensures MountedFiles(tree[ServerPath := userServer]) == MountedFiles(tree)
  {
  }

  /** The install's exit status is never consulted: any two exit codes give
      the same outcome and the same trace up to the exit event. */
  lemma InstallStatusIgnored(container: bool, previous: Option<Pid>, tree: Tree, sandbox: Sandbox, c1: int, c2: int)
    ensures var r1 := RunPipeline(container, previous, tree, sandbox.(installExit := Some(c1)));
            var r2 := RunPipeline(container, previous, tree, sandbox.(installExit := Some(c2)));
      && r1.outcome == r2.outcome
      && |r1.trace| == |r2.trace|
      && (forall i :: 0 <= i < |r1.trace| && !r1.trace[i].Exited? ==> r1.trace[i] == r2.trace[i])
  {
  }

  /** A run that starts the server has spawned the install, seen it exit
      and then spawned the start command, back to back. */
  lemma StartWaitsForInstall(container: bool, previous: Option<Pid>, tree: Tree, sandbox: Sandbox)
    requires RunPipeline(container, previous, tree, sandbox).outcome.Running?
    ensures var t := RunPipeline(container, previous, tree, sandbox).trace;
      exists k :: 0 <= k < |t| - 4 && t[k] == Spawned(Install, sandbox.install.pid)
        && t[k + 1] == Exited(sandbox.install.pid, sandbox.installExit.value)
        && t[k + 2] == Spawned(Start, sandbox.start.pid)
  {
    var t := RunPipeline(container, previous, tree, sandbox).trace;
    var k := if previous.Some? then 2 else 1;
    assert |t| == k + 5;
    assert t[k] == Spawned(Install, sandbox.install.pid);
    assert t[k + 1] == Exited(sandbox.install.pid, sandbox.installExit.value);
    assert t[k + 2] == Spawned(Start, sandbox.start.pid);
  }
}
