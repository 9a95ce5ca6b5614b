/** The state the `Project` screen keeps and the handlers that change it,
    each a pure function from the state before to the state after plus the
    outbound calls it makes (persisting the tree, broadcasting a chat
    message, writing into or mounting the sandbox). */
module Project {
  import opened Wrappers
  import opened Strings
  import opened FileTree
  import opened Tabs
  import opened Collaborators
  import opened Chat
  import opened Language
  import opened Runner

  /** Which half of the right pane is shown. */
  datatype View = Code | Preview

  datatype Workspace = Workspace(
    tree: Tree,                   // fileTree
    tabs: TabState,               // openFiles and currentFile
    selected: set<string>,        // selectedUserId
    transcript: seq<Message>,     // messages
    draft: string,                // message (the chat input)
    waitingForAi: bool,           // isWaitingForAI
    container: bool,              // webContainer has been obtained
    runProcess: Option<Pid>,      // runProcess
    previewUrl: Option<string>,   // iframeUrl
    view: View,                   // activeView
    readyListener: bool)          // a server-ready listener is registered

  /** The state of a freshly opened screen. */
  const Initial: Workspace :=
    Workspace(map[], TabState([], None), {}, [], "", false, false, None, None, Code, false)

  /** An outbound call. */
  datatype Effect =
    | Persist(files: Tree)                   // saveFileTree
    | Broadcast(message: Message)            // sendMessage('project-message', ...)
    | SandboxWrite(path: Path, contents: string)
    | SandboxMount(mounted: Option<Tree>)

  datatype Step = Step(ws: Workspace, effects: seq<Effect>)

  /** The tab invariant: distinct tabs, and the current file has one. */
  predicate Valid(ws: Workspace)
  {
    Tabs.Valid(ws.tabs)
  }

  /** The workspace starts with no tabs and no current file. */
  lemma InitialValid()
    ensures Valid(Initial)
  {
  }

  /** Clicking a file in the explorer makes it current and gives it a tab. */
  function OpenFile(ws: Workspace, file: Path): (r: Workspace)
    ensures r.tabs == Tabs.Open(ws.tabs, file)
    ensures r.tabs.current == Some(file)
    ensures Valid(ws) ==> r.tabs.open == if file in ws.tabs.open then ws.tabs.open else ws.tabs.open + [file]
    ensures Valid(r)
    ensures r.(tabs := ws.tabs) == ws
  {
    AddTabToDistinct(ws.tabs.open, file);
    ws.(tabs := Tabs.Open(ws.tabs, file))
  }

  /** `handleCloseFile`. */
  function CloseFile(ws: Workspace, file: Path): (r: Workspace)
    ensures file !in r.tabs.open
    ensures forall x :: x != file ==> multiset(r.tabs.open)[x] == multiset(ws.tabs.open)[x]
    ensures ws.tabs.current == Some(file) ==> r.tabs.current == FirstTab(r.tabs.open)
    ensures ws.tabs.current != Some(file) ==> r.tabs.current == ws.tabs.current
    ensures r.tabs == Close(ws.tabs, file)
    ensures Valid(ws) ==> Valid(r)
    ensures r.(tabs := ws.tabs) == ws
  {
    CloseKeepsValid(ws.tabs, file);
    ws.(tabs := Close(ws.tabs, file))
  }

  /** The new-file button: `answer` is what the name prompt returned. An
      empty or cancelled name changes nothing; otherwise the file is
      created (or overwritten) with the starter contents for its
      extension, persisted, made current and given a tab. */
  function NewFile(ws: Workspace, answer: Option<string>): (r: Step)
    ensures answer.None? || answer == Some("") ==> r == Step(ws, [])
    ensures answer.Some? && answer.value != "" ==>
      var name := answer.value;
      && r.ws.tree.Keys == ws.tree.Keys + {name}
      && r.ws.tree[name] == Template(name)
      && (forall p :: p in ws.tree && p != name ==> r.ws.tree[p] == ws.tree[p])
      && r.ws.tabs == Tabs.Open(ws.tabs, name)
      && (Valid(ws) ==> r.ws.tabs.open == if name in ws.tabs.open then ws.tabs.open else ws.tabs.open + [name])
      && (Valid(ws) ==> multiset(r.ws.tabs.open)[name] == 1)
      && r.effects == [Persist(r.ws.tree)]
    ensures Valid(ws) ==> Valid(r.ws)
    ensures r.ws.(tree := ws.tree, tabs := ws.tabs) == ws
  {
    match answer
    case None => Step(ws, [])
    case Some(name) =>
      if name == "" then Step(ws, [])
      else
        var tree := Upsert(ws.tree, name, Template(name));
        AddTabToDistinct(ws.tabs.open, name);
        Step(ws.(tree := tree, tabs := Tabs.Open(ws.tabs, name)), [Persist(tree)])
  }

  /** The code editor exists only in the code view and while the current
      file is truthy. */
  predicate Editing(ws: Workspace)
  {
    ws.view == Code && ws.tabs.current.Some? && ws.tabs.current.value != ""
  }

  /** The editor losing focus with `text` in it: the current file takes the
      text, the new tree is persisted, and the sandbox (if any) is sent the
      same write. */
  function EditOnBlur(ws: Workspace, text: string): (r: Step)
    ensures !Editing(ws) ==> r == Step(ws, [])
    ensures Editing(ws) ==>
      var file := ws.tabs.current.value;
      && r.ws.tree.Keys == ws.tree.Keys + {file}
      && r.ws.tree[file] == text
      && (forall p :: p in ws.tree && p != file ==> r.ws.tree[p] == ws.tree[p])
      && r.effects == [Persist(r.ws.tree)] + (if ws.container then [SandboxWrite(file, text)] else [])
    ensures r.ws.(tree := ws.tree) == ws
  {
    if !Editing(ws) then Step(ws, [])
    else
      var file := ws.tabs.current.value;
      var tree := Upsert(ws.tree, file, text);
      Step(ws.(tree := tree), [Persist(tree)] + if ws.container then [SandboxWrite(file, text)] else [])
  }

  /** The reply of the UI generation request. */
  datatype GenerateReply =
    | Generated(fileTree: Option<Entries>)   // `result.fileTree`, in key order
    | RequestFailed

  /** The generated tree's first path, when it is truthy (`if (firstFile)`). */
  function FirstTruthyPath(entries: Entries): Option<Path>
  {
    if |entries| > 0 && entries[0].0 != "" then Some(entries[0].0) else None
  }

  /** A generated tree arriving: it is merged in, incoming files winning,
      and its first (truthy) path becomes current with a tab. */
  function MergeGenerated(ws: Workspace, entries: Entries): (r: Workspace)
    ensures var incoming := ToTree(entries);
      && r.tree.Keys == ws.tree.Keys + incoming.Keys
      && (forall p :: p in incoming ==> r.tree[p] == incoming[p])
      && (forall p :: p in ws.tree && p !in incoming ==> r.tree[p] == ws.tree[p])
    ensures FirstTruthyPath(entries).Some? ==>
      var first := FirstTruthyPath(entries).value;
      && r.tabs == Tabs.Open(ws.tabs, first)
      && first in r.tree
      && (Valid(ws) ==> r.tabs.open == if first in ws.tabs.open then ws.tabs.open else ws.tabs.open + [first])
      && (Valid(ws) ==> multiset(r.tabs.open)[first] == 1)
    ensures FirstTruthyPath(entries).None? ==> r.tabs == ws.tabs
    ensures Valid(ws) ==> Valid(r)
    ensures r.(tree := ws.tree, tabs := ws.tabs) == ws
  {
    ToTreeKeys(entries);
    var merged := ws.(tree := Merge(ws.tree, ToTree(entries)));
    match FirstTruthyPath(entries)
    case None => merged
    case Some(first) =>
      AddTabToDistinct(ws.tabs.open, first);
      merged.(tabs := Tabs.Open(ws.tabs, first))
  }

  /** An uploaded picture: it is shown in the transcript; a generated tree
      is merged in and a notice reports success; a failed request leaves
      the files alone and a notice reports the failure. Nothing is
      persisted. */
  function ImageUpload(ws: Workspace, user: User, image: Option<string>, reply: GenerateReply): (r: Workspace)
    ensures image.None? ==> r == ws
    ensures image.Some? ==>
      && |r.transcript| >= |ws.transcript| + 1
      && r.transcript[..|ws.transcript| + 1] == ws.transcript + [Message(user, Picture(image.value))]
    ensures image.Some? && reply == Generated(None) ==>
      r == ws.(transcript := ws.transcript + [Message(user, Picture(image.value))])
    ensures image.Some? && reply.Generated? && reply.fileTree.Some? ==>
      && r.(transcript := ws.transcript) == MergeGenerated(ws, reply.fileTree.value)
      && r.transcript == ws.transcript + [Message(user, Picture(image.value)), GeneratedNotice]
    ensures image.Some? && reply.RequestFailed? ==>
      r == ws.(transcript := ws.transcript + [Message(user, Picture(image.value)), GenerateFailedNotice])
    ensures Valid(ws) ==> Valid(r)
  {
    match image
    case None => ws
    case Some(data) =>
      var shown := ws.transcript + [Message(user, Picture(data))];
      match reply
      case RequestFailed => ws.(transcript := shown + [GenerateFailedNotice])
      case Generated(None) => ws.(transcript := shown)
      case Generated(Some(entries)) =>
        MergeGenerated(ws, entries).(transcript := shown + [GeneratedNotice])
  }

  /** `send`: a blank draft does nothing; otherwise the draft is broadcast
      and appended to the transcript as it is (untrimmed), the input is
      cleared, and a draft addressed to the agent starts the wait for it. */
  function Send(ws: Workspace, user: User): (r: Step)
    ensures Blank(ws.draft) ==> r == Step(ws, [])
    ensures !Blank(ws.draft) ==>
      var m := Message(user, Words(ws.draft));
      && r.effects == [Broadcast(m)]
      && r.ws.transcript == ws.transcript + [m]
      && r.ws.draft == ""
      && (r.ws.waitingForAi <==> ws.waitingForAi || AddressesAgent(ws.draft))
    ensures r.ws.(transcript := ws.transcript, draft := ws.draft, waitingForAi := ws.waitingForAi) == ws
  {
    if Blank(ws.draft) then Step(ws, [])
    else
      var m := Message(user, Words(ws.draft));
      Step(ws.(transcript := ws.transcript + [m], draft := "",
               waitingForAi := ws.waitingForAi || AddressesAgent(ws.draft)),
           [Broadcast(m)])
  }

  /** The `project-message` handler. `decoded` is the outcome of parsing an
      agent message; `containerSeen` is the sandbox as the handler sees it.
      A human message is appended unchanged. An agent message that parses
      is appended and, when it carries a tree, that tree replaces the whole
      store; one that does not parse is dropped. Either way the wait for
      the agent ends. */
  function Receive(ws: Workspace, data: Message, decoded: Decoded, containerSeen: bool): (r: Step)
    ensures !FromAgent(data) ==> r == Step(ws.(transcript := ws.transcript + [data]), [])
    ensures FromAgent(data) ==> !r.ws.waitingForAi
    ensures FromAgent(data) && decoded.Undecodable? ==>
      r.ws.transcript == ws.transcript && r.ws.tree == ws.tree && r.effects == []
    ensures FromAgent(data) && decoded.Decoded? ==>
      && r.ws.transcript == ws.transcript + [data]
      && (decoded.envelope.fileTree.Some? ==> r.ws.tree == decoded.envelope.fileTree.value)
      && (decoded.envelope.fileTree.None? ==> r.ws.tree == ws.tree)
      && r.effects == if containerSeen then [SandboxMount(decoded.envelope.fileTree)] else []
    ensures !containerSeen ==> r.effects == []
    ensures r.ws.(tree := ws.tree, transcript := ws.transcript, waitingForAi := ws.waitingForAi) == ws
  {
    if !FromAgent(data) then Step(ws.(transcript := ws.transcript + [data]), [])
    else
      match decoded
      case Undecodable => Step(ws.(waitingForAi := false), [])
      case Decoded(env) =>
        var tree := if env.fileTree.Some? then env.fileTree.value else ws.tree;
        Step(ws.(tree := tree, transcript := ws.transcript + [data], waitingForAi := false),
             if containerSeen then [SandboxMount(env.fileTree)] else [])
  }

  /** The project fetched from the backend: its tree (or an empty one)
      replaces the store. */
  function Fetched(ws: Workspace, fileTree: Option<Tree>): (r: Workspace)
    ensures fileTree.Some? ==> r.tree == fileTree.value
    ensures fileTree.None? ==> r.tree == map[]
    ensures r.(tree := ws.tree) == ws
  {
    ws.(tree := Received(fileTree))
  }

  /** The sandbox has booted. */
  function ContainerBooted(ws: Workspace): (r: Workspace)
    ensures r.container
    ensures r.(container := ws.container) == ws
  {
    ws.(container := true)
  }

  /** `handleUserClick`. */
  function ClickUser(ws: Workspace, id: string): (r: Workspace)
    ensures id in r.selected <==> id !in ws.selected
    ensures forall other :: other != id ==> (other in r.selected <==> other in ws.selected)
    ensures r.(selected := ws.selected) == ws
  {
    ws.(selected := Toggle(ws.selected, id))
  }

  /** The run button's effect on the workspace, with the sandbox trace. */
  datatype RunStep = RunStep(ws: Workspace, trace: seq<Event>)

  /** `handleRunClick`: the store is only read; a run that starts the
      server records its process and registers the readiness listener;
      any other run leaves the workspace as it was. */
  function RunClick(ws: Workspace, sandbox: Sandbox): (r: RunStep)
    ensures r.ws.tree == ws.tree
    ensures !ws.container ==> r == RunStep(ws, [])
    ensures FollowsProtocol(ws.runProcess, r.trace)
    ensures r.trace == RunPipeline(ws.container, ws.runProcess, ws.tree, sandbox).trace
    ensures RunPipeline(ws.container, ws.runProcess, ws.tree, sandbox).outcome.Running? ==>
      r.ws == ws.(runProcess := Some(sandbox.start.pid), readyListener := true)
    ensures !RunPipeline(ws.container, ws.runProcess, ws.tree, sandbox).outcome.Running? ==> r.ws == ws
    ensures r.ws.runProcess.Some? && r.ws.runProcess != ws.runProcess ==>
      && r.ws.readyListener
      && |r.trace| >= 3
      && r.trace[|r.trace| - 3..] == [Spawned(Start, r.ws.runProcess.value), Recorded(r.ws.runProcess.value), ListeningForReady]
    ensures r.ws.(runProcess := ws.runProcess, readyListener := ws.readyListener) == ws
  {
    var run := RunPipeline(ws.container, ws.runProcess, ws.tree, sandbox);
    RunningIff(ws.container, ws.runProcess, ws.tree, sandbox);
    match run.outcome
    case Running(s) => RunStep(ws.(runProcess := Some(s), readyListener := true), run.trace)
    case _ => RunStep(ws, run.trace)
  }

  /** The sandbox reports a server at `url`: with a listener registered,
      the preview shows that address. */
  function ServerReady(ws: Workspace, port: int, url: string): (r: Workspace)
    ensures ws.readyListener ==> r.previewUrl == Some(url) && r.view == Preview
    ensures !ws.readyListener ==> r == ws
    ensures r.(previewUrl := ws.previewUrl, view := ws.view) == ws
  {
    if ws.readyListener then ws.(previewUrl := Some(url), view := Preview) else ws
  }

  /** A full lifecycle: a one-page project runs (install exits 0), the
      server reports ready, and the preview shows its address. */
  lemma FullLifecycle()
    ensures var tree := map["index.html" := "<h1>hi</h1>"];
            var ws := ContainerBooted(Initial).(tree := tree);
            var sandbox := Sandbox(true, true, Started(1), Some(0), Started(2));
            var run := RunClick(ws, sandbox);
            var after := ServerReady(run.ws, 3000, "http://x");
      && run.trace == [Mounted(MountedFiles(tree)), Spawned(Install, 1), Exited(1, 0),
                       Spawned(Start, 2), Recorded(2), ListeningForReady]
      && after.runProcess == Some(2)
      && after.previewUrl == Some("http://x")
      && after.view == Preview
      && after.tree == tree
  {
  }

  /** Running again while a server runs kills it first, exactly once. */
  lemma RerunKillsFirst(ws: Workspace, sandbox: Sandbox, pid: Pid)
    requires ws.container && ws.runProcess == Some(pid) && sandbox.killOk && sandbox.mountOk
    ensures var t := RunClick(ws, sandbox).trace;
      && |t| >= 2
      && t[0] == Killed(pid)
      && t[1] == Mounted(MountedFiles(ws.tree))
      && forall i :: 0 < i < |t| ==> !t[i].Killed?
  {
  }

  /** An agent tree replaces the store: files it does not mention are gone,
      not kept as a merge would keep them. */
  lemma AgentTreeReplaces(ws: Workspace)
    requires "index.html" in ws.tree
    ensures var incoming := map["a.js" := "x"];
            var r := Receive(ws, Message(Agent, Words("{}")), Decoded(Envelope(None, Some(incoming))), false);
      && r.ws.tree == incoming
      && "index.html" !in r.ws.tree
  {
  }
}
