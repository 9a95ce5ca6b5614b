# Project workspace model

A Dafny model of the state logic of the `Project` screen of a collaborative
coding workspace (`src/screens/Project.jsx`). On that screen, people and an
AI agent edit a flat tree of files, chat over a socket and run the project
in a browser sandbox. The React component is modelled as one immutable
`Workspace` record. Each event handler becomes a pure function that returns
the new record and the outbound calls it makes: persisting the tree,
broadcasting a chat message, or writing into or mounting the sandbox. The
run button is modelled as a function over an abstract sandbox. It returns
the trace of the completed steps of the run and the point where the run
stopped.

Modules:
- `Wrappers`: `Option`, which stands for JavaScript `null`.
- `Strings`: ASCII lower-casing, `split('.').pop()`, `includes`,
  `startsWith`, and the whitespace that `trim` removes.
- `Language`: `getFileLanguage` and the new-file starter contents. Each comes
  both as written and as intended (see Findings).
- `FileTree`: the store (`map<string,string>`), with upsert, merge and
  replace, and the last-writer-wins account of any sequence of updates.
- `Tabs`: the open-file list, `[...new Set(...)]`, closing a tab and the
  current file.
- `Collaborators`: selecting users to invite and searching users by e-mail.
- `Chat`: messages, the agent identity, and the `@ai` prefix test.
- `Runner`: `handleRunClick` as an ordered protocol over the sandbox.
- `Project`: the workspace record and every handler.

The model follows the code, including these behaviours a reader might not
expect:
- An agent message that carries `fileTree` replaces the whole store. It does
  not merge (`Project.AgentTreeReplaces`).
- An agent message that fails to parse leaves the transcript unchanged. No
  placeholder entry is added.
- Only the new-file button and the editor's blur persist the tree. The
  image-generated merge, the agent's replacement and the backend fetch do
  not.
- A generated UI always makes its first file current, even when another file
  is already open.
- The install's exit status is ignored (`Runner.InstallStatusIgnored`).
- The send button is disabled while waiting for the agent, but Enter still
  sends, so `Project.Send` has no such guard.
- The socket handler is registered once, in an effect with no dependencies.
  It therefore sees the sandbox of the first render, which is `null`, so the
  mount on line 290 never happens. `Project.Receive` takes the sandbox as
  the handler sees it as a parameter (`containerSeen`); its contract says
  that with `containerSeen` false there are no effects.

## Model

| member | source | states |
|---|---|---|
| Strings.AfterLastDotIsLastSegment | src/screens/Project.jsx:26 | the extension text is the longest dot-free suffix of the name: a suffix, with no dot, that is either the whole name or preceded by a dot |
| Language.FileLanguage | src/screens/Project.jsx:25-35 | html, css and json map to themselves, js and jsx map to javascript, and every other extension maps to plaintext (each as an iff); the result is one of the five names |
| Language.LanguageAsWrittenAgrees | src/screens/Project.jsx:25-35 | except for inherited property names, the object lookup as written returns the same language as the intended one |
| Language.UpperCaseExtension | src/screens/Project.jsx:26 | the extension ignores case: `index.HTML` is html |
| Language.NestedPathExtension | src/screens/Project.jsx:26 | only the text after the last dot counts: `src/App.jsx` is javascript |
| Language.DotlessAndTrailingDot | src/screens/Project.jsx:26-34 | a name with no dot is its own extension (`js` is javascript); a trailing dot gives plaintext |
| Language.ConstructorFileHasNoLanguage | src/screens/Project.jsx:27-34 | for `index.constructor`, the lookup as written returns the inherited `Object` constructor, not a language name |
| Language.ProtoFileHasNoLanguage | src/screens/Project.jsx:27-34 | for `page.__proto__`, the lookup as written does not return a string |
| Language.Template | src/screens/Project.jsx:545-552 | a new html, css or js file gets that starter text; every other extension, including jsx and json, gets the empty string (each as an iff) |
| Language.TemplateAsWrittenAgrees | src/screens/Project.jsx:545-552 | except for inherited property names, the starter lookup as written agrees with the intended one |
| Language.ConstructorFileGetsNoTemplate | src/screens/Project.jsx:545-552 | the lookup as written gives a new file named `x.constructor` the inherited `Object` constructor as its contents |
| Collaborators.Toggle | src/screens/Project.jsx:121-131 | the clicked id's membership flips and every other id's membership is unchanged |
| Collaborators.ToggleTwice | src/screens/Project.jsx:121-131 | clicking the same user twice restores the selection |
| Collaborators.FilterUsers | src/screens/Project.jsx:409-411 | a user is listed iff the query occurs in their e-mail address, ignoring case |
| Collaborators.FilterUsersAppend | src/screens/Project.jsx:409-411 | filtering distributes over concatenation, so listed users keep their relative order |
| Collaborators.EmptyQueryKeepsAll | src/screens/Project.jsx:409-411 | an empty search lists every user, in order |
| Collaborators.QueryCaseIrrelevant | src/screens/Project.jsx:409-411 | the query's letter case does not change the result |
| Tabs.Dedup | src/screens/Project.jsx:563 | `[...new Set(s)]` has no repeats and holds exactly the elements of `s` |
| Tabs.FirstIndex | src/screens/Project.jsx:563 | the position of an element's first occurrence: it holds the element and nothing before it does |
| Tabs.FirstIndexOfPrefix | src/screens/Project.jsx:563 | a first occurrence inside a prefix is the first occurrence in the whole list |
| Tabs.DedupKeepsFirstOccurrenceOrder | src/screens/Project.jsx:563 | `[...new Set(s)]` lists its elements in the order of their first occurrence in `s` |
| Tabs.DedupOfDistinct | src/screens/Project.jsx:563 | deduplicating a list with no repeats returns the list unchanged |
| Tabs.AddTab | src/screens/Project.jsx:575 | after opening a tab, the tabs are distinct, include the file, and hold exactly the old tabs plus the file |
| Tabs.AddTabToDistinct | src/screens/Project.jsx:575 | if the tabs were distinct: opening an open file changes nothing, opening another file appends it, and the file appears exactly once |
| Tabs.RemoveAll | src/screens/Project.jsx:135 | after closing, the closed file is gone and every other file keeps its number of occurrences |
| Tabs.RemoveAllAppend | src/screens/Project.jsx:135 | closing distributes over concatenation, so the remaining tabs keep their order |
| Tabs.RemoveAllDistinct | src/screens/Project.jsx:135 | closing a tab keeps the tabs distinct |
| Tabs.FirstTab | src/screens/Project.jsx:138 | the new current file is the first remaining tab, or none when no tab is left or the first tab's name is the (falsy) empty string |
| Tabs.Close | src/screens/Project.jsx:134-140 | closing a current file hands over to the first remaining tab; any other current file stays; the closed file is never current afterwards |
| Tabs.CloseKeepsValid | src/screens/Project.jsx:134-140 | closing keeps the tabs distinct and the current file among them |
| FileTree.Upsert | src/screens/Project.jsx:638-645 | one path gets the new contents and every other path is untouched |
| FileTree.Merge | src/screens/Project.jsx:173-176 | the merge is the key-wise union, with incoming values winning and the rest keeping their old contents |
| FileTree.Received | src/screens/Project.jsx:306 | a fetched tree replaces the store, and a missing tree empties it |
| FileTree.ToTreeKeys | src/screens/Project.jsx:175 | the object built from ordered entries has exactly the paths they name |
| FileTree.ToTreeLastWins | src/screens/Project.jsx:175 | a path named more than once holds the value of its last entry |
| FileTree.ApplyAllIsLatestWrite | src/screens/Project.jsx:172-182 | after any sequence of upserts, merges and replacements, a path holds exactly the value of its latest write; it is absent if a later replacement omitted it or nothing wrote it |
| FileTree.ReplaceIdempotent | src/screens/Project.jsx:306 | replacing twice with the same tree gives the same store as replacing once |
| Chat.AddressesAgentIff | src/screens/Project.jsx:232 | a draft is addressed to the agent iff it starts with `@` followed by `a` and `i` in either case |
| Runner.MountedFiles | src/screens/Project.jsx:353-361 | the mounted files are the store plus `server.js` and `package.json`; those two override same-named user files and every other path keeps its contents |
| Runner.MountOverridesUserFiles | src/screens/Project.jsx:353-361 | a user's own `server.js` has no effect on what is mounted |
| Runner.FromMount | src/screens/Project.jsx:353-389 | the run from the mount on follows the protocol, starting at the mount; every mount carries the given files; it reaches a running server exactly when the mount, both spawns and the install's exit all happen, and then the trace is mount, install, exit, start, record, listen |
| Runner.RunPipeline | src/screens/Project.jsx:317-389 | without a container, nothing happens; otherwise the trace goes through kill, mount, install spawn, install exit, start spawn, record and listen, one step at a time, never skipping or repeating a step |
| Runner.RanksGrow | src/screens/Project.jsx:317-389 | along a protocol trace, each step's position rises by exactly its distance from an earlier step |
| Runner.RunningIff | src/screens/Project.jsx:322-389 | the server is started iff there is a container and the kill (if needed), mount, both spawns and the install's exit all succeed; the trace then ends with start, record and listen |
| Runner.StopsAtFirstFailure | src/screens/Project.jsx:321-393 | a failed run stops at the first awaited step the sandbox refuses (kill, mount, install spawn, start spawn), reaching the `catch`; it waits forever exactly when the install spawned but never exits |
| Runner.StoppedRunEnds | src/screens/Project.jsx:321-393 | a stopped run's trace ends with the last completed step: nothing after a refused kill, only the kill (if any) after a refused mount, the mount after a refused install, the install spawn while waiting, the install's exit after a refused start |
| Runner.TraceContents | src/screens/Project.jsx:322-374 | every kill is of the previous process; every mount carries the store plus the synthesized files; the start spawn comes right after an exit |
| Runner.FromMountPids | src/screens/Project.jsx:363-374 | from the mount on, the install spawn carries the pid the sandbox gave the install, the awaited exit is that process's with its exit code, and the start spawn carries the start's pid |
| Runner.TracePids | src/screens/Project.jsx:363-374 | in every run, the install spawn carries the install's pid, the exit awaited is that process's with its exit code, and the start spawn carries the start's pid |
| Runner.KillBeforeMount | src/screens/Project.jsx:322-361 | a previous process is killed exactly once, before any mount, and is the first event; with no previous process, nothing is killed |
| Runner.InstallStatusIgnored | src/screens/Project.jsx:363-374 | any two install exit codes give the same outcome, and the same trace apart from the exit event |
| Runner.StartWaitsForInstall | src/screens/Project.jsx:363-374 | in a started run, the install is spawned, then its exit is seen, then start is spawned, back to back |
| Project.OpenFile | src/screens/Project.jsx:573-576 | the clicked file becomes current and gets a tab (appended only if new); the tab invariant holds; nothing else changes |
| Project.CloseFile | src/screens/Project.jsx:134-140 | the file's tabs are removed and the other tabs keep their counts and their order (the result is `Tabs.Close`, whose list is `RemoveAll`, which `RemoveAllAppend` shows to work piecewise); a closed current file hands over to the first remaining tab, any other current file stays; the invariant is kept; nothing else changes |
| Tabs.CloseFirstOfThree | src/screens/Project.jsx:134-140 | closing the current first tab of `a, b, c` leaves `b, c` with `b` current |
| Project.NewFile | src/screens/Project.jsx:541-564 | a cancelled or empty name changes nothing; otherwise the tree gains the file with its starter contents and other paths are untouched; the persisted tree is the stored tree; the file is current; on valid tabs the other tabs stay in order and the file is appended only if it was not open, so it has exactly one tab |
| Project.EditOnBlur | src/screens/Project.jsx:628-653 | the blur can only happen in the code view with a truthy current file, and otherwise changes nothing; only the current file's contents change, to the edited text; the outbound calls are exactly one persist of the stored tree, followed by a sandbox write of the same path and text only when a sandbox exists |
| Project.MergeGenerated | src/screens/Project.jsx:172-182 | the tree becomes the key-wise union with incoming files winning and other paths keeping their contents; a truthy first path becomes current and is in the tree; on valid tabs the other tabs stay in order and that path is appended only if it was not open, so it has exactly one tab; otherwise the tabs are unchanged |
| Project.ImageUpload | src/screens/Project.jsx:143-211 | the picture is appended first; a generated tree is merged in and a success notice follows; a reply without a tree adds nothing more; a failed request leaves everything but the transcript alone and adds the failure notice |
| Project.Send | src/screens/Project.jsx:227-247 | a blank draft does nothing; otherwise the broadcast message is the one appended, the input is cleared, and the agent wait is set iff it was already set or the draft starts with `@ai` |
| Project.Receive | src/screens/Project.jsx:284-301 | a human message is appended unchanged; a parsed agent message is appended and its tree, if any, replaces the store; an unparseable one is dropped; the agent wait ends after any agent message |
| Project.Fetched | src/screens/Project.jsx:303-307 | the fetched project's tree, or an empty one, replaces the store and nothing else changes |
| Project.ContainerBooted | src/screens/Project.jsx:277-281 | the sandbox becomes available and nothing else changes |
| Project.ClickUser | src/screens/Project.jsx:121-131 | the clicked id's selection flips and nothing else changes |
| Project.RunClick | src/screens/Project.jsx:317-394 | the store is only read; the trace is the run pipeline's and follows the protocol; when the server starts, the started process is recorded (line 382) and the readiness listener registered (line 384), and nothing else changes; any other run leaves the workspace unchanged |
| Project.ServerReady | src/screens/Project.jsx:384-389 | with a listener registered, the preview shows the reported address; nothing else changes |
| Project.FullLifecycle | src/screens/Project.jsx:317-389 | mounting a one-page project, an install exiting 0, a start, and readiness at `http://x` leave the preview on `http://x` with the process recorded |
| Project.RerunKillsFirst | src/screens/Project.jsx:322-361 | re-running while a server runs kills it first, exactly once, then mounts |
| Project.AgentTreeReplaces | src/screens/Project.jsx:291-293 | an agent tree `{a.js: x}` leaves only `a.js`, and an existing `index.html` is gone |
| Project.InitialValid | src/screens/Project.jsx:53-61 | the initial empty workspace satisfies the tab invariant |

## Findings

| source | as written | input that shows it | evidently intended | confidence | as-written member | corrected member |
|---|---|---|---|---|---|---|
| src/screens/Project.jsx:27-34 | the language table is read with `obj[ext] \|\| 'plaintext'` on an object literal, which also finds inherited `Object.prototype` members | a file named `index.constructor` (or `page.__proto__`) | only the table's own keys; everything else is plaintext | medium; not executed | Language.ConstructorFileHasNoLanguage | Language.FileLanguage |
| src/screens/Project.jsx:545-552 | the starter-contents table is read the same way, with `''` as the fallback | creating a file named `x.constructor` | the empty string for unknown extensions | medium; not executed | Language.ConstructorFileGetsNoTemplate | Language.Template |

Both the as-written lookups (`Language.FileLanguageAsWritten`, `Language.TemplateAsWritten`) and the corrected ones are defined. The rest of the model uses the corrected ones.

## Left out

- Presentation: the JSX, the styling, Markdown rendering of agent messages, syntax highlighting, the loading overlay (`isLoading`), and the modal and side-panel toggles.
- Speech capture (`handleMicClick`, the speech recognition effect): it is a browser API. Line 102 also reads an undefined `me`.
- The file-explorer toggle and its `localStorage` persistence: it is a browser API.
- Reading the picture with `FileReader`: the model takes the resulting data URL as its input.
- The REST calls themselves. `saveFileTree` is the `Persist` effect. The UI generation request, the project fetch and the user list are modelled by their replies. `addCollaborators` (sending the selection) and `setProject` are not modelled.
- The socket transport. A broadcast is the `Broadcast` effect; a delivery is a call to `Project.Receive`.
- `JSON.parse` of agent messages: its outcome is a parameter (`Chat.Decoded`).
- Sandbox internals: mount, spawn and file-system semantics, and the output streams. The sandbox's answers are a parameter (`Runner.Sandbox`).
- An install exit promise that rejects: the run would wait forever. This is the same as an install that never exits (`installExit == None`).
- Concurrency: the interleaving of React state updates and the several `server-ready` listeners registered across runs. All listeners do the same thing, so one flag stands for them.
- Clicking a tab (line 595), the preview/code toggle (line 612) and editing the preview address (line 678): each sets a single field.
- The order of JavaScript object keys: `FileTree.Entries` lists paths in arrival order, and `Project.FirstTruthyPath` takes the first of them. JavaScript's `Object.keys` would list integer-like keys (such as `"1"`) first; the model does not.
- Collaborators.FilterUsers: lower-cases only ASCII letters. `toLowerCase` also maps other letters.
- Chat.AddressesAgentIff: lower-cases only ASCII letters. `toLowerCase` also maps `İ` (U+0130) to a string that starts with `i`.
- Language.FileLanguage: lower-cases only ASCII letters when taking the extension.
