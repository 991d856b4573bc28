# vox agent core, modelled in Dafny

vox is a terminal assistant. Its agent is a tool-calling loop around a chat
completion model. A call of `agent(userInput)` appends the user's message to a
module-level conversation. It then asks the model for a completion at most 20
times:

- On `tool_calls`, it runs the first requested tool from the `availableTools`
  table, with the arguments bound by position, and appends the result as a
  `function` message.
- On `stop`, it appends the model's message and returns its text.
- On anything else, it does nothing with that iteration.

After 20 iterations without an answer, it returns a fixed apology. The tools
act on a per-session workspace directory: file and folder CRUD, `npm init` /
`npm install`, and two HTTP lookups. The command-line front end adds a
coloured header, a `.gitignore`-aware directory summary, an `.env` check and
a slash-command router.

The model is a set of pure functions over immutable data, with these modules:

- `Common`: `Option` and `Result`.
- `Text`: the JavaScript string operations the code uses, such as `split`,
  `join`, `trim`, ASCII `toLowerCase` and `repeat`.
- `Js`: parsed JSON values, `Object.values`, template-literal rendering, and
  Node's "Received ..." argument descriptions.
- `Workspace`: the file system as a map from absolute paths (segment
  sequences) to nodes. It covers `path.join` as POSIX normalisation and
  `writeFile`, `readFile`, `unlink`, recursive `mkdir` and `rmdir`, and
  `readdir`, each with the Node error it raises. It also covers workspace
  creation from a fresh uid. `WorkspaceFacts` proves the store invariant
  (every entry's parent is a directory) and the path-resolution facts.
- `Tools`: the `tools` catalog, the `availableTools` lookup, and every
  handler. `ToolsFacts` proves that the catalog and the handlers agree, the
  CRUD round trips, the npm classification, positional argument binding, and
  preservation of the store invariant.
- `AgentLoop`: one iteration (`StepOn`), the loop (`Loop`), and `agent`
  (`Agent`). The model is an oracle: a sequence of rounds, each holding the
  completion the model answers in that iteration and the outside world the
  handlers see (the outcome of a child process, of a `fetch`, or of an
  inherited `Object.prototype` member). `AgentFacts` proves the loop
  properties: conversation growth, what each request carries, iteration
  bound and termination, first-call-only dispatch, error capture, and
  workspace invariants across turns.
- `Cli` and `CliFacts`: `colorizeCapitals`, `getRedLine`, `readGitIgnore`,
  `checkEnvVariable`, `summarizeDirectory` over a directory tree, and the
  `line` command router.

In these places the model follows the code as written:

- Each tool iteration adds exactly one message to the conversation, the
  `function` result. The assistant's tool-call message is not appended.
- Arguments bind by position in `Object.values` order, not in schema order.
  That is JavaScript property order: integer-like keys first, in ascending
  order, then the other keys in the order they first appear. A repeated key
  keeps its first position and takes its last value.
- A tool name missing from `availableTools` is not refused up front. Calling
  `apply` on `undefined` raises a TypeError inside the `try`, and it is
  recorded as `Error executing <name>: ...`.
- A name such as `toString`, inherited from `Object.prototype`, does resolve
  to a function.
- Malformed or `null` arguments make `agent` reject, because `JSON.parse` and
  `Object.values` sit outside the `try`.
- `path.join` is not checked against the workspace root.
  `WorkspaceFacts.ResolveReachesAnyPath` shows that a relative argument can
  name any absolute path.

## Model

| member | source | states |
|---|---|---|
| AgentLoop.StepOn | src/ai-agent-0922.js:353-379 | An iteration ends the turn exactly when the completion throws (gateway failure; `tool_calls` with an empty list, unparsable or `null` arguments) or stops. A stop answers with the message's content and appends exactly that message. A throw appends nothing. A dispatching completion appends one `function` message named after the first tool call. Any other completion leaves the workspace alone and appends nothing. |
| AgentLoop.Loop | src/ai-agent-0922.js:346-381 | The conversation only grows: the result extends the conversation it started from. From the old end on, it holds one `function` message per dispatched tool, in dispatch order. Iterations `i..19` make at most `20 - i` model requests. |
| AgentLoop.Agent | src/ai-agent-0922.js:340-351 | The user's message is appended once, before any request. The first request sends the old conversation plus that message. A turn makes between 1 and 20 requests. |
| AgentFacts.LoopGrowth | src/ai-agent-0922.js:346-380 | A turn adds exactly one message per dispatched tool, plus one when it answers. That last message is the assistant's, carrying the answer returned. |
| AgentFacts.RequestsCarryHistory | src/ai-agent-0922.js:346-351 | Every request of a turn sends the conversation as it stood when the turn began, followed by what the turn added so far. The first request sends exactly the starting conversation. |
| AgentFacts.RequestsWithinHistory | src/ai-agent-0922.js:346-378 | Every request is a prefix of the conversation the turn leaves behind. |
| AgentFacts.OneCallPerRequest | src/ai-agent-0922.js:356-375 | A turn dispatches at most one tool per model request. |
| AgentFacts.ExhaustedIffNoneEnds | src/ai-agent-0922.js:346-381 | The turn returns the fixed apology if and only if no completion of the remaining iterations throws or stops. In that case it made a request in every remaining iteration. |
| AgentFacts.FirstEndingRoundDecides | src/ai-agent-0922.js:346-379 | The first completion that throws or stops decides the turn. The loop made one request per iteration up to it. If that completion throws, the turn rejects with its error: the gateway's, the TypeError of a missing first call, the `JSON.parse` error, or the TypeError of `Object.values(null)`. Otherwise the turn answers with that completion's content, and its message is the last one of the conversation. |
| AgentFacts.IgnoredCompletionSkips | src/ai-agent-0922.js:356-380 | A completion that neither ends the turn nor dispatches (another finish reason, or `tool_calls` without a list) costs one request. Outcome, conversation, workspace, dispatches and outside requests are those of the rest of the loop. |
| AgentFacts.DispatchRecorded | src/ai-agent-0922.js:359-375 | A dispatching completion always lets the loop go on. It records one `function` message under the called name: the handler's value when the handler resolves, `Error executing <name>: <message>` when it rejects. The workspace and the outside requests are the handler's. |
| AgentFacts.UnknownToolRecorded | src/ai-agent-0922.js:359-369 | A name that is not a property of `availableTools` is recorded as `Error executing <name>: Cannot read properties of undefined (reading 'apply')`. The loop goes on, with the workspace unchanged and nothing run. |
| AgentFacts.OnlyFirst | src/ai-agent-0922.js:356-357 | Keeping only the first tool call of a completion keeps its external world. It also keeps whether the completion throws, stops or dispatches. |
| AgentFacts.OnlyFirstCallMatters | src/ai-agent-0922.js:356-375 | Dropping every tool call but the first from every completion leaves the whole turn unchanged: outcome, conversation, workspace, requests, dispatches and effects. |
| AgentFacts.LoopKeeps | src/ai-agent-0922.js:346-380 | Any workspace invariant that the handlers and the outside world preserve is preserved by a whole turn. |
| AgentFacts.AgentKeepsWellFormed | src/ai-agent-0922.js:340-382 | A call of `agent` leaves a well-formed file system well formed, provided the npm child processes do. |
| AgentFacts.TurnsAccumulate | src/ai-agent-0922.js:333-344 | Conversation state persists across calls, whatever workspace each call runs in. The system prompt stays at index 0 and the first user message at index 1. The next call's first request carries the previous call's whole conversation plus the new user message. |
| Tools.Search | src/ai-agent-0922.js:319-331 | Looking a name up among the handlers finds a handler registered under that name. It finds none exactly when no handler has that name. |
| ToolsFacts.InvokeRuns | src/ai-agent-0922.js:359-369 | Dispatching a handler's own property name runs exactly that handler, on the same arguments, workspace and outside world. |
| ToolsFacts.LookupName | src/ai-agent-0922.js:319-331 | Each handler is reached through its own property name. |
| ToolsFacts.CatalogMatchesHandlers | src/ai-agent-0922.js:165-331 | Every name declared in `tools` has a same-named own handler. That handler's parameters are the schema's properties, in order. No name is declared twice, and every handler is declared. |
| ToolsFacts.OwnHandlerIffDeclared | src/ai-agent-0922.js:319-331 | A name reaches an own handler if and only if the catalog declares it, and then it reaches the handler of that name. |
| ToolsFacts.PathArgInside | src/ai-agent-0922.js:115-116 | A string path argument with no `..` segment names a path at or below the workspace root. Any other argument is rejected with Node's "path argument must be of type string. Received ..." error, describing what was received. |
| Tools.Npm | src/ai-agent-0922.js:55-88 | The npm handlers always resolve with text. They run exactly their command, in the workspace root. |
| ToolsFacts.NpmClassification | src/ai-agent-0922.js:55-88 | The text says which case happened. It starts "Error running npm" exactly when the command failed, "encountered warnings/errors" exactly when it succeeded with stderr output, and "completed successfully" exactly when stderr was empty. In that last case the text ends with stdout. |
| Tools.Write | src/ai-agent-0922.js:115-131 | The write handlers make no outside requests. A write that rejects leaves the workspace unchanged. |
| Tools.Change | src/ai-agent-0922.js:133-149 | The unlink, mkdir and rmdir handlers make no outside requests. One that rejects leaves the workspace unchanged. |
| ToolsFacts.CreateThenRead | src/ai-agent-0922.js:115-125 | After `createFile(p, c)` succeeds, `readFile(p)` returns `c`. |
| ToolsFacts.CreateFileFrame | src/ai-agent-0922.js:115-119 | A successful `createFile` changes the joined path and no other. |
| ToolsFacts.UpdateActsAsCreate | src/ai-agent-0922.js:115-131 | `updateFile` leaves the same workspace as `createFile` and fails in the same cases with the same error. Only its confirmation text differs. |
| ToolsFacts.DeleteThenReadFails | src/ai-agent-0922.js:121-137 | After `deleteFile(p)` succeeds, `readFile(p)` rejects with ENOENT at the joined path. |
| ToolsFacts.DeleteFolderRemovesSubtree | src/ai-agent-0922.js:145-149 | After `deleteFolder(p)` succeeds, exactly the paths at or below the joined path are gone. |
| ToolsFacts.MissingPathArgument | src/ai-agent-0922.js:115-149 | A file tool called without arguments rejects with Node's "path argument must be of type string. Received undefined" error, and changes nothing. |
| ToolsFacts.WeatherBindsByPosition | src/ai-agent-0922.js:157-158 | When the model lists `longitude` before `latitude`, the longitude value is fetched as the latitude. |
| ToolsFacts.KeysIgnored | src/ai-agent-0922.js:360-366 | Property names play no part in a dispatch. Argument objects with the same values in the same order dispatch alike. |
| ToolsFacts.ExtraArgumentsIgnored | src/ai-agent-0922.js:360-366 | Arguments past a handler's declared parameters change nothing. |
| ToolsFacts.InvokeKeepsWellFormed | src/ai-agent-0922.js:115-149 | Every dispatch leaves a well-formed file system well formed, provided the child process of an npm tool does. |
| Js.ObjectValues | src/ai-agent-0922.js:361 | `Object.values` throws exactly on `null`. It lists an object's values in property order, an array's elements, and a string's characters. |
| ToolsFacts.ArgPrefix | src/ai-agent-0922.js:366 | A parameter's binding depends only on the arguments up to its position: appending arguments never changes it. |
| Workspace.Resolve | src/ai-agent-0922.js:116 | `path.join` of the root and a relative argument yields a normalised absolute path. |
| Workspace.WriteFile | src/ai-agent-0922.js:117 | `writeFile` succeeds exactly when the target is not a directory and its parent is one. The file then holds the content, and every other path is unchanged. |
| Workspace.ReadFile | src/ai-agent-0922.js:123 | `readFile` succeeds exactly on a regular file and returns its content. On a missing path or one below a file it fails with ENOENT or ENOTDIR. |
| Workspace.Unlink | src/ai-agent-0922.js:135 | `unlink` succeeds exactly on a regular file. It removes that path and nothing else. |
| Workspace.MkdirRecursive | src/ai-agent-0922.js:141 | Recursive `mkdir` succeeds exactly when no ancestor, or the path itself, is a file. It makes every prefix a directory, keeps what existed, and adds only prefixes of the path. |
| Workspace.RmdirRecursive | src/ai-agent-0922.js:147 | Recursive `rmdir` succeeds exactly on a directory other than `/`. It removes exactly the paths at or below it. |
| Workspace.ReadDir | src/ai-agent-0922.js:68-75 | `readdir` succeeds exactly on a directory and lists exactly its direct children. |
| Workspace.CreateWorkspace | src/ai-agent-0922.js:32-45 | The workspace is the `agent-app-<uid>` directory joined to the base. It exists afterwards, and nothing that existed is lost. |
| WorkspaceFacts.WriteFileKeepsWellFormed | src/ai-agent-0922.js:117 | A successful write keeps every entry inside a directory. |
| WorkspaceFacts.UnlinkKeepsWellFormed | src/ai-agent-0922.js:135 | A successful unlink keeps every entry inside a directory. |
| WorkspaceFacts.MkdirKeepsWellFormed | src/ai-agent-0922.js:141 | A successful recursive mkdir keeps every entry inside a directory. |
| WorkspaceFacts.RmdirKeepsWellFormed | src/ai-agent-0922.js:147 | A successful recursive rmdir keeps every entry inside a directory. |
| WorkspaceFacts.UnlinkThenRead | src/ai-agent-0922.js:121-137 | Once a file is unlinked, reading it fails with ENOENT at that path. |
| WorkspaceFacts.ResolveWithoutDotsStaysInside | src/ai-agent-0922.js:116 | A relative argument with no `..` segment resolves at or below the workspace root. |
| WorkspaceFacts.ResolveReachesAnyPath | src/ai-agent-0922.js:116 | With no containment check, `"../"` repeated once per root segment, followed by any absolute path's segments, resolves to that absolute path. |
| WorkspaceFacts.WorkspaceRootIsChildOfBase | src/ai-agent-0922.js:33-34 | The workspace is a direct child of the base directory, named `agent-app-<uid>`. |
| WorkspaceFacts.DistinctUidsDistinctRoots | src/ai-agent-0922.js:33-34 | Distinct uids give distinct workspaces. |
| WorkspaceFacts.CreateWorkspaceKeepsWellFormed | src/ai-agent-0922.js:32-45 | Creating the workspace keeps the file system well formed. |
| Cli.ColorizeChars | src/index.js:122-127 | A single capital letter becomes the red code, the letter and the grey code. Any other single character is unchanged. Overall the result is ten characters longer per capital. With `CliFacts.ColorizeAppend` this fixes the result for every string. |
| Cli.ColorizeCapitals | src/index.js:120-128 | The result's length is the input's, plus ten per capital, plus the reset code. It always ends with the reset code. |
| CliFacts.ColorizeAppend | src/index.js:122-127 | Colouring is character by character: colouring a concatenation concatenates the colourings. |
| CliFacts.ColorizePlain | src/index.js:120-128 | Text without capitals comes out unchanged, followed by the reset code. |
| CliFacts.VisibleColorized | src/index.js:122-127 | Stripping escape sequences from the coloured characters gives back the original characters. |
| CliFacts.ColorizeRoundTrip | src/index.js:120-128 | What a terminal shows of `colorizeCapitals(s)` is `s`, for any `s` without an escape character. |
| Cli.RedLine | src/index.js:154-157 | The red rule is `'═'` repeated `columns` times, or 50 times when `columns` is undefined or 0, between the red and reset codes. |
| Cli.ParseGitIgnore | src/index.js:51 | No ignore entry is empty or contains a line feed or carriage return. |
| CliFacts.CrlfEntries | src/index.js:51 | A CRLF file yields exactly its nonempty lines. |
| CliFacts.LfEntries | src/index.js:51 | An LF-only file yields at most one entry: all its lines run together. |
| Text.FlattenSplitIsFilter | src/index.js:51 | `s.split(c).join('')` deletes every `c` and keeps the rest in order. |
| Text.JoinSplit | src/index.js:51 | Splitting and joining on the same separator gives the string back. |
| Text.SplitJoin | src/index.js:51 | Joining separator-free parts and splitting again gives the parts back. |
| Cli.FindKeyLine | src/index.js:62 | A line is found if and only if some line starts with `OPENAI_API_KEY`, and the line found does. |
| Cli.CheckEnv | src/index.js:57-67 | The report is "`.env` file missing" exactly when the file cannot be read. |
| CliFacts.FoundIffLineStart | src/index.js:61-62 | Some `'\n'`-separated line starts with the key if and only if the key occurs at the start of the text or right after a line feed. |
| CliFacts.KeyReported | src/index.js:57-67 | For a readable `.env`, the key is reported present if and only if some line begins with it. |
| CliFacts.TallyAppend | src/index.js:69-87 | The summary of entries listed one after another is the sum of their summaries. |
| CliFacts.TallyOrderFree | src/index.js:69-87 | The order in which `readdir` lists entries does not change the summary. |
| CliFacts.IgnoredEntrySkipped | src/index.js:76 | An entry whose relative path is ignored contributes nothing, subtree included. |
| CliFacts.TallyMonotone | src/index.js:69-87 | Ignoring more never counts more files, folders or bytes. |
| CliFacts.TallySlashInert | src/index.js:73-76 | An ignore entry ending in `/` never matches a relative path, so it changes nothing. |
| CliFacts.TallyCountsAll | src/index.js:69-87 | With nothing ignored, the summary counts every file, folder and byte of the tree. |
| CliFacts.SummaryWithinTree | src/index.js:69-87 | Under any ignore set, the summary stays within the whole tree's totals. |
| Text.Trim | src/index.js:371 | The trimmed line is a contiguous slice of the line, and it neither starts nor ends with white space. |
| Text.TrimPadded | src/index.js:371 | Trimming strips exactly the surrounding white space. |
| Text.TrimIdempotent | src/index.js:371 | Trimming twice is trimming once. |
| Cli.Route | src/index.js:370-399 | A line is a command exactly when, once trimmed, it starts with `/`. It selects `/text`, `/voice`, `/help` or `/exit` exactly when its trimmed, lower-cased text is that word. Any other slash input is an unknown command. |
| CliFacts.RouteTrimmed | src/index.js:371 | Surrounding white space does not change the command. |
| CliFacts.RouteIgnoresCase | src/index.js:371-376 | Lines that agree once trimmed and lower-cased select the same command. |
| CliFacts.RouteExample | src/index.js:370-385 | `"  /Help\n"` selects the help command. |

## Left out

- The OpenAI chat completion calls are network I/O. They are the oracle's `response` per round.
- AgentLoop.Agent: turns are assumed not to overlap. A turn runs at one workspace root and appends to the conversation alone. In the program, `/voice` returns once recording starts, so a second input can start another turn while one is still running. That reassigns the module-level `workspacePath` under the first turn's later tool calls, and both turns push onto the shared `messages` array. Those interleavings are not modelled.
- AgentLoop.Agent: requires an oracle with at least 20 rounds, one per iteration the loop may reach. Rounds the turn does not reach are never consulted.
- `finish_reason` is an enumeration of the values the API documents. An undocumented string would behave like `length` (ignored) and is not represented.
- The `fetch` of `getLocation` and `getCurrentWeather` and the `child_process` exec of the npm tools are outside requests. They are recorded as effects, and their outcomes come from the oracle. So the store an npm command leaves is whatever the round says.
- Tools.Invoke: what an inherited `Object.prototype` member (`toString`, `valueOf`, ...) returns when applied is taken from the oracle rather than computed per member.
- ToolsFacts.UpdateActsAsCreate, CreateThenRead, CreateFileFrame, DeleteFolderRemovesSubtree, WeatherBindsByPosition: these are stated for the handler itself (`Run`). `ToolsFacts.InvokeRuns` proves that dispatching a handler's name runs that handler.
- Js.ToJsString, Js.Describe: a parsed object is treated as having no own property that shadows `Object.prototype`. In the program, an argument such as `{"toString": 1}` makes template-literal interpolation throw "Cannot convert object to primitive value" before the weather `fetch`, even when the object is nested inside an array. An argument such as `{"constructor": 5}` makes Node's argument-type message itself throw. The model renders such an object as `[object Object]` or "an instance of Object". Strings are also measured in code points, not UTF-16 code units. That affects `Object.values` of a string containing characters outside the BMP, and the 28/25-character cut in the "Received" text.
- `fs.writeFile` with non-string content (an array or a typed array) is rejected in the model like any non-string. Node would accept some of these.
- Workspace.Resolve: `path.join` keeps a trailing `/` in its string result, and Node's file calls then treat the target as a directory. The model's paths are segment sequences and drop it. So a path argument ending in `/` succeeds on a regular file, or creates one, where Node fails. `writeFile` fails with EISDIR or ENOTDIR, and `readFile` and `unlink` of an existing file fail with ENOTDIR.
- Workspace.WriteFile, ReadFile, Unlink, MkdirRecursive, RmdirRecursive: the store has no permissions, mounts or limits. So EACCES, EPERM, EROFS, ENAMETOOLONG, ENOSPC and Node's rejection of a path containing a NUL byte never occur. Such failures would be recorded as handler errors like the modelled ones.
- Workspace.RmdirRecursive: removing `/` fails with EBUSY and removes nothing. Node's recursive removal deletes what it can before it fails.
- `fs.rmdir(p, { recursive: true })` is modelled with the semantics of a recursive removal of a directory. The differences between Node versions (deprecation, and a missing path being accepted) are not modelled.
- Symbolic links are not modelled. `summarizeDirectory` treats anything not a directory as a file with a size.
- Cli.Tally: `summarizeDirectory` has no `try`, so a rejected `readdir` or `stat` (EACCES on an unreadable folder, an entry removed during the walk, EMFILE) escapes it. The model's tree is a snapshot in which every listing and every size is available, so `Tally` is total.
- The order of `readdir` results: a listing is a set. `CliFacts.TallyOrderFree` shows the summary does not depend on order.
- `toLowerCase` beyond ASCII: the router compares against ASCII command words, so only ASCII letters are folded.
- The `/text`, `/voice`, `/help` and `/exit` handlers are left out. Their effects are console output, a `text_input.txt` write, microphone capture, readline prompts and `process.exit`. The router returns which handler runs.
- Voice recording, the transcription call, keypress handling, the spinner and the readline event wiring are event-driven I/O.
- `getAmplitude`, `amplitudeToDecibels` and `renderRecordingStatus` are floating-point code.
- The ASCII banner, `numeral` formatting, the `package.json` read, `getGitBranch` and the assembled `recursiveIndex` text are presentation and foreign calls. The counts behind the text are modelled (`Tally`).
- `serveWorkspace` and `openBrowser` are an HTTP server and an OS call.
- Console logging throughout is left out.
