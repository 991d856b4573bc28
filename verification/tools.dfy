/**
 * The tool registry of the agent: the `tools` catalog the model is shown,
 * the `availableTools` handlers it can reach by name, and what each handler
 * does to the workspace and returns. Handlers receive their arguments by
 * position, as `Object.values` of the parsed arguments lists them.
 *
 * Everything a handler cannot compute itself — the outcome of a child
 * process, of an HTTP request, or of an inherited `Object.prototype` member —
 * is supplied by an `External` value.
 */
module Tools {
  import opened Common
  import opened Js
  import Text
  import Fs = Workspace

  // ---------------------------------------------------------------------
  // Catalog

  /** One entry of `tools`: the function schema shown to the model. */
  datatype ToolSpec = ToolSpec(
    name: string,
    description: string,
    properties: seq<string>,
    required: Option<seq<string>>)

  const Catalog: seq<ToolSpec> := [
    ToolSpec("npmInit",
      "Initialize a new npm project in the workspace root directory using 'npm init -y'",
      [], Some([])),
    ToolSpec("listWorkingDirectory", "List the contents of the workspace root directory", [], None),
    ToolSpec("npmInstallDependencies",
      "Run 'npm install' in the workspace root to install dependencies", [], None),
    ToolSpec("getCurrentWeather", "Get the current weather in a given location",
      ["latitude", "longitude"], Some(["longitude", "latitude"])),
    ToolSpec("getLocation", "Get the user's location based on their IP address", [], None),
    ToolSpec("createFile", "Create a new file with specified content",
      ["filePath", "content"], Some(["filePath", "content"])),
    ToolSpec("readFile", "Read the content of a specified file", ["filePath"], Some(["filePath"])),
    ToolSpec("updateFile", "Update the content of a specified file",
      ["filePath", "content"], Some(["filePath", "content"])),
    ToolSpec("deleteFile", "Delete a specified file", ["filePath"], Some(["filePath"])),
    ToolSpec("createFolder", "Create a new folder", ["folderPath"], Some(["folderPath"])),
    ToolSpec("deleteFolder", "Delete a specified folder", ["folderPath"], Some(["folderPath"]))
  ]

  /** The handlers of `availableTools`. */
  datatype Tool =
    | NpmInit | ListWorkingDirectory | NpmInstallDependencies
    | GetCurrentWeather | GetLocation
    | CreateFile | ReadFile | UpdateFile | DeleteFile | CreateFolder | DeleteFolder

  /** The property name under which `availableTools` holds the handler. */
  function Name(t: Tool): string {
    match t
    case NpmInit => "npmInit"
    case ListWorkingDirectory => "listWorkingDirectory"
    case NpmInstallDependencies => "npmInstallDependencies"
    case GetCurrentWeather => "getCurrentWeather"
    case GetLocation => "getLocation"
    case CreateFile => "createFile"
    case ReadFile => "readFile"
    case UpdateFile => "updateFile"
    case DeleteFile => "deleteFile"
    case CreateFolder => "createFolder"
    case DeleteFolder => "deleteFolder"
  }

  /** The handler's declared parameters, in declaration order. */
  function Params(t: Tool): seq<string> {
    match t
    case GetCurrentWeather => ["latitude", "longitude"]
    case CreateFile => ["filePath", "content"]
    case UpdateFile => ["filePath", "content"]
    case ReadFile => ["filePath"]
    case DeleteFile => ["filePath"]
    case CreateFolder => ["folderPath"]
    case DeleteFolder => ["folderPath"]
    case _ => []
  }

  /** The own properties of `availableTools`, in declaration order. */
  const Registered: seq<Tool> := [
    NpmInit, ListWorkingDirectory, NpmInstallDependencies, GetCurrentWeather, GetLocation,
    CreateFile, ReadFile, UpdateFile, DeleteFile, CreateFolder, DeleteFolder
  ]

  /** The first of `tools` registered under `name`. */
  function Search(name: string, tools: seq<Tool>): (r: Option<Tool>)
    ensures r.Some? ==> r.value in tools && Name(r.value) == name
    ensures r.None? ==> forall t :: t in tools ==> Name(t) != name
  {
    if |tools| == 0 then None
    else if Name(tools[0]) == name then Some(tools[0])
    else Search(name, tools[1..])
  }

  /** `availableTools[name]` among the object's own properties. */
  function FindTool(name: string): Option<Tool> {
    Search(name, Registered)
  }

  /** The members every plain object inherits from `Object.prototype`. */
  const InheritedNames: set<string> := {
    "constructor", "hasOwnProperty", "isPrototypeOf", "propertyIsEnumerable",
    "toString", "toLocaleString", "valueOf", "__proto__",
    "__defineGetter__", "__defineSetter__", "__lookupGetter__", "__lookupSetter__"
  }

  /** What `availableTools[name]` evaluates to. */
  datatype Binding = Own(tool: Tool) | Inherited | Unbound

  function Lookup(name: string): Binding {
    match FindTool(name)
    case Some(t) => Own(t)
    case None => if name in InheritedNames then Inherited else Unbound
  }

  // ---------------------------------------------------------------------
  // The world outside a handler

  /** The settled outcome of `execAsync(command, { cwd })`. */
  datatype ExecResult =
    | Exited(code: int, stdout: string, stderr: string, after: Fs.Store)
    | SpawnFailed(message: string)

  /** The outcome of `fetch(url)` followed by `response.json()`. */
  datatype FetchResult = Fetched(body: Json) | FetchFailed(message: string)

  /** What the world answers to a handler during one iteration. */
  datatype External = External(
    exec: ExecResult,
    fetch: FetchResult,
    inherited: Result<Content, string>)

  /** The value a handler resolves with. */
  datatype Content = Str(text: string) | Listing(names: set<string>) | Data(json: Json)

  /** An observable request a handler makes of the outside world. */
  datatype Effect = Exec(command: string, cwd: Fs.Path) | Fetch(url: string)

  /** A handler's settled promise, the workspace after it, and its requests. */
  datatype Invocation = Invocation(outcome: Result<Content, string>, store: Fs.Store, effects: seq<Effect>)

  // ---------------------------------------------------------------------
  // Messages

  /** The TypeError of calling `apply` on `undefined`. */
  const UndefinedApply := "Cannot read properties of undefined (reading 'apply')"

  function PathTypeError(v: Option<Json>): string {
    "The \"path\" argument must be of type string. Received " + Describe(v)
  }

  function DataTypeError(v: Option<Json>): string {
    "The \"data\" argument must be of type string or an instance of Buffer, TypedArray, or DataView. Received "
    + Describe(v)
  }

  const LocationUrl := "https://ipapi.co/json/"

  function WeatherUrl(latitude: string, longitude: string): string {
    "https://api.open-meteo.com/v1/forecast?latitude=" + latitude + "&longitude=" + longitude
    + "&hourly=apparent_temperature"
  }

  // ---------------------------------------------------------------------
  // Handlers

  /** `path.join(workspacePath, v)`, which rejects a non-string argument. */
  function PathArg(root: Fs.Path, v: Option<Json>): (r: Result<Fs.Path, string>)
    requires Fs.Normalized(root)
    ensures r.Ok? <==> v.Some? && v.value.JStr?
    ensures r.Ok? ==> r.value == Fs.Resolve(root, v.value.s)
  {
    match v
    case Some(JStr(p)) => Ok(Fs.Resolve(root, p))
    case _ => Err(PathTypeError(v))
  }

  /**
   * `npmInit` / `npmInstallDependencies`: never rejects. A failed command
   * reports its error, a non-empty stderr reports warnings, and otherwise
   * stdout is reported as success.
   */
  function Npm(verb: string, command: string, root: Fs.Path, s: Fs.Store, ext: External): (r: Invocation)
    ensures r.outcome.Ok? && r.outcome.value.Str?
    ensures r.effects == [Exec(command, root)]
  {
    var text :=
      match ext.exec
      case SpawnFailed(m) => "Error running npm " + verb + ": " + m
      case Exited(code, out, err, _) =>
        if code != 0 then "Error running npm " + verb + ": Command failed: " + command + "\n" + err
        else if err != "" then "npm " + verb + " encountered warnings/errors:\n" + err
        else "npm " + verb + " completed successfully:\n" + out;
    var after := if ext.exec.Exited? then ext.exec.after else s;
    Invocation(Ok(Str(text)), after, [Exec(command, root)])
  }

  /** `createFile` / `updateFile`: `fs.writeFile` at the joined path. */
  function Write(verb: string, root: Fs.Path, s: Fs.Store, args: seq<Json>): (r: Invocation)
    requires Fs.Normalized(root)
    ensures |r.effects| == 0
    ensures r.outcome.Err? ==> r.store == s
  {
    var full := PathArg(root, Arg(args, 0));
    var content := Arg(args, 1);
    if full.Err? then Invocation(Err(full.error), s, [])
    else if !(content.Some? && content.value.JStr?) then Invocation(Err(DataTypeError(content)), s, [])
    else
      var written := Fs.WriteFile(s, full.value, content.value.s);
      if written.Ok? then Invocation(Ok(Str("File " + verb + " at " + Fs.Render(full.value))), written.value, [])
      else Invocation(Err(Fs.Message(written.error)), s, [])
  }

  /** The store-changing calls the remaining file tools make. */
  datatype StoreCall = UnlinkCall | MkdirCall | RmdirCall

  function Apply(call: StoreCall, s: Fs.Store, p: Fs.Path): Result<Fs.Store, Fs.FsError> {
    match call
    case UnlinkCall => Fs.Unlink(s, p)
    case MkdirCall => Fs.MkdirRecursive(s, p)
    case RmdirCall => Fs.RmdirRecursive(s, p)
  }

  /** A handler that runs one store-changing call at the joined path. */
  function Change(done: string, root: Fs.Path, s: Fs.Store, args: seq<Json>, call: StoreCall): (r: Invocation)
    requires Fs.Normalized(root)
    ensures |r.effects| == 0
    ensures r.outcome.Err? ==> r.store == s
  {
    match PathArg(root, Arg(args, 0))
    case Err(m) => Invocation(Err(m), s, [])
    case Ok(full) =>
      match Apply(call, s, full)
      case Ok(s') => Invocation(Ok(Str(done + " at " + Fs.Render(full))), s', [])
      case Err(e) => Invocation(Err(Fs.Message(e)), s, [])
  }

  /** Calls the handler `t` with positional arguments `args`. */
  function Run(t: Tool, args: seq<Json>, root: Fs.Path, s: Fs.Store, ext: External): (r: Invocation)
    requires Fs.Normalized(root)
  {
    match t
    case NpmInit => Npm("init", "npm init -y", root, s, ext)
    case NpmInstallDependencies => Npm("install", "npm install", root, s, ext)
    case ListWorkingDirectory =>
      (match Fs.ReadDir(s, root)
       case Ok(names) => Invocation(Ok(Listing(names)), s, [])
       case Err(e) => Invocation(Ok(Str("Error listing directory: " + Fs.Message(e))), s, []))
    case GetCurrentWeather =>
      var url := WeatherUrl(Interpolate(Arg(args, 0)), Interpolate(Arg(args, 1)));
      Invocation(FetchOutcome(ext.fetch), s, [Fetch(url)])
    case GetLocation => Invocation(FetchOutcome(ext.fetch), s, [Fetch(LocationUrl)])
    case CreateFile => Write("created", root, s, args)
    case UpdateFile => Write("updated", root, s, args)
    case ReadFile =>
      (match PathArg(root, Arg(args, 0))
       case Err(m) => Invocation(Err(m), s, [])
       case Ok(full) =>
         match Fs.ReadFile(s, full)
         case Ok(c) => Invocation(Ok(Str(c)), s, [])
         case Err(e) => Invocation(Err(Fs.Message(e)), s, []))
    case DeleteFile => Change("File deleted", root, s, args, UnlinkCall)
    case CreateFolder => Change("Folder created", root, s, args, MkdirCall)
    case DeleteFolder => Change("Folder deleted", root, s, args, RmdirCall)
  }

  function FetchOutcome(f: FetchResult): Result<Content, string> {
    match f
    case Fetched(body) => Ok(Data(body))
    case FetchFailed(m) => Err(m)
  }

  /**
   * `functionToCall.apply(null, args)` inside the loop's `try`: a name that
   * is not a property of `availableTools` rejects with the TypeError of
   * reading `apply` from `undefined`. Only an own handler touches the
   * workspace or asks anything of the outside world.
   */
  function Invoke(name: string, args: seq<Json>, root: Fs.Path, s: Fs.Store, ext: External): (r: Invocation)
    requires Fs.Normalized(root)
    ensures !Lookup(name).Own? ==> r.store == s && r.effects == []
    ensures Lookup(name).Unbound? ==> r.outcome == Err(UndefinedApply)
    ensures Lookup(name).Inherited? ==> r.outcome == ext.inherited
  {
    match Lookup(name)
    case Own(t) => Run(t, args, root, s, ext)
    case Inherited => Invocation(ext.inherited, s, [])
    case Unbound => Invocation(Err(UndefinedApply), s, [])
  }
}
