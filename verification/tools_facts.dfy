/**
 * Properties of the tool registry: the catalog and the handler table agree,
 * the file tools behave as create / read / update / delete over the
 * workspace store, the npm tools classify their command's result and never
 * reject, and arguments are bound by position.
 */
module ToolsFacts {
  import opened Common
  import opened Js
  import Text
  import Fs = Workspace
  import WorkspaceFacts
  import opened Tools

  // ---------------------------------------------------------------------
  // Catalog and handler table

  function CatalogNames(): (r: seq<string>)
    ensures |r| == |Catalog|
    ensures forall i :: 0 <= i < |Catalog| ==> r[i] == Catalog[i].name
  {
    seq(|Catalog|, i requires 0 <= i < |Catalog| => Catalog[i].name)
  }

  /** The tool whose name has length `len` and starts with `first`. */
  function ByShape(len: nat, first: char): Option<Tool> {
    if len == 7 then Some(NpmInit)
    else if len == 20 then Some(ListWorkingDirectory)
    else if len == 22 then Some(NpmInstallDependencies)
    else if len == 17 then Some(GetCurrentWeather)
    else if len == 11 then Some(GetLocation)
    else if len == 8 then Some(ReadFile)
    else if len == 10 then
      (if first == 'c' then Some(CreateFile) else if first == 'u' then Some(UpdateFile) else Some(DeleteFile))
    else if len == 12 then
      (if first == 'c' then Some(CreateFolder) else Some(DeleteFolder))
    else None
  }

  /** A handler's name is told apart from the others by its length and first letter. */
  lemma ShapeNames(t: Tool)
    ensures |Name(t)| > 0 && ByShape(|Name(t)|, Name(t)[0]) == Some(t)
  {
  }

  /** No two handlers share a name. */
  lemma NameInjective(a: Tool, b: Tool)
    requires Name(a) == Name(b)
    ensures a == b
  {
    ShapeNames(a);
    ShapeNames(b);
  }

  lemma {:induction false} SearchFinds(t: Tool, tools: seq<Tool>)
    requires t in tools
    ensures Search(Name(t), tools).Some?
  {
    if tools[0] != t {
      SearchFinds(t, tools[1..]);
    }
  }

  lemma RegisteredAll(t: Tool)
    ensures t in Registered
  {
  }

  /** Each handler is reached through its own name. */
  lemma LookupName(t: Tool)
    ensures Lookup(Name(t)) == Own(t)
  {
    RegisteredAll(t);
    SearchFinds(t, Registered);
    NameInjective(FindTool(Name(t)).value, t);
  }

  /** Dispatching a handler's name runs that handler. */
  lemma InvokeRuns(t: Tool, args: seq<Json>, root: Fs.Path, s: Fs.Store, e: External)
    requires Fs.Normalized(root)
    ensures Invoke(Name(t), args, root, s, e) == Run(t, args, root, s, e)
  {
    LookupName(t);
  }

  /** A handler's place in `availableTools`. */
  function Position(t: Tool): nat {
    match t
    case NpmInit => 0
    case ListWorkingDirectory => 1
    case NpmInstallDependencies => 2
    case GetCurrentWeather => 3
    case GetLocation => 4
    case CreateFile => 5
    case ReadFile => 6
    case UpdateFile => 7
    case DeleteFile => 8
    case CreateFolder => 9
    case DeleteFolder => 10
  }

  /** Entry `i` of `tools` describes handler `i` of `availableTools`. */
  lemma LinesUpAt(i: nat)
    requires i < |Catalog|
    ensures i < |Registered| && Position(Registered[i]) == i
    ensures Catalog[i].name == Name(Registered[i]) && Catalog[i].properties == Params(Registered[i])
  {
    if i == 0 {} else if i == 1 {} else if i == 2 {} else if i == 3 {} else if i == 4 {}
    else if i == 5 {} else if i == 6 {} else if i == 7 {} else if i == 8 {} else if i == 9 {}
    else {}
  }

  /** `tools` and `availableTools` list the same handlers in the same order. */
  lemma CatalogLinesUp()
    ensures |Catalog| == |Registered|
    ensures forall i :: 0 <= i < |Catalog| ==>
              Catalog[i].name == Name(Registered[i]) && Catalog[i].properties == Params(Registered[i])
    ensures forall i, j :: 0 <= i < j < |Registered| ==> Registered[i] != Registered[j]
  {
    forall i | 0 <= i < |Catalog|
      ensures Catalog[i].name == Name(Registered[i]) && Catalog[i].properties == Params(Registered[i])
    {
      LinesUpAt(i);
    }
    forall i, j | 0 <= i < j < |Registered|
      ensures Registered[i] != Registered[j]
    {
      LinesUpAt(i);
      LinesUpAt(j);
    }
  }

  /**
   * Every name declared in `tools` has a same-named own handler whose
   * parameters are the schema's properties in the same order, no name is
   * declared twice, and every handler is declared.
   */
  lemma CatalogMatchesHandlers()
    ensures forall i :: 0 <= i < |Catalog| ==>
              Lookup(Catalog[i].name).Own?
              && Params(Lookup(Catalog[i].name).tool) == Catalog[i].properties
    ensures forall i, j :: 0 <= i < j < |Catalog| ==> Catalog[i].name != Catalog[j].name
    ensures forall t: Tool :: Name(t) in CatalogNames()
  {
    CatalogLinesUp();
    forall i | 0 <= i < |Catalog|
      ensures Lookup(Catalog[i].name) == Own(Registered[i])
    {
      LookupName(Registered[i]);
    }
    forall i, j | 0 <= i < j < |Catalog|
      ensures Catalog[i].name != Catalog[j].name
    {
      if Catalog[i].name == Catalog[j].name {
        NameInjective(Registered[i], Registered[j]);
      }
    }
    forall t: Tool
      ensures Name(t) in CatalogNames()
    {
      RegisteredAll(t);
      var i :| 0 <= i < |Registered| && Registered[i] == t;
      assert CatalogNames()[i] == Name(t);
    }
  }

  /** A handler's name is declared in the catalog. */
  lemma NameDeclared(t: Tool)
    ensures Name(t) in CatalogNames()
  {
    RegisteredAll(t);
    var i :| 0 <= i < |Registered| && Registered[i] == t;
    LinesUpAt(i);
    assert CatalogNames()[i] == Name(t);
  }

  /** A name reaches its own handler exactly when the catalog declares it. */
  lemma OwnHandlerIffDeclared(name: string)
    ensures Lookup(name).Own? <==> name in CatalogNames()
    ensures Lookup(name).Own? ==> Name(Lookup(name).tool) == name
  {
    if Lookup(name).Own? {
      NameDeclared(Lookup(name).tool);
    }
    if name in CatalogNames() {
      var i :| 0 <= i < |CatalogNames()| && CatalogNames()[i] == name;
      LinesUpAt(i);
      LookupName(Registered[i]);
    }
  }

  // ---------------------------------------------------------------------
  // File tools over the workspace store

  /** Creating a file and reading it back returns the written content. */
  lemma CreateThenRead(root: Fs.Path, s: Fs.Store, p: string, c: string, e1: External, e2: External)
    requires Fs.Normalized(root)
    requires Run(CreateFile, [JStr(p), JStr(c)], root, s, e1).outcome.Ok?
    ensures Run(ReadFile, [JStr(p)], root, Run(CreateFile, [JStr(p), JStr(c)], root, s, e1).store, e2).outcome
            == Ok(Str(c))
  {
    var full := Fs.Resolve(root, p);
    WriteWrites("created", root, s, p, c);
    var s' := Run(CreateFile, [JStr(p), JStr(c)], root, s, e1).store;
    assert Fs.ReadFile(s', full) == Ok(c);
    ReadFileReads(root, s', p, e2);
  }

  /** A write that succeeds is `fs.writeFile` at the joined path. */
  lemma WriteWrites(verb: string, root: Fs.Path, s: Fs.Store, p: string, c: string)
    requires Fs.Normalized(root)
    requires Write(verb, root, s, [JStr(p), JStr(c)]).outcome.Ok?
    ensures Fs.WriteFile(s, Fs.Resolve(root, p), c).Ok?
    ensures Write(verb, root, s, [JStr(p), JStr(c)]).store == Fs.WriteFile(s, Fs.Resolve(root, p), c).value
  {
    assert Arg([JStr(p), JStr(c)], 0) == Some(JStr(p));
    assert Arg([JStr(p), JStr(c)], 1) == Some(JStr(c));
  }

  /** A successful `createFile` changes the joined path and nothing else. */
  lemma CreateFileFrame(root: Fs.Path, s: Fs.Store, p: string, c: string, e: External)
    requires Fs.Normalized(root)
    requires Run(CreateFile, [JStr(p), JStr(c)], root, s, e).outcome.Ok?
    ensures var s' := Run(CreateFile, [JStr(p), JStr(c)], root, s, e).store;
            forall q :: q != Fs.Resolve(root, p) ==>
              (q in s' <==> q in s) && (q in s ==> s'[q] == s[q])
  {
    WriteWrites("created", root, s, p, c);
  }

  /** The write handlers differ only in the word of their confirmation. */
  lemma WriteVerbFree(v1: string, v2: string, root: Fs.Path, s: Fs.Store, args: seq<Json>)
    requires Fs.Normalized(root)
    ensures Write(v1, root, s, args).store == Write(v2, root, s, args).store
    ensures Write(v1, root, s, args).outcome.Ok? <==> Write(v2, root, s, args).outcome.Ok?
    ensures Write(v1, root, s, args).outcome.Err? ==> Write(v1, root, s, args).outcome == Write(v2, root, s, args).outcome
  {
  }

  /**
   * `updateFile` has exactly the effect of `createFile`: same store, same
   * failures; only the confirmation text says "updated".
   */
  lemma UpdateActsAsCreate(root: Fs.Path, s: Fs.Store, args: seq<Json>, e: External)
    requires Fs.Normalized(root)
    ensures Run(UpdateFile, args, root, s, e).store == Run(CreateFile, args, root, s, e).store
    ensures Run(UpdateFile, args, root, s, e).outcome.Ok? <==> Run(CreateFile, args, root, s, e).outcome.Ok?
    ensures Run(UpdateFile, args, root, s, e).outcome.Err?
            ==> Run(UpdateFile, args, root, s, e).outcome == Run(CreateFile, args, root, s, e).outcome
  {
    WriteVerbFree("updated", "created", root, s, args);
  }

  lemma DeleteFileUnlinks(root: Fs.Path, s: Fs.Store, p: string, e: External)
    requires Fs.Normalized(root)
    requires Run(DeleteFile, [JStr(p)], root, s, e).outcome.Ok?
    ensures Fs.Unlink(s, Fs.Resolve(root, p)).Ok?
    ensures Run(DeleteFile, [JStr(p)], root, s, e).store == Fs.Unlink(s, Fs.Resolve(root, p)).value
  {
    assert PathArg(root, Arg([JStr(p)], 0)) == Ok(Fs.Resolve(root, p));
  }

  lemma ReadFileReads(root: Fs.Path, s: Fs.Store, p: string, e: External)
    requires Fs.Normalized(root)
    ensures var r := Fs.ReadFile(s, Fs.Resolve(root, p));
            && (r.Ok? ==> Run(ReadFile, [JStr(p)], root, s, e).outcome == Ok(Str(r.value)))
            && (r.Err? ==> Run(ReadFile, [JStr(p)], root, s, e).outcome == Err(Fs.Message(r.error)))
  {
    assert PathArg(root, Arg([JStr(p)], 0)) == Ok(Fs.Resolve(root, p));
  }

  /** After `deleteFile` succeeds, reading the same path fails with ENOENT. */
  lemma DeleteThenReadFails(root: Fs.Path, s: Fs.Store, p: string, e1: External, e2: External)
    requires Fs.Normalized(root) && Fs.WellFormed(s)
    requires Run(DeleteFile, [JStr(p)], root, s, e1).outcome.Ok?
    ensures var full := Fs.Resolve(root, p);
            Run(ReadFile, [JStr(p)], root, Run(DeleteFile, [JStr(p)], root, s, e1).store, e2).outcome
            == Err(Fs.Message(Fs.FsError(Fs.ENOENT, "open", Some(full))))
  {
    var full := Fs.Resolve(root, p);
    DeleteFileUnlinks(root, s, p, e1);
    var s' := Run(DeleteFile, [JStr(p)], root, s, e1).store;
    WorkspaceFacts.UnlinkThenRead(s, full);
    ReadFileReads(root, s', p, e2);
  }

  /** After `deleteFolder` succeeds nothing at or below the joined path remains. */
  lemma DeleteFolderRemovesSubtree(root: Fs.Path, s: Fs.Store, p: string, e: External)
    requires Fs.Normalized(root)
    requires Run(DeleteFolder, [JStr(p)], root, s, e).outcome.Ok?
    ensures var s' := Run(DeleteFolder, [JStr(p)], root, s, e).store;
            forall q :: q in s' <==> q in s && !Fs.IsPrefix(Fs.Resolve(root, p), q)
  {
    var full := Fs.Resolve(root, p);
    assert PathArg(root, Arg([JStr(p)], 0)) == Ok(full);
    assert Run(DeleteFolder, [JStr(p)], root, s, e).store == Fs.RmdirRecursive(s, full).value;
  }

  /**
   * The path handlers' argument: a string without a `..` segment names a
   * path at or below the workspace root; anything but a string is rejected
   * with Node's ERR_INVALID_ARG_TYPE text, which describes what was received.
   */
  lemma PathArgInside(root: Fs.Path, v: Option<Json>)
    requires Fs.Normalized(root)
    ensures v.Some? && v.value.JStr?
            && (forall i :: 0 <= i < |Text.Split(v.value.s, '/')| ==> Text.Split(v.value.s, '/')[i] != "..")
            ==> PathArg(root, v).Ok? && Fs.IsPrefix(root, PathArg(root, v).value)
    ensures !(v.Some? && v.value.JStr?) ==>
              PathArg(root, v) == Err("The \"path\" argument must be of type string. Received " + Describe(v))
  {
    if v.Some? && v.value.JStr?
       && forall i :: 0 <= i < |Text.Split(v.value.s, '/')| ==> Text.Split(v.value.s, '/')[i] != ".." {
      WorkspaceFacts.ResolveWithoutDotsStaysInside(root, v.value.s);
    }
  }

  /** A missing path argument is `undefined`, which `path.join` rejects. */
  lemma MissingPathArgument(t: Tool, root: Fs.Path, s: Fs.Store, e: External)
    requires Fs.Normalized(root)
    requires t in {CreateFile, ReadFile, UpdateFile, DeleteFile, CreateFolder, DeleteFolder}
    ensures Run(t, [], root, s, e)
            == Invocation(Err("The \"path\" argument must be of type string. Received undefined"), s, [])
  {
    assert PathArg(root, Arg([], 0)) == Err(PathTypeError(None));
    assert PathTypeError(None) == "The \"path\" argument must be of type string. Received undefined";
  }

  // ---------------------------------------------------------------------
  // npm tools

  /**
   * The npm handlers always resolve, and their text says which of the
   * three cases happened: the command failed, it succeeded with something on
   * stderr, or it succeeded with an empty stderr.
   */
  lemma NpmClassification(verb: string, command: string, root: Fs.Path, s: Fs.Store, e: External)
    ensures Npm(verb, command, root, s, e).outcome.Ok?
    ensures var text := Npm(verb, command, root, s, e).outcome.value.text;
            && (Text.StartsWith(text, "Error running npm " + verb + ": ")
                <==> !(e.exec.Exited? && e.exec.code == 0))
            && (Text.StartsWith(text, "npm " + verb + " encountered warnings/errors:\n")
                <==> e.exec.Exited? && e.exec.code == 0 && e.exec.stderr != "")
            && (Text.StartsWith(text, "npm " + verb + " completed successfully:\n")
                <==> e.exec.Exited? && e.exec.code == 0 && e.exec.stderr == "")
    ensures e.exec.Exited? && e.exec.code == 0 && e.exec.stderr == "" ==>
              Text.EndsWith(Npm(verb, command, root, s, e).outcome.value.text, e.exec.stdout)
  {
    var text := Npm(verb, command, root, s, e).outcome.value.text;
    var failed := "Error running npm " + verb + ": ";
    var warned := "npm " + verb + " encountered warnings/errors:\n";
    var fine := "npm " + verb + " completed successfully:\n";
    var k := |"npm " + verb + " "|;
    assert warned[k] == 'e' && fine[k] == 'c';
    assert failed[0] == 'E' && warned[0] == 'n' && fine[0] == 'n';
    if !(e.exec.Exited? && e.exec.code == 0) {
      assert text[0] == 'E';
    } else if e.exec.stderr != "" {
      assert text[0] == 'n' && text[k] == 'e';
    } else {
      assert text[0] == 'n' && text[k] == 'c';
    }
  }

  lemma NpmToolsNeverReject(root: Fs.Path, s: Fs.Store, args: seq<Json>, e: External)
    requires Fs.Normalized(root)
    ensures Run(NpmInit, args, root, s, e).outcome.Ok?
    ensures Run(NpmInstallDependencies, args, root, s, e).outcome.Ok?
    ensures Run(NpmInit, args, root, s, e).effects == [Exec("npm init -y", root)]
    ensures Run(NpmInstallDependencies, args, root, s, e).effects == [Exec("npm install", root)]
  {
  }

  // ---------------------------------------------------------------------
  // Positional binding

  /**
   * Arguments bind by position in `Object.values` order, not by name: when
   * the model lists `longitude` before `latitude`, the longitude value is
   * fetched as the latitude.
   */
  lemma WeatherBindsByPosition(a: string, b: string, root: Fs.Path, s: Fs.Store, e: External)
    requires Fs.Normalized(root)
    ensures var args := ObjectValues(JObj([("longitude", JStr(a)), ("latitude", JStr(b))]));
            args.Ok? && Run(GetCurrentWeather, args.value, root, s, e).effects == [Fetch(WeatherUrl(a, b))]
  {
    var args := ObjectValues(JObj([("longitude", JStr(a)), ("latitude", JStr(b))]));
    assert args.value == [JStr(a), JStr(b)];
  }

  /** Property names play no part: objects with the same values in the same order behave alike. */
  lemma KeysIgnored(name: string, o1: seq<(string, Json)>, o2: seq<(string, Json)>,
                    root: Fs.Path, s: Fs.Store, e: External)
    requires Fs.Normalized(root)
    requires |o1| == |o2| && forall i :: 0 <= i < |o1| ==> o1[i].1 == o2[i].1
    ensures ObjectValues(JObj(o1)) == ObjectValues(JObj(o2))
    ensures Invoke(name, ObjectValues(JObj(o1)).value, root, s, e)
            == Invoke(name, ObjectValues(JObj(o2)).value, root, s, e)
  {
    assert ObjectValues(JObj(o1)).value == ObjectValues(JObj(o2)).value;
  }

  lemma ArgPrefix(args: seq<Json>, extra: seq<Json>, i: nat)
    requires i < |args|
    ensures Arg(args + extra, i) == Arg(args, i)
  {
    assert (args + extra)[i] == args[i];
  }

  /** The write handlers read only their first two arguments. */
  lemma WriteReadsTwo(verb: string, root: Fs.Path, s: Fs.Store, a1: seq<Json>, a2: seq<Json>)
    requires Fs.Normalized(root)
    requires Arg(a1, 0) == Arg(a2, 0) && Arg(a1, 1) == Arg(a2, 1)
    ensures Write(verb, root, s, a1) == Write(verb, root, s, a2)
  {
  }

  /** The store-changing handlers read only their first argument. */
  lemma ChangeReadsOne(done: string, root: Fs.Path, s: Fs.Store, a1: seq<Json>, a2: seq<Json>, call: StoreCall)
    requires Fs.Normalized(root)
    requires Arg(a1, 0) == Arg(a2, 0)
    ensures Change(done, root, s, a1, call) == Change(done, root, s, a2, call)
  {
  }

  /** Arguments past the handler's parameters are ignored. */
  lemma ExtraArgumentsIgnored(t: Tool, args: seq<Json>, extra: seq<Json>, root: Fs.Path, s: Fs.Store, e: External)
    requires Fs.Normalized(root)
    requires |args| >= |Params(t)|
    ensures Run(t, args + extra, root, s, e) == Run(t, args, root, s, e)
  {
    var all := args + extra;
    match t
    case CreateFile =>
      ArgPrefix(args, extra, 0);
      ArgPrefix(args, extra, 1);
      WriteReadsTwo("created", root, s, all, args);
    case UpdateFile =>
      ArgPrefix(args, extra, 0);
      ArgPrefix(args, extra, 1);
      WriteReadsTwo("updated", root, s, all, args);
    case DeleteFile =>
      ArgPrefix(args, extra, 0);
      ChangeReadsOne("File deleted", root, s, all, args, UnlinkCall);
    case CreateFolder =>
      ArgPrefix(args, extra, 0);
      ChangeReadsOne("Folder created", root, s, all, args, MkdirCall);
    case DeleteFolder =>
      ArgPrefix(args, extra, 0);
      ChangeReadsOne("Folder deleted", root, s, all, args, RmdirCall);
    case ReadFile =>
      ArgPrefix(args, extra, 0);
    case GetCurrentWeather =>
      ArgPrefix(args, extra, 0);
      ArgPrefix(args, extra, 1);
    case _ =>
  }

  // ---------------------------------------------------------------------
  // Store invariant

  lemma WriteKeepsWellFormed(verb: string, root: Fs.Path, s: Fs.Store, args: seq<Json>)
    requires Fs.Normalized(root) && Fs.WellFormed(s)
    ensures Fs.WellFormed(Write(verb, root, s, args).store)
  {
    var full := PathArg(root, Arg(args, 0));
    var content := Arg(args, 1);
    if full.Ok? && content.Some? && content.value.JStr? && Fs.WriteFile(s, full.value, content.value.s).Ok? {
      WorkspaceFacts.WriteFileKeepsWellFormed(s, full.value, content.value.s);
    }
  }

  lemma ChangeKeepsWellFormed(done: string, root: Fs.Path, s: Fs.Store, args: seq<Json>, call: StoreCall)
    requires Fs.Normalized(root) && Fs.WellFormed(s)
    ensures Fs.WellFormed(Change(done, root, s, args, call).store)
  {
    var full := PathArg(root, Arg(args, 0));
    if full.Ok? && Apply(call, s, full.value).Ok? {
      match call
      case UnlinkCall => WorkspaceFacts.UnlinkKeepsWellFormed(s, full.value);
      case MkdirCall => WorkspaceFacts.MkdirKeepsWellFormed(s, full.value);
      case RmdirCall => WorkspaceFacts.RmdirKeepsWellFormed(s, full.value);
    }
  }

  lemma RunKeepsWellFormed(t: Tool, args: seq<Json>, root: Fs.Path, s: Fs.Store, e: External)
    requires Fs.Normalized(root) && Fs.WellFormed(s)
    requires e.exec.Exited? ==> Fs.WellFormed(e.exec.after)
    ensures Fs.WellFormed(Run(t, args, root, s, e).store)
  {
    match t
    case CreateFile => WriteKeepsWellFormed("created", root, s, args);
    case UpdateFile => WriteKeepsWellFormed("updated", root, s, args);
    case DeleteFile => ChangeKeepsWellFormed("File deleted", root, s, args, UnlinkCall);
    case CreateFolder => ChangeKeepsWellFormed("Folder created", root, s, args, MkdirCall);
    case DeleteFolder => ChangeKeepsWellFormed("Folder deleted", root, s, args, RmdirCall);
    case _ =>
  }

  /**
   * A dispatch keeps the file system well formed, provided the child
   * process the npm tools run leaves it well formed.
   */
  lemma InvokeKeepsWellFormed(name: string, args: seq<Json>, root: Fs.Path, s: Fs.Store, e: External)
    requires Fs.Normalized(root) && Fs.WellFormed(s)
    requires e.exec.Exited? ==> Fs.WellFormed(e.exec.after)
    ensures Fs.WellFormed(Invoke(name, args, root, s, e).store)
  {
    if Lookup(name).Own? {
      RunKeepsWellFormed(Lookup(name).tool, args, root, s, e);
    }
  }
}
