/**
 * `module add`: the module configuration, the extraction of service methods from the
 * generated gRPC files, and the writing of the per-module files. Every file is written
 * with os.Create, which truncates: an existing file is overwritten.
 */
module ModuleCmd {
  import opened Results
  import opened GoStrings
  import opened FileStore
  import opened Naming
  import opened GrpcParse
  import opened ModuleTemplates
  import opened Seqs

  /** The configuration of one `module add` run; the paths are fixed when it is built. */
  class ModuleConfig {
    const ModuleName: string
    const TargetModule: string
    const ProtoPath: string
    const AppPath: string
    const ProtogenPath: string
    var ProtoFiles: seq<string>
    var ServiceMethods: seq<ServiceMethod>

    constructor (moduleName: string, targetModule: string)
      ensures ModuleName == moduleName && TargetModule == targetModule
      ensures ProtoPath == PathJoin("proto", moduleName)
      ensures AppPath == PathJoin("app/rpc", moduleName)
      ensures ProtogenPath == "protogen"
      ensures ProtoFiles == [] && ServiceMethods == []
    {
      ModuleName := moduleName;
      TargetModule := targetModule;
      ProtoPath := PathJoin("proto", moduleName);
      AppPath := PathJoin("app/rpc", moduleName);
      ProtogenPath := "protogen";
      ProtoFiles := [];
      ServiceMethods := [];
    }
  }

  // ---------------------------------------------------------------------------
  // extractServiceMethods

  /** A file the `*_grpc.pb.go` glob matched: its path and its text (None when unreadable). */
  datatype GrpcFile = GrpcFile(path: string, content: Option<string>)

  /** The methods a file contributes; a file that cannot be read is skipped and contributes none. */
  function FileMethods(mt: Matchers, f: GrpcFile): seq<ServiceMethod> {
    if f.content.None? then [] else Scan(mt, Split(f.content.value, '\n')).methods
  }

  /** FileMethods as a function value, for the maps over the list of files. */
  function FileMethodsOf(mt: Matchers): GrpcFile -> seq<ServiceMethod> {
    f => FileMethods(mt, f)
  }

  /** The methods of all files, file after file. */
  function AllMethods(mt: Matchers, files: seq<GrpcFile>): seq<ServiceMethod> {
    FlatMap(FileMethodsOf(mt), files)
  }

  /** Files that cannot be read contribute nothing: dropping them does not change the result. */
  lemma UnreadableFilesSkipped(mt: Matchers, files: seq<GrpcFile>, i: nat)
    requires i < |files| && files[i].content.None?
    ensures AllMethods(mt, files) == AllMethods(mt, files[..i] + files[i + 1..])
  {
    FlatMapSkip(FileMethodsOf(mt), files, i);
  }

  /**
   * extractServiceMethods: no matched file is an error; otherwise the methods of every
   * readable file are appended in file order, and an empty total is an error.
   */
  method ExtractServiceMethods(config: ModuleConfig, mt: Matchers, files: seq<GrpcFile>)
    returns (r: Outcome)
    modifies config`ServiceMethods
    ensures files == [] ==>
              r == Failed(NoGrpcFiles(config.ModuleName)) && config.ServiceMethods == old(config.ServiceMethods)
    ensures files != [] ==> config.ServiceMethods == old(config.ServiceMethods) + AllMethods(mt, files)
    ensures files != [] ==>
              r == if config.ServiceMethods == [] then Failed(NoServiceMethods(config.ModuleName)) else Done
  {
    if |files| == 0 {
      return Failed(NoGrpcFiles(config.ModuleName));
    }
    var i := 0;
    while i < |files|
      invariant 0 <= i <= |files|
      invariant config.ServiceMethods == old(config.ServiceMethods) + AllMethods(mt, files[..i])
    {
      FlatMapSnoc(FileMethodsOf(mt), files, i);
      var res := ParseGrpcFile(mt, files[i].path, files[i].content);
      if res.Ok? {
        config.ServiceMethods := config.ServiceMethods + res.value;
      }
      i := i + 1;
    }
    assert files[..|files|] == files;
    if |config.ServiceMethods| == 0 {
      return Failed(NoServiceMethods(config.ModuleName));
    }
    return Done;
  }

  // ---------------------------------------------------------------------------
  // writeFile and generateHandlerFiles

  /** A file to be written: its path and its full new text. */
  datatype Write = Write(path: string, content: string)

  /** The store once a write has gone through: the path holds the new text. */
  function Apply(files: map<string, string>, w: Write): map<string, string> {
    files[w.path := w.content]
  }

  /**
   * writeFile: os.Create then WriteString. It fails when the path cannot be created;
   * otherwise the path holds exactly `content`, whether or not it existed before.
   */
  method WriteFile(files: map<string, string>, dirs: set<string>, path: string, content: string)
    returns (files': map<string, string>, r: Outcome)
    ensures r == if CanCreate(dirs, path) then Done else Failed(CreateFailed(path))
    ensures files' == if r.Done? then Apply(files, Write(path, content)) else files
    ensures WriteRun(files', r) == RunWrites(dirs, files, [Write(path, content)])
  {
    RunOneWrite(dirs, files, Write(path, content));
    if !CanCreate(dirs, path) {
      return files, Failed(CreateFailed(path));
    }
    return files[path := content], Done;
  }

  /** The file store after the given writes, in order. */
  function ApplyWrites(files: map<string, string>, ws: seq<Write>): map<string, string> {
    if ws == [] then files
    else Apply(ApplyWrites(files, ws[..|ws| - 1]), ws[|ws| - 1])
  }

  /** The index of the first write whose path cannot be created (|ws| when there is none). */
  function FirstBlocked(dirs: set<string>, ws: seq<Write>): (k: nat)
    ensures k <= |ws|
    ensures forall i :: 0 <= i < k ==> CanCreate(dirs, ws[i].path)
    ensures k < |ws| ==> !CanCreate(dirs, ws[k].path)
  {
    if ws == [] || !CanCreate(dirs, ws[0].path) then 0 else 1 + FirstBlocked(dirs, ws[1..])
  }

  /** A write overwrites: afterwards the path holds the new text and no other path changes. */
  lemma WriteOverwrites(files: map<string, string>, w: Write, p: string)
    ensures w.path in ApplyWrites(files, [w]) && ApplyWrites(files, [w])[w.path] == w.content
    ensures p != w.path ==>
              (p in ApplyWrites(files, [w]) <==> p in files)
              && (p in files ==> ApplyWrites(files, [w])[p] == files[p])
  {
    assert [w][..0] == [];
  }

  /** Writing is not idempotent: an existing file with other text is replaced. */
  lemma WriteReplacesExisting(files: map<string, string>, w: Write)
    requires w.path in files && files[w.path] != w.content
    ensures ApplyWrites(files, [w]) != files
  {
    WriteOverwrites(files, w, w.path);
  }

  /** A sequence of writes in two parts is the second part applied after the first. */
  lemma {:induction false} ApplyWritesAppend(files: map<string, string>, a: seq<Write>, b: seq<Write>)
    ensures ApplyWrites(files, a + b) == ApplyWrites(ApplyWrites(files, a), b)
    decreases |b|
  {
    if b == [] {
      assert a + b == a;
    } else {
      var b' := b[..|b| - 1];
      assert (a + b)[..|a + b| - 1] == a + b';
      ApplyWritesAppend(files, a, b');
    }
  }

  /** The last write to a path decides its text. */
  lemma {:induction false} LastWriteWins(files: map<string, string>, ws: seq<Write>, j: nat)
    requires j < |ws|
    requires forall i :: j < i < |ws| ==> ws[i].path != ws[j].path
    ensures ws[j].path in ApplyWrites(files, ws) && ApplyWrites(files, ws)[ws[j].path] == ws[j].content
  {
    if j < |ws| - 1 {
      var init := ws[..|ws| - 1];
      assert forall i :: j < i < |init| ==> init[i] == ws[i];
      LastWriteWins(files, init, j);
    }
  }

  /**
   * When writes run first, then others, then last, the first write's text survives unless a
   * later write takes its path, and the last write's text survives.
   */
  lemma FirstAndLastWritesHold(files: map<string, string>, first: Write, mid: seq<Write>, last: Write)
    requires first.path != last.path
    requires forall i :: 0 <= i < |mid| ==> mid[i].path != first.path
    ensures var after := ApplyWrites(files, [first] + mid + [last]);
            && first.path in after && after[first.path] == first.content
            && last.path in after && after[last.path] == last.content
  {
    var ws := [first] + mid + [last];
    assert forall i :: 0 < i < |ws| - 1 ==> ws[i] == mid[i - 1];
    LastWriteWins(files, ws, 0);
    LastWriteWins(files, ws, |ws| - 1);
  }

  /** A path no write names keeps its old text (or stays absent). */
  lemma {:induction false} UnwrittenUnchanged(files: map<string, string>, ws: seq<Write>, p: string)
    requires forall i :: 0 <= i < |ws| ==> ws[i].path != p
    ensures p in ApplyWrites(files, ws) <==> p in files
    ensures p in files ==> ApplyWrites(files, ws)[p] == files[p]
  {
    if ws != [] {
      var init := ws[..|ws| - 1];
      assert forall i :: 0 <= i < |init| ==> init[i] == ws[i];
      UnwrittenUnchanged(files, init, p);
    }
  }

  /** The first blocked write of a sequence in two parts. */
  lemma {:induction false} FirstBlockedAppend(dirs: set<string>, a: seq<Write>, b: seq<Write>)
    ensures FirstBlocked(dirs, a + b)
         == if FirstBlocked(dirs, a) < |a| then FirstBlocked(dirs, a) else |a| + FirstBlocked(dirs, b)
    decreases |a|
  {
    if a != [] {
      assert (a + b)[0] == a[0];
      assert (a + b)[1..] == a[1..] + b;
      FirstBlockedAppend(dirs, a[1..], b);
    } else {
      assert a + b == b;
    }
  }

  /** The store and the outcome after a run of writes. */
  datatype WriteRun = WriteRun(files: map<string, string>, outcome: Outcome)

  /** Writes performed in order with writeFile; once one fails, the later ones are not attempted. */
  function RunWrites(dirs: set<string>, files: map<string, string>, ws: seq<Write>): WriteRun {
    if ws == [] then WriteRun(files, Done)
    else
      var prev := RunWrites(dirs, files, ws[..|ws| - 1]);
      var w := ws[|ws| - 1];
      if prev.outcome.Failed? then prev
      else if !CanCreate(dirs, w.path) then WriteRun(prev.files, Failed(CreateFailed(w.path)))
      else WriteRun(Apply(prev.files, w), Done)
  }

  /** A single write through writeFile. */
  lemma RunOneWrite(dirs: set<string>, files: map<string, string>, w: Write)
    ensures RunWrites(dirs, files, [w])
         == if CanCreate(dirs, w.path) then WriteRun(Apply(files, w), Done)
            else WriteRun(files, Failed(CreateFailed(w.path)))
  {
    assert [w][..0] == [];
  }

  /** A run of writes in two parts: the second part runs only when the first succeeded. */
  lemma {:induction false} RunWritesAppend(dirs: set<string>, files: map<string, string>, a: seq<Write>, b: seq<Write>)
    ensures var ra := RunWrites(dirs, files, a);
            RunWrites(dirs, files, a + b) == if ra.outcome.Failed? then ra else RunWrites(dirs, ra.files, b)
    decreases |b|
  {
    if b == [] {
      assert a + b == a;
    } else {
      var b' := b[..|b| - 1];
      assert (a + b)[..|a + b| - 1] == a + b';
      RunWritesAppend(dirs, files, a, b');
    }
  }

  /**
   * One step of a loop of writes: when the earlier writes succeeded and the next one
   * is run from their result, the run has been extended by that write; when it failed,
   * the writes after it do not change the result.
   */
  lemma RunWritesStep(
    dirs: set<string>, files: map<string, string>, done: seq<Write>, w: Write, rest: seq<Write>,
    cur: map<string, string>, files': map<string, string>, r: Outcome)
    requires RunWrites(dirs, files, done) == WriteRun(cur, Done)
    requires WriteRun(files', r) == RunWrites(dirs, cur, [w])
    ensures RunWrites(dirs, files, done + [w]) == WriteRun(files', r)
    ensures r.Failed? ==> RunWrites(dirs, files, done + [w] + rest) == WriteRun(files', r)
  {
    RunWritesAppend(dirs, files, done, [w]);
    RunWritesAppend(dirs, files, done + [w], rest);
  }

  /**
   * A run of writes applies, in order, every write before the first one that cannot be
   * created, and fails with that one's path; it succeeds when there is none.
   */
  lemma {:induction false} RunWritesStopsAtFirstBlocked(dirs: set<string>, files: map<string, string>, ws: seq<Write>)
    ensures var k := FirstBlocked(dirs, ws);
            RunWrites(dirs, files, ws)
            == WriteRun(ApplyWrites(files, ws[..k]), if k == |ws| then Done else Failed(CreateFailed(ws[k].path)))
  {
    if ws != [] {
      var init, w := ws[..|ws| - 1], ws[|ws| - 1];
      assert ws == init + [w];
      RunWritesStopsAtFirstBlocked(dirs, files, init);
      FirstBlockedAppend(dirs, init, [w]);
      assert [w][1..] == [];
      var k' := FirstBlocked(dirs, init);
      if k' < |init| {
        assert ws[..k'] == init[..k'];
      } else {
        assert init[..k'] == init;
        assert ws[..|init|] == init;
        assert ws[..|ws|] == ws;
      }
    }
  }

  /** The handler file of one method. */
  function HandlerWrite(moduleName: string, targetModule: string, appPath: string, m: ServiceMethod): Write {
    Write(PathJoin(appPath, m.FileName), HandlerContent(moduleName, targetModule, m))
  }

  /** HandlerWrite of a module as a function value, for the map over the methods. */
  function HandlerWriteOf(moduleName: string, targetModule: string, appPath: string): ServiceMethod -> Write {
    m => HandlerWrite(moduleName, targetModule, appPath, m)
  }

  /** The handler files of a module: one per method, in method order. */
  function HandlerWrites(moduleName: string, targetModule: string, appPath: string, methods: seq<ServiceMethod>)
    : seq<Write>
  {
    Map(HandlerWriteOf(moduleName, targetModule, appPath), methods)
  }

  /**
   * One step of a loop of writes: the writes before i all succeeded and the i-th was then
   * run from their result. The run has been extended by it; when it failed, the writes after
   * it do not change the result.
   */
  lemma RunWritesPrefixStep(
    dirs: set<string>, files: map<string, string>, ws: seq<Write>, i: nat,
    cur: map<string, string>, files': map<string, string>, r: Outcome)
    requires i < |ws|
    requires RunWrites(dirs, files, ws[..i]) == WriteRun(cur, Done)
    requires WriteRun(files', r) == RunWrites(dirs, cur, [ws[i]])
    ensures RunWrites(dirs, files, ws[..i + 1]) == WriteRun(files', r)
    ensures r.Failed? ==> RunWrites(dirs, files, ws) == WriteRun(files', r)
  {
    assert ws[..i + 1] == ws[..i] + [ws[i]];
    assert ws == ws[..i + 1] + ws[i + 1..];
    RunWritesStep(dirs, files, ws[..i], ws[i], ws[i + 1..], cur, files', r);
  }

  /** The body of generateHandlerFiles' loop: the handler of one method is generated and written. */
  method WriteHandlerFile(
    files: map<string, string>, dirs: set<string>, moduleName: string, targetModule: string, appPath: string, m: ServiceMethod)
    returns (files': map<string, string>, r: Outcome)
    ensures WriteRun(files', r) == RunWrites(dirs, files, [HandlerWrite(moduleName, targetModule, appPath, m)])
  {
    var content := HandlerContent(moduleName, targetModule, m);
    var filePath := PathJoin(appPath, m.FileName);
    files', r := WriteFile(files, dirs, filePath, content);
  }

  /**
   * generateHandlerFiles: the handler of each method is written in order, and the first
   * write that fails stops the loop with that error.
   */
  method GenerateHandlerFiles(
    files: map<string, string>, dirs: set<string>, moduleName: string, targetModule: string, appPath: string,
    methods: seq<ServiceMethod>)
    returns (files': map<string, string>, r: Outcome)
    ensures WriteRun(files', r) == RunWrites(dirs, files, HandlerWrites(moduleName, targetModule, appPath, methods))
  {
    ghost var ws := HandlerWrites(moduleName, targetModule, appPath, methods);
    files' := files;
    var i := 0;
    while i < |methods|
      invariant 0 <= i <= |methods|
      invariant RunWrites(dirs, files, ws[..i]) == WriteRun(files', Done)
    {
      ghost var before := files';
      var w;
      files', w := WriteHandlerFile(files', dirs, moduleName, targetModule, appPath, methods[i]);
      RunWritesPrefixStep(dirs, files, ws, i, before, files', w);
      if w.Failed? {
        return files', w;
      }
      i := i + 1;
    }
    assert ws[..|methods|] == ws;
    return files', Done;
  }

  /**
   * When two methods share a handler file name, the later one's handler is what the
   * file holds once all handlers are written.
   */
  lemma SharedFileNameLastWins(
    files: map<string, string>, moduleName: string, targetModule: string, appPath: string,
    methods: seq<ServiceMethod>, a: nat, b: nat)
    requires a < b < |methods| && methods[a].FileName == methods[b].FileName
    requires forall i :: b < i < |methods| ==> methods[i].FileName != methods[b].FileName
    ensures var ws := HandlerWrites(moduleName, targetModule, appPath, methods);
            |ws| == |methods| && ws[a].path in ApplyWrites(files, ws)
            && ApplyWrites(files, ws)[ws[a].path] == HandlerContent(moduleName, targetModule, methods[b])
  {
    var ws := HandlerWrites(moduleName, targetModule, appPath, methods);
    forall i | b < i < |ws|
      ensures ws[i].path != ws[b].path
    {
      PathJoinInjective(appPath, methods[i].FileName, methods[b].FileName);
    }
    LastWriteWins(files, ws, b);
  }

  /** Method names that differ can share a handler file: `getA` and `Get_a` both use rpc_get_a.go. */
  lemma HandlerFileNamesCollide()
    ensures "getA" != "Get_a" && HandlerFileName("getA") == HandlerFileName("Get_a")
  {
    SnakeNotInjective();
  }

  // ---------------------------------------------------------------------------
  // The module directory, service.go and converter.go

  /** createModuleDirectory: os.MkdirAll of the module's directory. */
  method CreateModuleDirectory(files: map<string, string>, dirs: set<string>, appPath: string)
    returns (dirs': set<string>, r: Outcome)
    ensures r.Done? <==> appPath !in files && Ancestors(appPath) !! files.Keys
    ensures r.Failed? ==> r == Failed(MkdirFailed(appPath))
    ensures dirs' == if r.Done? then dirs + {appPath} + Ancestors(appPath) else dirs
  {
    var ok;
    dirs', ok := MkdirAll(files, dirs, appPath);
    r := if ok then Done else Failed(MkdirFailed(appPath));
  }

  /** The service.go write of a module. */
  function ServiceWrite(moduleName: string, targetModule: string, appPath: string): Write {
    Write(PathJoin(appPath, "service.go"), ServiceContent(moduleName, targetModule))
  }

  /** The converter.go write of a module. */
  function ConverterWrite(moduleName: string, targetModule: string, appPath: string): Write {
    Write(PathJoin(appPath, "converter.go"), ConverterContent(moduleName, targetModule))
  }

  /** generateServiceFile: service.go is written (overwritten) in the module's directory. */
  method GenerateServiceFile(files: map<string, string>, dirs: set<string>, moduleName: string, targetModule: string, appPath: string)
    returns (files': map<string, string>, r: Outcome)
    ensures WriteRun(files', r) == RunWrites(dirs, files, [ServiceWrite(moduleName, targetModule, appPath)])
  {
    var content := ServiceContent(moduleName, targetModule);
    files', r := WriteFile(files, dirs, PathJoin(appPath, "service.go"), content);
  }

  /** generateConverterFile: converter.go is written (overwritten) in the module's directory. */
  method GenerateConverterFile(files: map<string, string>, dirs: set<string>, moduleName: string, targetModule: string, appPath: string)
    returns (files': map<string, string>, r: Outcome)
    ensures WriteRun(files', r) == RunWrites(dirs, files, [ConverterWrite(moduleName, targetModule, appPath)])
  {
    var content := ConverterContent(moduleName, targetModule);
    files', r := WriteFile(files, dirs, PathJoin(appPath, "converter.go"), content);
  }

  /** service.go and then the handler files, the writes before converter.go. */
  function ServiceAndHandlerWrites(moduleName: string, targetModule: string, appPath: string, methods: seq<ServiceMethod>)
    : seq<Write>
  {
    [ServiceWrite(moduleName, targetModule, appPath)] + HandlerWrites(moduleName, targetModule, appPath, methods)
  }

  /** All files `module add` generates for a module, in the order they are written. */
  function ModuleWrites(moduleName: string, targetModule: string, appPath: string, methods: seq<ServiceMethod>)
    : seq<Write>
  {
    ServiceAndHandlerWrites(moduleName, targetModule, appPath, methods) + [ConverterWrite(moduleName, targetModule, appPath)]
  }

  /** A run of writes followed by one more write: the last one runs only when the others succeeded. */
  lemma RunWritesThen(
    dirs: set<string>, files: map<string, string>, ws: seq<Write>, w: Write,
    cur: map<string, string>, done: Outcome, files': map<string, string>, r: Outcome)
    requires RunWrites(dirs, files, ws) == WriteRun(cur, done)
    requires done.Done? ==> WriteRun(files', r) == RunWrites(dirs, cur, [w])
    ensures RunWrites(dirs, files, ws + [w]) == if done.Failed? then WriteRun(cur, done) else WriteRun(files', r)
  {
    RunWritesAppend(dirs, files, ws, [w]);
  }

  /** No handler file is service.go: handler file names start with "rpc_". */
  lemma HandlersAvoidServiceFile(moduleName: string, targetModule: string, appPath: string, methods: seq<ServiceMethod>)
    requires forall i :: 0 <= i < |methods| ==> methods[i].FileName == HandlerFileName(methods[i].Name)
    ensures forall i :: 0 <= i < |HandlerWrites(moduleName, targetModule, appPath, methods)| ==>
              HandlerWrites(moduleName, targetModule, appPath, methods)[i].path != PathJoin(appPath, "service.go")
  {
    forall i | 0 <= i < |methods|
      ensures HandlerWrites(moduleName, targetModule, appPath, methods)[i].path != PathJoin(appPath, "service.go")
    {
      var name := methods[i].FileName;
      assert name[0] == 'r';
      assert name != "service.go" by { assert "service.go"[0] == 's'; }
      PathJoinInjective(appPath, name, "service.go");
    }
  }

  /**
   * After all writes of a module, converter.go and service.go hold their generated text:
   * no handler file is named either of them.
   */
  lemma ModuleFilesHoldTheirText(
    files: map<string, string>, moduleName: string, targetModule: string, appPath: string,
    methods: seq<ServiceMethod>)
    requires forall i :: 0 <= i < |methods| ==> methods[i].FileName == HandlerFileName(methods[i].Name)
    ensures var after := ApplyWrites(files, ModuleWrites(moduleName, targetModule, appPath, methods));
            && PathJoin(appPath, "service.go") in after && PathJoin(appPath, "converter.go") in after
            && after[PathJoin(appPath, "service.go")] == ServiceContent(moduleName, targetModule)
            && after[PathJoin(appPath, "converter.go")] == ConverterContent(moduleName, targetModule)
  {
    var sw, hs, cw := ServiceWrite(moduleName, targetModule, appPath),
      HandlerWrites(moduleName, targetModule, appPath, methods), ConverterWrite(moduleName, targetModule, appPath);
    HandlersAvoidServiceFile(moduleName, targetModule, appPath, methods);
    assert sw.path == PathJoin(appPath, "service.go");
    PathJoinInjective(appPath, "converter.go", "service.go");
    assert ModuleWrites(moduleName, targetModule, appPath, methods) == [sw] + hs + [cw];
    FirstAndLastWritesHold(files, sw, hs, cw);
  }

  /** service.go and then the handlers are written in that order, stopping at the first error. */
  method WriteServiceAndHandlers(
    files: map<string, string>, dirs: set<string>, moduleName: string, targetModule: string, appPath: string,
    methods: seq<ServiceMethod>)
    returns (files': map<string, string>, r: Outcome)
    ensures WriteRun(files', r) == RunWrites(dirs, files, ServiceAndHandlerWrites(moduleName, targetModule, appPath, methods))
  {
    RunWritesAppend(dirs, files, [ServiceWrite(moduleName, targetModule, appPath)],
      HandlerWrites(moduleName, targetModule, appPath, methods));
    files', r := GenerateServiceFile(files, dirs, moduleName, targetModule, appPath);
    if r.Failed? {
      return;
    }
    files', r := GenerateHandlerFiles(files', dirs, moduleName, targetModule, appPath, methods);
  }

  /** service.go, the handlers and converter.go are written in that order, stopping at the first error. */
  method WriteModuleArtifacts(
    files: map<string, string>, dirs: set<string>, moduleName: string, targetModule: string, appPath: string,
    methods: seq<ServiceMethod>)
    returns (files': map<string, string>, r: Outcome)
    ensures WriteRun(files', r) == RunWrites(dirs, files, ModuleWrites(moduleName, targetModule, appPath, methods))
  {
    var cur, done := WriteServiceAndHandlers(files, dirs, moduleName, targetModule, appPath, methods);
    files', r := cur, done;
    if done.Done? {
      files', r := GenerateConverterFile(cur, dirs, moduleName, targetModule, appPath);
    }
    RunWritesThen(dirs, files, ServiceAndHandlerWrites(moduleName, targetModule, appPath, methods),
      ConverterWrite(moduleName, targetModule, appPath), cur, done, files', r);
  }

  /**
   * The result of the writing steps of addModule: when the module directory cannot be made
   * nothing changes; otherwise the directory exists and the module's files are written in order.
   */
  ghost predicate WroteModule(
    moduleName: string, targetModule: string, appPath: string, methods: seq<ServiceMethod>,
    files0: map<string, string>, dirs0: set<string>, files: map<string, string>, dirs: set<string>, r: Outcome)
  {
    if appPath in files0 || !(Ancestors(appPath) !! files0.Keys) then
      r == Failed(MkdirFailed(appPath)) && files == files0 && dirs == dirs0
    else
      dirs == dirs0 + {appPath} + Ancestors(appPath)
      && WriteRun(files, r) == RunWrites(dirs, files0, ModuleWrites(moduleName, targetModule, appPath, methods))
  }

  /** The writing steps of addModule: create the module directory, then write the module's files. */
  method WriteModuleFiles(files: map<string, string>, dirs: set<string>, config: ModuleConfig)
    returns (files': map<string, string>, dirs': set<string>, r: Outcome)
    ensures WroteModule(config.ModuleName, config.TargetModule, config.AppPath, config.ServiceMethods,
                        files, dirs, files', dirs', r)
  {
    files' := files;
    dirs', r := CreateModuleDirectory(files, dirs, config.AppPath);
    if r.Failed? {
      return;
    }
    files', r := WriteModuleArtifacts(files, dirs', config.ModuleName, config.TargetModule, config.AppPath, config.ServiceMethods);
  }

  /**
   * The generation steps of addModule after protoc has run: extract the methods, then,
   * when some were found, create the directory and write the module's files. Nothing is
   * written when extraction fails.
   */
  method GenerateModule(
    files: map<string, string>, dirs: set<string>, config: ModuleConfig, mt: Matchers, grpcFiles: seq<GrpcFile>)
    returns (files': map<string, string>, dirs': set<string>, r: Outcome)
    modifies config`ServiceMethods
    ensures grpcFiles == [] ==>
              r == Failed(NoGrpcFiles(config.ModuleName)) && config.ServiceMethods == old(config.ServiceMethods)
    ensures grpcFiles != [] ==> config.ServiceMethods == old(config.ServiceMethods) + AllMethods(mt, grpcFiles)
    ensures grpcFiles != [] && config.ServiceMethods == [] ==> r == Failed(NoServiceMethods(config.ModuleName))
    ensures grpcFiles == [] || config.ServiceMethods == [] ==> files' == files && dirs' == dirs
    ensures grpcFiles != [] && config.ServiceMethods != [] ==>
              WroteModule(config.ModuleName, config.TargetModule, config.AppPath, config.ServiceMethods,
                          files, dirs, files', dirs', r)
  {
    files', dirs' := files, dirs;
    r := ExtractServiceMethods(config, mt, grpcFiles);
    if r.Failed? {
      return;
    }
    files', dirs', r := WriteModuleFiles(files, dirs, config);
  }
}
