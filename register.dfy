/**
 * The discovery half of `register` (cmd/register.go): the target module named in go.mod,
 * the registration derived from a module's name, and the scan of app/rpc that collects one
 * registration per module directory holding a readable service.go.
 *
 * go.mod and the listing of app/rpc are inputs: go.mod as the result of reading it, the
 * listing as the entries the directory read returns, each with what a stat and a read of
 * its service.go find.
 */
module Register {
  import opened Results
  import opened GoStrings
  import opened Seqs
  import opened FileStore
  import opened Naming
  import opened ModuleTemplates

  // ---------------------------------------------------------------------------
  // getTargetModuleName

  const ModuleDirective := "module "

  /** The index of the first line that starts with the module directive, or |lines| if none does. */
  function ModuleLineIndex(lines: seq<string>): (k: nat)
    ensures k <= |lines|
    ensures forall j :: 0 <= j < k ==> !HasPrefix(lines[j], ModuleDirective)
    ensures k < |lines| ==> HasPrefix(lines[k], ModuleDirective)
  {
    if lines == [] then 0
    else if HasPrefix(lines[0], ModuleDirective) then 0
    else 1 + ModuleLineIndex(lines[1..])
  }

  /** What getTargetModuleName returns for the given result of reading go.mod. */
  function TargetModuleOf(goMod: Option<string>): Result<string> {
    match goMod
    case None => Err(ReadFailed("go.mod"))
    case Some(text) =>
      var lines := Split(text, '\n');
      var k := ModuleLineIndex(lines);
      if k == |lines| then Err(ModuleNameMissing)
      else Ok(TrimSpace(TrimPrefix(lines[k], ModuleDirective)))
  }

  /** getTargetModuleName: scans the lines of go.mod for the first module directive. */
  method GetTargetModuleName(goMod: Option<string>) returns (r: Result<string>)
    ensures r == TargetModuleOf(goMod)
  {
    if goMod.None? {
      return Err(ReadFailed("go.mod"));
    }
    var lines := Split(goMod.value, '\n');
    var i := 0;
    while i < |lines|
      invariant i <= |lines|
      invariant forall j :: 0 <= j < i ==> !HasPrefix(lines[j], ModuleDirective)
    {
      if HasPrefix(lines[i], ModuleDirective) {
        FirstModuleLineNamesTarget(goMod.value, i);
        return Ok(TrimSpace(TrimPrefix(lines[i], ModuleDirective)));
      }
      i := i + 1;
    }
    assert ModuleLineIndex(lines) == |lines|;
    return Err(ModuleNameMissing);
  }

  /**
   * The target module is the remainder of the first line that starts with the module
   * directive, with surrounding white space trimmed; later module lines are not looked at.
   */
  lemma FirstModuleLineNamesTarget(text: string, i: nat)
    requires i < |Split(text, '\n')| && HasPrefix(Split(text, '\n')[i], ModuleDirective)
    requires forall j :: 0 <= j < i ==> !HasPrefix(Split(text, '\n')[j], ModuleDirective)
    ensures TargetModuleOf(Some(text)) == Ok(TrimSpace(TrimPrefix(Split(text, '\n')[i], ModuleDirective)))
  {
    var k := ModuleLineIndex(Split(text, '\n'));
    assert k == i;
  }

  /** go.mod names no module exactly when none of its lines starts with the module directive. */
  lemma ModuleNameMissingIffNoDirective(text: string)
    ensures TargetModuleOf(Some(text)) == Err(ModuleNameMissing)
            <==> forall l :: l in Split(text, '\n') ==> !HasPrefix(l, ModuleDirective)
  {
    var lines := Split(text, '\n');
    var k := ModuleLineIndex(lines);
    if k < |lines| {
      assert lines[k] in lines;
    } else {
      forall l | l in lines ensures !HasPrefix(l, ModuleDirective) {
        var j :| 0 <= j < |lines| && lines[j] == l;
      }
    }
  }

  /** A go.mod that opens with `module <name>` gives back that name. */
  lemma DeclaredModuleIsTarget(name: string, rest: string)
    requires SingleLine(name)
    requires name == [] || (!IsSpace(name[0]) && !IsSpace(name[|name| - 1]))
    ensures TargetModuleOf(Some(ModuleDirective + name + "\n" + rest)) == Ok(name)
  {
    var first := ModuleDirective + name;
    assert ModuleDirective + name + "\n" + rest == first + ['\n'] + rest;
    SplitAtFirst(first, '\n', rest);
    assert TrimPrefix(first, ModuleDirective) == name;
    TrimSpaceKeeps(name);
  }

  // ---------------------------------------------------------------------------
  // extractServiceInfo

  /** What `register` needs to know to mount one module's service on the gRPC server. */
  datatype ServiceRegistration = ServiceRegistration(
    ModuleName: string,
    ServiceName: string,
    PbImportPath: string,
    PbPackage: string,
    ServiceVar: string,
    RegisterFunc: string)

  /** The registration derived from a module name and the target module. */
  function ServiceInfo(moduleName: string, targetModule: string): ServiceRegistration {
    var svc := PascalOf(moduleName);
    var pb := PbPackage(moduleName);
    ServiceRegistration(moduleName, svc, PbImportPath(targetModule, moduleName), pb,
                        Lower(svc) + "Service", pb + ".Register" + svc + "ServiceServer")
  }

  /** extractServiceInfo: reads service.go only to check that it can be read. */
  function ExtractServiceInfo(servicePath: string, moduleName: string, targetModule: string,
                              content: Option<string>): (r: Result<ServiceRegistration>)
    ensures r.Ok? <==> content.Some?
    ensures r.Err? ==> r.error == ReadFailed(servicePath)
    ensures r.Ok? ==> r.value.ModuleName == moduleName && r.value.ServiceName == PascalOf(moduleName)
    ensures r.Ok? ==> r.value.PbPackage == Lower(moduleName) + "pb"
    ensures r.Ok? ==> r.value.PbImportPath == targetModule + "/protogen/" + Lower(moduleName)
    ensures r.Ok? ==> r.value.ServiceVar == Lower(PascalOf(moduleName)) + "Service"
    ensures r.Ok? ==> r.value.RegisterFunc == Lower(moduleName) + "pb" + ".Register" + PascalOf(moduleName) + "ServiceServer"
  {
    if content.None? then Err(ReadFailed(servicePath)) else Ok(ServiceInfo(moduleName, targetModule))
  }

  /** The registration does not depend on what service.go holds, only on whether it was read. */
  lemma RegistrationIgnoresServiceText(servicePath: string, moduleName: string, targetModule: string,
                                       a: string, b: string)
    ensures ExtractServiceInfo(servicePath, moduleName, targetModule, Some(a))
            == ExtractServiceInfo(servicePath, moduleName, targetModule, Some(b))
  {
  }

  /**
   * The registration names what `module add` writes into the module's service.go: the
   * protobuf package is imported there under the registration's alias and path, and the
   * service type embeds the Unimplemented server of the registration's service name, the
   * server that the registration's RegisterFunc registers.
   */
  lemma RegistrationMatchesGeneratedService(moduleName: string, targetModule: string)
    requires SingleLine(moduleName) && SingleLine(targetModule)
    ensures var reg := ServiceInfo(moduleName, targetModule);
      && HasLine(ServiceContent(moduleName, targetModule), ImportLine(reg.PbPackage, reg.PbImportPath))
      && HasLine(ServiceContent(moduleName, targetModule),
                 "\t" + reg.PbPackage + ".Unimplemented" + reg.ServiceName + "ServiceServer")
      && reg.RegisterFunc == reg.PbPackage + ".Register" + reg.ServiceName + "ServiceServer"
  {
    ServiceDeclaresType(moduleName, targetModule);
    ServiceEmbedsUnimplementedServer(moduleName, targetModule);
  }

  // ---------------------------------------------------------------------------
  // discoverModules

  /** What stat and read find at a module's service.go. */
  datatype ServiceFile = Missing | Unreadable | Readable(text: string)

  /** One entry of the app/rpc listing. */
  datatype DirEntry = DirEntry(name: string, isDir: bool, service: ServiceFile)

  /** What stat and read of app/rpc find. */
  datatype RpcDir = NoRpcDir | ListFailed | Listing(entries: seq<DirEntry>)

  const RpcPath := PathJoin("app", "rpc")

  function ServicePathOf(moduleName: string): string {
    PathJoin(PathJoin(RpcPath, moduleName), "service.go")
  }

  /** The result of os.ReadFile on a service.go. */
  function ServiceText(f: ServiceFile): Option<string> {
    if f.Readable? then Some(f.text) else None
  }

  /** What one entry adds to the registrations: nothing, or its registration. */
  function EntryRegistrations(targetModule: string): DirEntry -> seq<ServiceRegistration> {
    (e: DirEntry) =>
      if !e.isDir || e.service.Missing? then []
      else
        match ExtractServiceInfo(ServicePathOf(e.name), e.name, targetModule, ServiceText(e.service))
        case Ok(reg) => [reg]
        case Err(_) => []
  }

  /** The registrations collected from a listing. */
  function Registrations(targetModule: string, entries: seq<DirEntry>): seq<ServiceRegistration> {
    FlatMap(EntryRegistrations(targetModule), entries)
  }

  /** What discoverModules returns. */
  function ModulesOf(goMod: Option<string>, rpc: RpcDir): Result<seq<ServiceRegistration>> {
    match TargetModuleOf(goMod)
    case Err(e) => Err(e)
    case Ok(t) =>
      match rpc
      case NoRpcDir => Ok([])
      case ListFailed => Err(RpcDirUnreadable)
      case Listing(entries) => Ok(Registrations(t, entries))
  }

  /**
   * discoverModules: the target module first, then the listing of app/rpc, skipping
   * entries that are not directories, directories without a service.go, and modules whose
   * service.go cannot be read (the source warns about those).
   */
  method DiscoverModules(goMod: Option<string>, rpc: RpcDir) returns (r: Result<seq<ServiceRegistration>>)
    ensures r == ModulesOf(goMod, rpc)
  {
    var target := GetTargetModuleName(goMod);
    if target.Err? {
      return Err(target.error);
    }
    var targetModule := target.value;
    if rpc.NoRpcDir? {
      return Ok([]);
    }
    if rpc.ListFailed? {
      return Err(RpcDirUnreadable);
    }
    var entries := rpc.entries;
    var registrations: seq<ServiceRegistration> := [];
    var i := 0;
    while i < |entries|
      invariant i <= |entries|
      invariant registrations == Registrations(targetModule, entries[..i])
    {
      var entry := entries[i];
      FlatMapSnoc(EntryRegistrations(targetModule), entries, i);
      i := i + 1;
      if !entry.isDir {
        continue;
      }
      var moduleName := entry.name;
      var servicePath := ServicePathOf(moduleName);
      if entry.service.Missing? {
        continue;
      }
      var serviceInfo := ExtractServiceInfo(servicePath, moduleName, targetModule, ServiceText(entry.service));
      if serviceInfo.Err? {
        continue;
      }
      registrations := registrations + [serviceInfo.value];
    }
    assert entries[..|entries|] == entries;
    return Ok(registrations);
  }

  // ---------------------------------------------------------------------------
  // Properties of the discovery

  /** A directory whose service.go exists and can be read. */
  predicate Registrable(e: DirEntry) {
    e.isDir && e.service.Readable?
  }

  function InfoOf(targetModule: string): DirEntry -> ServiceRegistration {
    (e: DirEntry) => ServiceInfo(e.name, targetModule)
  }

  /**
   * The registrations are those of the registrable entries, one each, in listing order:
   * a subsequence of the listing.
   */
  lemma RegistrationsFollowListing(targetModule: string, entries: seq<DirEntry>)
    ensures Registrations(targetModule, entries) == Map(InfoOf(targetModule), Filter(Registrable, entries))
  {
    FlatMapOfSingletons(EntryRegistrations(targetModule), Registrable, InfoOf(targetModule), entries);
  }

  /**
   * Skipping is silent: a plain file, a directory without service.go or one whose service.go
   * cannot be read leaves the result as if the entry were not listed.
   */
  lemma UnregistrableEntrySkipped(targetModule: string, entries: seq<DirEntry>, i: nat)
    requires i < |entries| && !Registrable(entries[i])
    ensures Registrations(targetModule, entries) == Registrations(targetModule, entries[..i] + entries[i + 1..])
  {
    FlatMapSkip(EntryRegistrations(targetModule), entries, i);
  }

  /** A go.mod failure is reported whatever app/rpc holds: it is looked at first. */
  lemma GoModFailureComesFirst(goMod: Option<string>, rpc: RpcDir)
    requires TargetModuleOf(goMod).Err?
    ensures ModulesOf(goMod, rpc) == Err(TargetModuleOf(goMod).error)
  {
  }

  /** Without app/rpc there is nothing to register, and that is not an error. */
  lemma NoRpcDirNoRegistrations(goMod: Option<string>)
    requires TargetModuleOf(goMod).Ok?
    ensures ModulesOf(goMod, NoRpcDir) == Ok([])
  {
  }
}
