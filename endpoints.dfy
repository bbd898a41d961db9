/**
 * The generating half of `register` (cmd/endpoints.go): the gateway's own scan of app/rpc,
 * the regeneration of app/gateway/gateway.go and app/rpc/server.go from the registrations,
 * and the two commands that discover, generate and write.
 *
 * Each generator fills a strings.Builder; the text it returns is the rendering of the
 * pieces it wrote, so its contract gives those pieces in order.
 */
module Endpoints {
  import opened Results
  import opened GoStrings
  import opened Seqs
  import opened FileStore
  import opened Naming
  import opened ModuleTemplates
  import opened ModuleCmd
  import opened Register
  import opened EndpointTexts

  // ---------------------------------------------------------------------------
  // discoverGatewayModules and extractGatewayInfo

  /** What the gateway needs to know to forward HTTP calls to one module's service. */
  datatype GatewayRegistration = GatewayRegistration(
    ModuleName: string,
    ServiceName: string,
    PbImportPath: string,
    PbPackage: string,
    RegisterFunc: string)

  /** extractGatewayInfo: the names derived from the module name; it reads nothing and never fails. */
  function ExtractGatewayInfo(servicePath: string, moduleName: string, targetModule: string)
    : (r: Result<GatewayRegistration>)
    ensures r.Ok?
    ensures r.value.ModuleName == moduleName
    ensures r.value.RegisterFunc == r.value.PbPackage + ".Register" + r.value.ServiceName + "ServiceHandlerFromEndpoint"
  {
    var svc := PascalOf(moduleName);
    var pb := PbPackage(moduleName);
    Ok(GatewayRegistration(moduleName, svc, PbImportPath(targetModule, moduleName), pb,
                           pb + ".Register" + svc + "ServiceHandlerFromEndpoint"))
  }

  /** The gateway's registration names the same service and protobuf package as the server's. */
  lemma GatewayAgreesWithService(servicePath: string, moduleName: string, targetModule: string)
    ensures var g := ExtractGatewayInfo(servicePath, moduleName, targetModule).value;
      var s := ServiceInfo(moduleName, targetModule);
      g.ModuleName == s.ModuleName && g.ServiceName == s.ServiceName
      && g.PbImportPath == s.PbImportPath && g.PbPackage == s.PbPackage
  {
  }

  /** A directory whose service.go exists (whether or not it can be read). */
  predicate Listed(e: DirEntry) {
    e.isDir && !e.service.Missing?
  }

  /** What one entry adds to the gateway registrations. */
  function GatewayEntryRegistrations(targetModule: string): DirEntry -> seq<GatewayRegistration> {
    (e: DirEntry) =>
      if !e.isDir || e.service.Missing? then []
      else
        match ExtractGatewayInfo(ServicePathOf(e.name), e.name, targetModule)
        case Ok(reg) => [reg]
        case Err(_) => []
  }

  function GatewayRegistrations(targetModule: string, entries: seq<DirEntry>): seq<GatewayRegistration> {
    FlatMap(GatewayEntryRegistrations(targetModule), entries)
  }

  /** What discoverGatewayModules returns. */
  function GatewayModulesOf(goMod: Option<string>, rpc: RpcDir): Result<seq<GatewayRegistration>> {
    match TargetModuleOf(goMod)
    case Err(e) => Err(e)
    case Ok(t) =>
      match rpc
      case NoRpcDir => Ok([])
      case ListFailed => Err(RpcDirUnreadable)
      case Listing(entries) => Ok(GatewayRegistrations(t, entries))
  }

  /** discoverGatewayModules: the scan of discoverModules, with extractGatewayInfo per module. */
  method DiscoverGatewayModules(goMod: Option<string>, rpc: RpcDir) returns (r: Result<seq<GatewayRegistration>>)
    ensures r == GatewayModulesOf(goMod, rpc)
  {
    var target := GetTargetModuleName(goMod);
    if target.Err? {
      return Err(target.error);
    }
    var targetModule := target.value;
    if rpc.NoRpcDir? {
      return Ok([]);
    }
    if rpc.ListFailed? {
      return Err(RpcDirUnreadable);
    }
    var entries := rpc.entries;
    var registrations: seq<GatewayRegistration> := [];
    var i := 0;
    while i < |entries|
      invariant i <= |entries|
      invariant registrations == GatewayRegistrations(targetModule, entries[..i])
    {
      var entry := entries[i];
      FlatMapSnoc(GatewayEntryRegistrations(targetModule), entries, i);
      i := i + 1;
      if !entry.isDir {
        continue;
      }
      var moduleName := entry.name;
      var servicePath := ServicePathOf(moduleName);
      if entry.service.Missing? {
        continue;
      }
      var gatewayInfo := ExtractGatewayInfo(servicePath, moduleName, targetModule);
      registrations := registrations + [gatewayInfo.value];
    }
    assert entries[..|entries|] == entries;
    return Ok(registrations);
  }

  function GatewayInfoOf(targetModule: string): DirEntry -> GatewayRegistration {
    (e: DirEntry) => ExtractGatewayInfo(ServicePathOf(e.name), e.name, targetModule).value
  }

  /** The gateway registers every listed directory with a service.go, once, in listing order. */
  lemma GatewayRegistrationsFollowListing(targetModule: string, entries: seq<DirEntry>)
    ensures GatewayRegistrations(targetModule, entries) == Map(GatewayInfoOf(targetModule), Filter(Listed, entries))
  {
    FlatMapOfSingletons(GatewayEntryRegistrations(targetModule), Listed, GatewayInfoOf(targetModule), entries);
  }

  /**
   * The server registers the gateway's modules whose service.go can be read, in the same
   * order: an unreadable service.go is skipped by discoverModules only.
   */
  lemma ServerModulesAmongGatewayModules(targetModule: string, entries: seq<DirEntry>)
    ensures Registrations(targetModule, entries)
            == Map(InfoOf(targetModule), Filter(Registrable, Filter(Listed, entries)))
  {
    RegistrationsFollowListing(targetModule, entries);
    FilterOfFilter(Registrable, Listed, entries);
  }

  /** When every service.go can be read, both scans register the same modules in the same order. */
  lemma SameModulesWhenServiceFilesReadable(targetModule: string, entries: seq<DirEntry>)
    requires forall i :: 0 <= i < |entries| ==> !entries[i].service.Unreadable?
    ensures |Registrations(targetModule, entries)| == |GatewayRegistrations(targetModule, entries)|
    ensures forall i :: 0 <= i < |Registrations(targetModule, entries)| ==>
              Registrations(targetModule, entries)[i].ModuleName == GatewayRegistrations(targetModule, entries)[i].ModuleName
  {
    RegistrationsFollowListing(targetModule, entries);
    GatewayRegistrationsFollowListing(targetModule, entries);
    FilterAgree(Registrable, Listed, entries);
  }

  /** The two scans fail in the same cases, with the same error. */
  lemma DiscoveriesFailAlike(goMod: Option<string>, rpc: RpcDir)
    ensures GatewayModulesOf(goMod, rpc).Err? <==> ModulesOf(goMod, rpc).Err?
    ensures GatewayModulesOf(goMod, rpc).Err? ==> GatewayModulesOf(goMod, rpc).error == ModulesOf(goMod, rpc).error
  {
  }

  // ---------------------------------------------------------------------------
  // The strings.Builder of the two generators

  /**
   * What one WriteString call of the generators writes: one of the fixed texts, or the
   * text that a fmt.Sprintf (or a concatenation) makes from a registration. Each piece is
   * kept by what it is made of, and Render gives its text. The proofs about the order of
   * the pieces then need nothing of their text.
   */
  datatype Piece =
    | Fixed(text: FixedText)
    | GatewayImportOf(gateway: GatewayRegistration)
    | GatewayBlockOf(gateway: GatewayRegistration)
    | ServerHeadOf(targetModule: string)
    | ModuleImportOf(targetModule: string, service: ServiceRegistration)
    | ProtoImportOf(service: ServiceRegistration)
    | EmbedOf(service: ServiceRegistration)
    | ConstructorOf(service: ServiceRegistration)
    | RegisterComment
    | RegisterCallOf(service: ServiceRegistration)

  /** strings.Builder, as the pieces written to it, in order. */
  class Builder {
    var pieces: seq<Piece>

    constructor ()
      ensures pieces == []
    {
      pieces := [];
    }

    method WriteString(p: Piece)
      modifies this
      ensures pieces == old(pieces) + [p]
    {
      pieces := pieces + [p];
    }

    /** A range loop that writes f(x) for every x of xs, in order. */
    method WriteEach<T>(f: T -> Piece, xs: seq<T>)
      modifies this
      ensures pieces == old(pieces) + Map(f, xs)
    {
      var i := 0;
      while i < |xs|
        invariant i <= |xs|
        invariant pieces == old(pieces) + Map(f, xs[..i])
      {
        assert xs[..i + 1][..i] == xs[..i];
        WriteString(f(xs[i]));
        i := i + 1;
      }
      assert xs[..i] == xs;
    }

    /** The text written so far. */
    function String(): string
      reads this
    {
      Rendered(pieces)
    }
  }

  // ---------------------------------------------------------------------------
  // generateGatewayContent

  /** The import of one registration's protobuf package. */
  function GatewayImport(reg: GatewayRegistration): string {
    "    " + reg.PbPackage + " \"" + reg.PbImportPath + "\"\n"
  }

  /** The registration of one service's handlers on the gateway mux, failing Start on error. */
  function GatewayBlock(reg: GatewayRegistration): string {
    "    if err := " + reg.RegisterFunc + "(ctx, gwMux, g.grpcAddr, opts); err != nil {\n"
    + "        return fmt.Errorf(\"failed to register " + Lower(reg.ServiceName) + " service gateway: %w\", err)\n"
    + "    }\n\n"
  }

  function GatewayImportPiece(reg: GatewayRegistration): Piece {
    GatewayImportOf(reg)
  }

  function GatewayBlockPiece(reg: GatewayRegistration): Piece {
    GatewayBlockOf(reg)
  }

  /** The pieces generateGatewayContent writes. */
  function GatewayPieces(regs: seq<GatewayRegistration>): seq<Piece> {
    [Fixed(GatewayHead)] + Map(GatewayImportPiece, regs) + [Fixed(GatewayMiddle)]
    + Map(GatewayBlockPiece, regs) + [Fixed(GatewayTail)]
  }

  /** The gateway file as generateGatewayContent returns it. */
  function GatewayText(regs: seq<GatewayRegistration>): string {
    Rendered(GatewayPieces(regs))
  }

  /**
   * The writes of generateGatewayContent once the target module is known: the head, one
   * import per registration, the middle up to the dial options, one registration block per
   * registration, and the tail.
   */
  method WriteGatewayFile(content: Builder, registrations: seq<GatewayRegistration>)
    requires content.pieces == []
    modifies content
    ensures content.pieces == GatewayPieces(registrations)
  {
    content.WriteString(Fixed(GatewayHead));
    content.WriteEach(GatewayImportPiece, registrations);
    content.WriteString(Fixed(GatewayMiddle));
    content.WriteEach(GatewayBlockPiece, registrations);
    content.WriteString(Fixed(GatewayTail));
  }

  /**
   * generateGatewayContent: fails when go.mod yields no target module (the name itself is
   * not used), and otherwise returns the gateway file for the registrations.
   */
  method GenerateGatewayContent(goMod: Option<string>, registrations: seq<GatewayRegistration>)
    returns (r: Result<string>)
    ensures TargetModuleOf(goMod).Err? ==> r == Err(TargetModuleOf(goMod).error)
    ensures TargetModuleOf(goMod).Ok? ==> r == Ok(GatewayText(registrations))
  {
    var target := GetTargetModuleName(goMod);
    if target.Err? {
      return Err(target.error);
    }
    var content := new Builder();
    WriteGatewayFile(content, registrations);
    return Ok(content.String());
  }

  /**
   * The gateway file holds one import per registration, in list order, between the head and
   * the middle, and one registration block per registration, in list order, after the dial
   * options that end the middle and before the tail that serves the Swagger files.
   */
  lemma GatewayLayout(regs: seq<GatewayRegistration>)
    ensures var p := GatewayPieces(regs); var n := |regs|;
      && |p| == 2 * n + 3
      && p[0] == Fixed(GatewayHead) && p[n + 1] == Fixed(GatewayMiddle) && p[2 * n + 2] == Fixed(GatewayTail)
      && (forall i :: 0 <= i < n ==> p[1 + i] == GatewayImportOf(regs[i]))
      && (forall i :: 0 <= i < n ==> p[n + 2 + i] == GatewayBlockOf(regs[i]))
  {
  }

  /** The shape extractGatewayInfo gives the handler registration function. */
  predicate GatewayShaped(reg: GatewayRegistration) {
    reg.RegisterFunc == reg.PbPackage + ".Register" + reg.ServiceName + "ServiceHandlerFromEndpoint"
  }

  /** Every registration the gateway discovers has that shape. */
  lemma DiscoveredGatewayRegistrationsShaped(goMod: Option<string>, rpc: RpcDir)
    requires GatewayModulesOf(goMod, rpc).Ok?
    ensures forall reg :: reg in GatewayModulesOf(goMod, rpc).value ==> GatewayShaped(reg)
  {
    var t := TargetModuleOf(goMod).value;
    match rpc
    case Listing(entries) =>
      GatewayRegistrationsFollowListing(t, entries);
    case _ =>
  }

  /**
   * A registration's import line binds its protobuf package alias, and its block calls the
   * handler registration function, which lies in that package.
   */
  lemma GatewayBlockUsesImportedPackage(reg: GatewayRegistration)
    requires GatewayShaped(reg)
    ensures HasPrefix(GatewayImport(reg), "    " + reg.PbPackage + " \"")
    ensures HasPrefix(GatewayBlock(reg), "    if err := " + reg.RegisterFunc)
    ensures HasPrefix(reg.RegisterFunc, reg.PbPackage + ".Register" + reg.ServiceName)
  {
    var bind := "    " + reg.PbPackage + " \"";
    PrefixExtends(bind, bind, reg.PbImportPath);
    PrefixExtends(bind + reg.PbImportPath, bind, "\"\n");
    var call := "    if err := " + reg.RegisterFunc;
    var b1 := call + "(ctx, gwMux, g.grpcAddr, opts); err != nil {\n";
    var b2 := b1 + "        return fmt.Errorf(\"failed to register ";
    var b3 := b2 + Lower(reg.ServiceName);
    var b4 := b3 + " service gateway: %w\", err)\n";
    PrefixExtends(call, call, "(ctx, gwMux, g.grpcAddr, opts); err != nil {\n");
    PrefixExtends(b1, call, "        return fmt.Errorf(\"failed to register ");
    PrefixExtends(b2, call, Lower(reg.ServiceName));
    PrefixExtends(b3, call, " service gateway: %w\", err)\n");
    PrefixExtends(b4, call, "    }\n\n");
    var f := reg.PbPackage + ".Register" + reg.ServiceName;
    PrefixExtends(f, f, "ServiceHandlerFromEndpoint");
  }

  // ---------------------------------------------------------------------------
  // generateServerContent

  /** The package clause and the import of the target module's repository package. */
  function ServerHead(targetModule: string): string {
    "package rpc\n\nimport (\n    db \"" + targetModule + "/internal/repo\"\n"
  }

  /** The alias the server file gives a module's Go package. */
  function ModuleAlias(reg: ServiceRegistration): string {
    Lower(reg.ServiceName) + "sv"
  }

  /** The import of one module's Go package, under its alias. */
  function ModuleImport(targetModule: string, reg: ServiceRegistration): string {
    "    " + ModuleAlias(reg) + " \"" + targetModule + "/app/rpc/" + reg.ModuleName + "\"\n"
  }

  /** The import of one registration's protobuf package. */
  function ProtoImport(reg: ServiceRegistration): string {
    "    " + reg.PbPackage + " \"" + reg.PbImportPath + "\"\n"
  }

  /** The Unimplemented server the Server type embeds for one registration. */
  function ServerEmbed(reg: ServiceRegistration): string {
    "    " + reg.PbPackage + ".Unimplemented" + reg.ServiceName + "ServiceServer\n"
  }

  /** The construction of one module's service in Run. */
  function ServerConstructor(reg: ServiceRegistration): string {
    "    " + reg.ServiceVar + " := " + ModuleAlias(reg) + ".New" + reg.ServiceName + "Service()\n"
  }

  /** The registration of one constructed service on the gRPC server. */
  function ServerRegisterCall(reg: ServiceRegistration): string {
    "    " + reg.RegisterFunc + "(grpcServer, " + reg.ServiceVar + ")\n"
  }

  /** The two imports one registration adds: its module package, then its protobuf package. */
  function ServerImports(targetModule: string): ServiceRegistration -> seq<Piece> {
    (reg: ServiceRegistration) => [ModuleImportOf(targetModule, reg), ProtoImportOf(reg)]
  }

  function EmbedPiece(reg: ServiceRegistration): Piece {
    EmbedOf(reg)
  }

  function ConstructorPiece(reg: ServiceRegistration): Piece {
    ConstructorOf(reg)
  }

  function RegisterCallPiece(reg: ServiceRegistration): Piece {
    RegisterCallOf(reg)
  }

  /** The package clause and the import block, up to the opening of the Server type. */
  function ServerImportBlock(targetModule: string, regs: seq<ServiceRegistration>): seq<Piece> {
    [ServerHeadOf(targetModule)] + FlatMap(ServerImports(targetModule), regs) + [Fixed(ServerImportsEnd)]
  }

  /** The embedded servers of the Server type, then NewServer and the start of Run. */
  function ServerTypeBlock(regs: seq<ServiceRegistration>): seq<Piece> {
    Map(EmbedPiece, regs) + [Fixed(ServerMiddle)]
  }

  /** The services Run constructs and registers, then the rest of Run. */
  function ServerRunBlock(regs: seq<ServiceRegistration>): seq<Piece> {
    Map(ConstructorPiece, regs) + [RegisterComment] + Map(RegisterCallPiece, regs) + [Fixed(ServerTail)]
  }

  /** The pieces generateServerContent writes. */
  function ServerPieces(targetModule: string, regs: seq<ServiceRegistration>): seq<Piece> {
    ServerImportBlock(targetModule, regs) + ServerTypeBlock(regs) + ServerRunBlock(regs)
  }

  /** The server file as generateServerContent returns it for a target module. */
  function ServerText(targetModule: string, regs: seq<ServiceRegistration>): string {
    Rendered(ServerPieces(targetModule, regs))
  }

  /**
   * The writes of generateServerContent once the target module is known: the head, the two
   * imports of each registration, the Server type with one embedded server per registration,
   * NewServer and the start of Run, one constructor line per registration, the comment, one
   * register call per registration, and the end of Run.
   */
  method WriteServerFile(content: Builder, targetModule: string, registrations: seq<ServiceRegistration>)
    requires content.pieces == []
    modifies content
    ensures content.pieces == ServerPieces(targetModule, registrations)
  {
    WriteServerImports(content, targetModule, registrations);
    WriteServerType(content, registrations);
    WriteServerRun(content, registrations);
  }

  /** The head, then the range loop that writes both imports of each registration. */
  method WriteServerImports(content: Builder, targetModule: string, registrations: seq<ServiceRegistration>)
    modifies content
    ensures content.pieces == old(content.pieces) + ServerImportBlock(targetModule, registrations)
  {
    var start := content.pieces;
    content.WriteString(ServerHeadOf(targetModule));
    var i := 0;
    while i < |registrations|
      invariant i <= |registrations|
      invariant content.pieces == start + ([ServerHeadOf(targetModule)] + FlatMap(ServerImports(targetModule), registrations[..i]))
    {
      FlatMapSnoc(ServerImports(targetModule), registrations, i);
      content.WriteString(ModuleImportOf(targetModule, registrations[i]));
      content.WriteString(ProtoImportOf(registrations[i]));
      i := i + 1;
    }
    assert registrations[..i] == registrations;
    content.WriteString(Fixed(ServerImportsEnd));
  }

  /** The embedded servers, then the fixed text up to the constructors in Run. */
  method WriteServerType(content: Builder, registrations: seq<ServiceRegistration>)
    modifies content
    ensures content.pieces == old(content.pieces) + ServerTypeBlock(registrations)
  {
    content.WriteEach(EmbedPiece, registrations);
    content.WriteString(Fixed(ServerMiddle));
  }

  /** The constructor lines, the comment, the register calls and the end of Run. */
  method WriteServerRun(content: Builder, registrations: seq<ServiceRegistration>)
    modifies content
    ensures content.pieces == old(content.pieces) + ServerRunBlock(registrations)
  {
    content.WriteEach(ConstructorPiece, registrations);
    content.WriteString(RegisterComment);
    content.WriteEach(RegisterCallPiece, registrations);
    content.WriteString(Fixed(ServerTail));
  }

  /**
   * generateServerContent: fails when go.mod yields no target module, and otherwise returns
   * the server file for that module and the registrations.
   */
  method GenerateServerContent(goMod: Option<string>, registrations: seq<ServiceRegistration>)
    returns (r: Result<string>)
    ensures TargetModuleOf(goMod).Err? ==> r == Err(TargetModuleOf(goMod).error)
    ensures TargetModuleOf(goMod).Ok? ==> r == Ok(ServerText(TargetModuleOf(goMod).value, registrations))
  {
    var target := GetTargetModuleName(goMod);
    if target.Err? {
      return Err(target.error);
    }
    var content := new Builder();
    WriteServerFile(content, target.value, registrations);
    return Ok(content.String());
  }

  /**
   * The import block: the head, then the two imports of registration i at 1 + 2 * i and
   * 2 + 2 * i, then the end of the imports and the start of the Server type.
   */
  lemma ServerImportBlockLayout(targetModule: string, regs: seq<ServiceRegistration>)
    ensures var p := ServerImportBlock(targetModule, regs); var n := |regs|;
      && |p| == 2 * n + 2
      && p[0] == ServerHeadOf(targetModule) && p[2 * n + 1] == Fixed(ServerImportsEnd)
      && forall i :: 0 <= i < n ==> p[1 + 2 * i] == ModuleImportOf(targetModule, regs[i]) && p[2 + 2 * i] == ProtoImportOf(regs[i])
  {
    FlatMapPairs(ServerImports(targetModule), regs);
  }

  /** The Server type block: the embedded server of registration i at i, then the middle. */
  lemma ServerTypeBlockLayout(regs: seq<ServiceRegistration>)
    ensures var p := ServerTypeBlock(regs); var n := |regs|;
      && |p| == n + 1 && p[n] == Fixed(ServerMiddle)
      && forall i :: 0 <= i < n ==> p[i] == EmbedOf(regs[i])
  {
  }

  /**
   * The body of Run: the constructor line of registration i at i, the comment, the register
   * call of registration i at n + 1 + i, and the end of Run.
   */
  lemma ServerRunBlockLayout(regs: seq<ServiceRegistration>)
    ensures var p := ServerRunBlock(regs); var n := |regs|;
      && |p| == 2 * n + 2 && p[n] == RegisterComment && p[2 * n + 1] == Fixed(ServerTail)
      && forall i :: 0 <= i < n ==> p[i] == ConstructorOf(regs[i]) && p[n + 1 + i] == RegisterCallOf(regs[i])
  {
  }

  /**
   * Each constructor line assigns its registration's service variable by calling the module
   * package's constructor under the alias its import binds, and each register call passes
   * that variable to the registration function.
   */
  lemma ServerLinesAgree(targetModule: string, reg: ServiceRegistration)
    ensures HasPrefix(ModuleImport(targetModule, reg), "    " + ModuleAlias(reg) + " \"" + targetModule + "/app/rpc/" + reg.ModuleName)
    ensures HasPrefix(ServerConstructor(reg), "    " + reg.ServiceVar + " := " + ModuleAlias(reg) + ".New" + reg.ServiceName)
    ensures HasPrefix(ServerRegisterCall(reg), "    " + reg.RegisterFunc + "(grpcServer, " + reg.ServiceVar)
  {
    var imp := "    " + ModuleAlias(reg) + " \"" + targetModule + "/app/rpc/" + reg.ModuleName;
    PrefixExtends(imp, imp, "\"\n");
    var ctor := "    " + reg.ServiceVar + " := " + ModuleAlias(reg) + ".New" + reg.ServiceName;
    PrefixExtends(ctor, ctor, "Service()\n");
    var call := "    " + reg.RegisterFunc + "(grpcServer, " + reg.ServiceVar;
    PrefixExtends(call, call, ")\n");
  }

  /**
   * For a module that `module add` generated, the server imports the module's directory under
   * the target module, and its constructor line calls the constructor that the module's
   * service.go declares, through the alias of that import.
   */
  lemma ServerUsesGeneratedModule(moduleName: string, targetModule: string)
    requires SingleLine(moduleName) && SingleLine(targetModule) && moduleName != ""
    ensures var reg := ServiceInfo(moduleName, targetModule);
      && ModuleImport(targetModule, reg)
         == "    " + ModuleAlias(reg) + " \"" + targetModule + "/" + PathJoin(RpcPath, moduleName) + "\"\n"
      && ServerConstructor(reg)
         == "    " + reg.ServiceVar + " := " + ModuleAlias(reg) + ".New" + PascalOf(moduleName) + "Service()\n"
      && HasLine(ServiceContent(moduleName, targetModule),
                 "func New" + PascalOf(moduleName) + "Service() *" + PascalOf(moduleName) + "Service {")
  {
    ServiceDeclaresConstructor(moduleName, targetModule);
  }

  // ---------------------------------------------------------------------------
  // Rendering the pieces

  function Render(p: Piece): string {
    match p
    case Fixed(t) => Text(t)
    case GatewayImportOf(reg) => GatewayImport(reg)
    case GatewayBlockOf(reg) => GatewayBlock(reg)
    case ServerHeadOf(targetModule) => ServerHead(targetModule)
    case ModuleImportOf(targetModule, reg) => ModuleImport(targetModule, reg)
    case ProtoImportOf(reg) => ProtoImport(reg)
    case EmbedOf(reg) => ServerEmbed(reg)
    case ConstructorOf(reg) => ServerConstructor(reg)
    case RegisterComment => "\n    // Register services with gRPC server\n"
    case RegisterCallOf(reg) => ServerRegisterCall(reg)
  }

  /** The text of pieces written one after the other. */
  function Rendered(pieces: seq<Piece>): string {
    ConcatMap(Render, pieces)
  }

  // ---------------------------------------------------------------------------
  // registerServices and registerGatewayEndpoints

  const ServerPath := PathJoin(PathJoin("app", "rpc"), "server.go")
  const GatewayPath := PathJoin(PathJoin("app", "gateway"), "gateway.go")

  /** The store and outcome of registerServices. */
  function RegisterServicesRun(files: map<string, string>, dirs: set<string>, goMod: Option<string>, rpc: RpcDir)
    : WriteRun
  {
    match ModulesOf(goMod, rpc)
    case Err(e) => WriteRun(files, Failed(e))
    case Ok(modules) =>
      if modules == [] then WriteRun(files, Done)
      else RunWrites(dirs, files, [Write(ServerPath, ServerText(TargetModuleOf(goMod).value, modules))])
  }

  /**
   * registerServices: discovers the modules, does nothing when there are none, and otherwise
   * writes the regenerated server.go over whatever app/rpc/server.go held.
   */
  method RegisterServices(files: map<string, string>, dirs: set<string>, goMod: Option<string>, rpc: RpcDir)
    returns (files': map<string, string>, r: Outcome)
    ensures WriteRun(files', r) == RegisterServicesRun(files, dirs, goMod, rpc)
  {
    var modules := DiscoverModules(goMod, rpc);
    if modules.Err? {
      return files, Failed(modules.error);
    }
    if |modules.value| == 0 {
      return files, Done;
    }
    var serverContent := GenerateServerContent(goMod, modules.value);
    match serverContent
    case Err(e) =>
      return files, Failed(e);
    case Ok(text) =>
      files', r := WriteFile(files, dirs, ServerPath, text);
  }

  /** The store and outcome of registerGatewayEndpoints. */
  function RegisterGatewayRun(files: map<string, string>, dirs: set<string>, goMod: Option<string>, rpc: RpcDir)
    : WriteRun
  {
    match GatewayModulesOf(goMod, rpc)
    case Err(e) => WriteRun(files, Failed(e))
    case Ok(modules) =>
      if modules == [] then WriteRun(files, Done)
      else RunWrites(dirs, files, [Write(GatewayPath, GatewayText(modules))])
  }

  /**
   * registerGatewayEndpoints: discovers the gateway's modules, does nothing when there are
   * none, and otherwise writes the regenerated gateway.go over app/gateway/gateway.go.
   */
  method RegisterGatewayEndpoints(files: map<string, string>, dirs: set<string>, goMod: Option<string>, rpc: RpcDir)
    returns (files': map<string, string>, r: Outcome)
    ensures WriteRun(files', r) == RegisterGatewayRun(files, dirs, goMod, rpc)
  {
    var modules := DiscoverGatewayModules(goMod, rpc);
    if modules.Err? {
      return files, Failed(modules.error);
    }
    if |modules.value| == 0 {
      return files, Done;
    }
    var gatewayContent := GenerateGatewayContent(goMod, modules.value);
    match gatewayContent
    case Err(e) =>
      return files, Failed(e);
    case Ok(text) =>
      files', r := WriteFile(files, dirs, GatewayPath, text);
  }

  // ---------------------------------------------------------------------------
  // Properties of the commands

  /** With nothing to register, neither command writes, and both succeed. */
  lemma NothingToRegisterWritesNothing(files: map<string, string>, dirs: set<string>, goMod: Option<string>, rpc: RpcDir)
    requires ModulesOf(goMod, rpc) == Ok([])
    ensures RegisterServicesRun(files, dirs, goMod, rpc) == WriteRun(files, Done)
    ensures GatewayModulesOf(goMod, rpc) == Ok([]) ==> RegisterGatewayRun(files, dirs, goMod, rpc) == WriteRun(files, Done)
  {
  }

  /**
   * With registrations, server.go is replaced whole by the generated text when it can be
   * created, whatever it held before, and no other file changes.
   */
  lemma ServerFileReplaced(files: map<string, string>, dirs: set<string>, goMod: Option<string>, rpc: RpcDir)
    requires ModulesOf(goMod, rpc).Ok? && ModulesOf(goMod, rpc).value != []
    requires CanCreate(dirs, ServerPath)
    ensures var run := RegisterServicesRun(files, dirs, goMod, rpc);
      && run.outcome == Done
      && run.files == files[ServerPath := ServerText(TargetModuleOf(goMod).value, ModulesOf(goMod, rpc).value)]
  {
    var w := Write(ServerPath, ServerText(TargetModuleOf(goMod).value, ModulesOf(goMod, rpc).value));
    RunOneWrite(dirs, files, w);
  }

  /** Likewise for gateway.go. */
  lemma GatewayFileReplaced(files: map<string, string>, dirs: set<string>, goMod: Option<string>, rpc: RpcDir)
    requires GatewayModulesOf(goMod, rpc).Ok? && GatewayModulesOf(goMod, rpc).value != []
    requires CanCreate(dirs, GatewayPath)
    ensures var run := RegisterGatewayRun(files, dirs, goMod, rpc);
      && run.outcome == Done
      && run.files == files[GatewayPath := GatewayText(GatewayModulesOf(goMod, rpc).value)]
  {
    var w := Write(GatewayPath, GatewayText(GatewayModulesOf(goMod, rpc).value));
    RunOneWrite(dirs, files, w);
  }

  /** When gateway.go cannot be created the command fails and the store is unchanged. */
  lemma GatewayWriteFailureChangesNothing(files: map<string, string>, dirs: set<string>, goMod: Option<string>, rpc: RpcDir)
    requires GatewayModulesOf(goMod, rpc).Ok? && GatewayModulesOf(goMod, rpc).value != []
    requires !CanCreate(dirs, GatewayPath)
    ensures RegisterGatewayRun(files, dirs, goMod, rpc) == WriteRun(files, Failed(CreateFailed(GatewayPath)))
  {
    var w := Write(GatewayPath, GatewayText(GatewayModulesOf(goMod, rpc).value));
    RunOneWrite(dirs, files, w);
  }
}
