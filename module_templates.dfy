/**
 * The per-module text generators of `module add` (generateServiceContent,
 * generateHandlerContent, generateConverterContent). Each file is given as its list of
 * lines; the text is those lines, each followed by a newline, exactly as the source's
 * format strings produce it (tabs in the service and handler files, spaces in the
 * converter, including its whitespace-only lines).
 */
module ModuleTemplates {
  import opened GoStrings
  import opened Naming
  import opened GrpcParse
  import opened Seqs

  /** The import of the module's protobuf package under its alias. */
  function ImportLine(pb: string, path: string): string {
    "\t" + pb + " \"" + path + "\""
  }

  /** The declaration of a handler: a method of the service type on the method's protobuf types. */
  function MethodSignature(svc: string, pb: string, m: ServiceMethod): string {
    "func (s *" + svc + "Service) " + m.Name + "(ctx context.Context, req *" + pb + "." + m.RequestType
    + ") (*" + pb + "." + m.ResponseType + ", error) {"
  }

  lemma ImportLineSingleLine(pb: string, path: string)
    requires SingleLine(pb) && SingleLine(path)
    ensures SingleLine(ImportLine(pb, path))
  {
  }

  lemma MethodSignatureSingleLine(svc: string, pb: string, m: ServiceMethod)
    requires SingleLine(svc) && SingleLine(pb) && SingleLine(m.Name) && SingleLine(m.RequestType) && SingleLine(m.ResponseType)
    ensures SingleLine(MethodSignature(svc, pb, m))
  {
  }

  /** The lines of service.go: the service type embedding the generated Unimplemented server. */
  function ServiceLines(moduleName: string, targetModule: string): seq<string> {
    var pkg := PackageName(moduleName);
    var svc := PascalOf(moduleName);
    var pb := PbPackage(moduleName);
    var path := PbImportPath(targetModule, moduleName);
    [
      "package " + pkg,
      "",
      "import (",
      ImportLine(pb, path),
      ")",
      "",
      "type " + svc + "Service struct {",
      "\t" + pb + ".Unimplemented" + svc + "ServiceServer",
      "}",
      "",
      "func New" + svc + "Service() *" + svc + "Service {",
      "\treturn &" + svc + "Service{}",
      "}"
    ]
  }

  /** generateServiceContent */
  function ServiceContent(moduleName: string, targetModule: string): (r: string)
    ensures |r| >= 2 && r[|r| - 2..] == "}\n"
  {
    UnLinesEndsWithBrace(ServiceLines(moduleName, targetModule));
    UnLines(ServiceLines(moduleName, targetModule))
  }

  /** The guard that opens every handler. */
  const NilRequestCheck := "\tif req == nil {"

  /** The guard's return: no response, and an InvalidArgument status error. */
  const NilRequestError := "\t\treturn nil, " + "status.Error(codes.InvalidArgument, " + "\"request cannot be nil\")"

  /** The zero-valued response message of the method. */
  function ZeroResponse(pb: string, m: ServiceMethod): string {
    "\tresp := &" + pb + "." + m.ResponseType + "{}"
  }

  /** The handler's success: the response and a nil error. */
  const SuccessReturn := "\treturn resp, nil"

  /** The lines of a handler file: a method of the service type that rejects a nil request. */
  function HandlerLines(moduleName: string, targetModule: string, m: ServiceMethod): seq<string> {
    var pkg := PackageName(moduleName);
    var svc := PascalOf(moduleName);
    var pb := PbPackage(moduleName);
    var path := PbImportPath(targetModule, moduleName);
    [
      "package " + pkg,
      "",
      "import (",
      "\t\"context\"",
      ImportLine(pb, path),
      "\t\"google.golang.org/grpc/codes\"",
      "\t\"google.golang.org/grpc/status\"",
      ")",
      ""
    ] + HandlerMethodLines(svc, pb, m)
  }

  /** The handler method: the nil check with its error return, then the zero-valued response. */
  function HandlerMethodLines(svc: string, pb: string, m: ServiceMethod): seq<string> {
    [
      MethodSignature(svc, pb, m),
      NilRequestCheck,
      NilRequestError,
      "\t}",
      ZeroResponse(pb, m),
      SuccessReturn,
      "}"
    ]
  }

  /** generateHandlerContent */
  function HandlerContent(moduleName: string, targetModule: string, m: ServiceMethod): (r: string)
    ensures |r| >= 2 && r[|r| - 2..] == "}\n"
  {
    UnLinesEndsWithBrace(HandlerLines(moduleName, targetModule, m));
    UnLines(HandlerLines(moduleName, targetModule, m))
  }

  /** The package clause and imports of converter.go (with the source's whitespace-only line). */
  function ConverterHead(moduleName: string, targetModule: string): seq<string> {
    var pkg := PackageName(moduleName);
    var pb := PbPackage(moduleName);
    var path := PbImportPath(targetModule, moduleName);
    var modelPath := targetModule + "/internal/repo";
    [
      "package " + pkg,
      "",
      "import (",
      "    \"" + modelPath + "\"",
      "     " + pb + " \"" + path + "\"",
      " ",
      ")"
    ]
  }

  /** The conversion stubs of converter.go. */
  datatype Conversion = ProtoToModel | ModelToProto | ModelsToProtos | ProtosToModels

  /** The doc comment of a stub. */
  function ConversionDoc(c: Conversion): string {
    match c
    case ProtoToModel => "// ProtoToModel converts protobuf message to database model"
    case ModelToProto => "// ModelToProto converts database model to protobuf message"
    case ModelsToProtos => "// ModelsToProtos converts slice of models to slice of protos"
    case ProtosToModels => "// ProtosToModels converts slice of protos to slice of models"
  }

  /** The declaration of a stub, on the module's protobuf message and repo model. */
  function ConversionSignature(c: Conversion, pb: string, svc: string): string {
    match c
    case ProtoToModel => "func ProtoToModel(pb *" + pb + "." + svc + ") *repo." + svc + " {"
    case ModelToProto => "func ModelToProto(model *repo." + svc + ") *" + pb + "." + svc + " {"
    case ModelsToProtos => "func ModelsToProtos(models []*repo." + svc + ") []*" + pb + "." + svc + " {"
    case ProtosToModels => "func ProtosToModels(protos []*" + pb + "." + svc + ") []*repo." + svc + " {"
  }

  /** The guard that returns nil at once for a nil argument. */
  function NilArgumentGuard(arg: string): seq<string> {
    ["    if " + arg + " == nil {", "        return nil", "    }"]
  }

  /** The guard a stub opens with: the single-message stubs return nil for a nil argument. */
  function ConversionGuard(c: Conversion): seq<string> {
    match c
    case ProtoToModel => NilArgumentGuard("pb")
    case ModelToProto => NilArgumentGuard("model")
    case ModelsToProtos => []
    case ProtosToModels => []
  }

  /** The statements of a stub after its declaration and guard. */
  function ConversionStatements(c: Conversion, pb: string, svc: string): seq<string> {
    match c
    case ProtoToModel =>
      [
        "    ",
        "    return &repo." + svc + "{",
        "        // Add your conversion fields here",
        "        // Example:",
        "        // ID:        pb.GetId(),",
        "        // Name:      pb.GetName(),",
        "        // CreatedAt: time.Unix(pb.GetCreatedAt().GetSeconds(), int64(pb.GetCreatedAt().GetNanos())),",
        "    }"
      ]
    case ModelToProto =>
      [
        "    ",
        "    return &" + pb + "." + svc + "{",
        "        // Add your conversion fields here",
        "        // Example:",
        "        // Id:        model.ID,",
        "        // Name:      model.Name,",
        "        // CreatedAt: timestamppb.New(model.CreatedAt),",
        "    }"
      ]
    case ModelsToProtos =>
      [
        "    protos := make([]*" + pb + "." + svc + ", len(models))",
        "    for i, model := range models {",
        "        protos[i] = ModelToProto(model)",
        "    }",
        "    return protos"
      ]
    case ProtosToModels =>
      [
        "    models := make([]*repo." + svc + ", len(protos))",
        "    for i, pb := range protos {",
        "        models[i] = ProtoToModel(pb)",
        "    }",
        "    return models"
      ]
  }

  /** The lines of one conversion stub: its doc comment, its declaration, its guard, its statements and the closing brace. */
  function ConversionLines(c: Conversion, pb: string, svc: string): seq<string> {
    [ConversionDoc(c)] + ([ConversionSignature(c, pb, svc)] + (ConversionGuard(c) + (ConversionStatements(c, pb, svc) + ["}"])))
  }

  /** The stubs in the order converter.go lists them. */
  const Conversions := [ProtoToModel, ModelToProto, ModelsToProtos, ProtosToModels]

  /** The place of a stub in converter.go. */
  function ConversionIndex(c: Conversion): (k: nat)
    ensures k < |Conversions| && Conversions[k] == c
  {
    match c
    case ProtoToModel => 0
    case ModelToProto => 1
    case ModelsToProtos => 2
    case ProtosToModels => 3
  }

  /** The four conversion stubs of converter.go, each after a blank line. */
  function ConverterBody(pb: string, svc: string): seq<string> {
    FlatMap((c: Conversion) => [""] + ConversionLines(c, pb, svc), Conversions)
  }

  /** The lines of converter.go: its head and then its conversion stubs. */
  function ConverterLines(moduleName: string, targetModule: string): seq<string> {
    ConverterHead(moduleName, targetModule) + ConverterBody(PbPackage(moduleName), PascalOf(moduleName))
  }

  /** generateConverterContent */
  function ConverterContent(moduleName: string, targetModule: string): (r: string)
    ensures |r| >= 2 && r[|r| - 2..] == "}\n"
  {
    ConverterEndsWithBrace(moduleName, targetModule);
    UnLines(ConverterLines(moduleName, targetModule))
  }

  /** The last line of converter.go closes its last stub. */
  lemma ConverterEndsWithBrace(moduleName: string, targetModule: string)
    ensures var ls := ConverterLines(moduleName, targetModule);
      |ls| > 0 && ls[|ls| - 1] == "}" && |UnLines(ls)| >= 2 && UnLines(ls)[|UnLines(ls)| - 2..] == "}\n"
  {
    var pb, svc := PbPackage(moduleName), PascalOf(moduleName);
    var f := (c: Conversion) => [""] + ConversionLines(c, pb, svc);
    var k := ConversionIndex(ProtosToModels);
    StubEndsWithBrace(Conversions[k], pb, svc);
    FlatMapLast(ConverterHead(moduleName, targetModule), f, Conversions);
    UnLinesEndsWithBrace(ConverterLines(moduleName, targetModule));
  }

  /** Every stub ends with the brace that closes its function. */
  lemma StubEndsWithBrace(c: Conversion, pb: string, svc: string)
    ensures var ls := [""] + ConversionLines(c, pb, svc); ls[|ls| - 1] == "}"
  {
  }

  /** The last line of a head and the stubs is the last line of the last stub. */
  lemma FlatMapLast<T>(head: seq<string>, f: T -> seq<string>, xs: seq<T>)
    requires |xs| > 0 && |f(xs[|xs| - 1])| > 0
    ensures var ls, l := head + FlatMap(f, xs), f(xs[|xs| - 1]);
      |ls| > 0 && ls[|ls| - 1] == l[|l| - 1]
  {
  }

  // ---------------------------------------------------------------------------
  // Properties of the generated files.

  /** A module's names and a method's names that fit on one line. */
  predicate SingleLineNames(moduleName: string, targetModule: string, m: ServiceMethod) {
    SingleLine(moduleName) && SingleLine(targetModule)
    && SingleLine(m.Name) && SingleLine(m.RequestType) && SingleLine(m.ResponseType)
  }

  /** The names the generators substitute contain no line break when their inputs do not. */
  lemma DerivedNamesSingleLine(moduleName: string, targetModule: string)
    requires SingleLine(moduleName) && SingleLine(targetModule)
    ensures SingleLine(PackageName(moduleName)) && SingleLine(PbPackage(moduleName))
    ensures SingleLine(PbImportPath(targetModule, moduleName)) && SingleLine(PascalOf(moduleName))
  {
    LowerSingleLine(moduleName);
    PascalHasNoSeparator(moduleName);
    assert IsSeparator('\n');
  }

  /** Splitting service.go at newlines gives back its lines and an empty tail. */
  lemma ServiceContentSplitsIntoLines(moduleName: string, targetModule: string)
    requires SingleLine(moduleName) && SingleLine(targetModule)
    ensures Split(ServiceContent(moduleName, targetModule), '\n') == ServiceLines(moduleName, targetModule) + [""]
  {
    var svc, pb := PascalOf(moduleName), PbPackage(moduleName);
    DerivedNamesSingleLine(moduleName, targetModule);
    ImportLineSingleLine(pb, PbImportPath(targetModule, moduleName));
    ServiceTypeLinesSingleLine(PackageName(moduleName), svc, pb);
    ServiceConstructorLinesSingleLine(svc);
    SplitUnLines(ServiceLines(moduleName, targetModule));
  }

  lemma ServiceTypeLinesSingleLine(pkg: string, svc: string, pb: string)
    requires SingleLine(pkg) && SingleLine(svc) && SingleLine(pb)
    ensures SingleLine("package " + pkg) && SingleLine("type " + svc + "Service struct {")
    ensures SingleLine("\t" + pb + ".Unimplemented" + svc + "ServiceServer")
  {
  }

  lemma ServiceConstructorLinesSingleLine(svc: string)
    requires SingleLine(svc)
    ensures SingleLine("func New" + svc + "Service() *" + svc + "Service {")
    ensures SingleLine("\treturn &" + svc + "Service{}")
  {
  }

  /*
   * The three files of a module open with the same package clause, the lower-cased module
   * name, one lemma per file.
   */

  lemma ServicePackageClause(moduleName: string, targetModule: string)
    ensures HasPrefix(ServiceContent(moduleName, targetModule), "package " + Lower(moduleName) + "\n")
  {
    UnLinesStartsWith(ServiceLines(moduleName, targetModule));
  }

  lemma HandlerPackageClause(moduleName: string, targetModule: string, m: ServiceMethod)
    ensures HasPrefix(HandlerContent(moduleName, targetModule, m), "package " + Lower(moduleName) + "\n")
  {
    UnLinesStartsWith(HandlerLines(moduleName, targetModule, m));
  }

  lemma ConverterPackageClause(moduleName: string, targetModule: string)
    ensures HasPrefix(ConverterContent(moduleName, targetModule), "package " + Lower(moduleName) + "\n")
  {
    UnLinesStartsWithHead(ConverterHead(moduleName, targetModule), ConverterBody(PbPackage(moduleName), PascalOf(moduleName)));
  }

  /** A stub's declaration and guard are a block of its lines. */
  lemma StubShape(doc: string, signature: string, guard: seq<string>, rest: seq<string>)
    ensures HasBlock(UnLines([doc] + ([signature] + (guard + rest))), [signature] + guard)
  {
    var opening := [signature] + guard;
    assert [signature] + (guard + rest) == opening + rest;
    UnLinesIsBlock(opening);
    BlockBeforeLines(opening, rest, opening);
    BlockAfterLines([doc], opening + rest, opening);
  }

  /** A block of one stub's lines is a block of the text of a head and the stubs. */
  lemma BlockInStubs<T>(head: seq<string>, f: T -> seq<string>, xs: seq<T>, i: nat, block: seq<string>)
    requires i < |xs| && HasBlock(UnLines(f(xs[i])), block)
    ensures HasBlock(UnLines(head + FlatMap(f, xs)), block)
  {
    FlatMapAt(f, xs, i);
    BlockAfterLines(FlatMap(f, xs[..i]), f(xs[i]), block);
    BlockBeforeLines(FlatMap(f, xs[..i]) + f(xs[i]), FlatMap(f, xs[i + 1..]), block);
    BlockAfterLines(head, FlatMap(f, xs), block);
  }

  /** A stub's declaration and guard, after its blank line and doc comment. */
  lemma StubOpening(c: Conversion, pb: string, svc: string)
    ensures HasBlock(UnLines([""] + ConversionLines(c, pb, svc)), [ConversionSignature(c, pb, svc)] + ConversionGuard(c))
  {
    var opening := [ConversionSignature(c, pb, svc)] + ConversionGuard(c);
    StubShape(ConversionDoc(c), ConversionSignature(c, pb, svc), ConversionGuard(c), ConversionStatements(c, pb, svc) + ["}"]);
    BlockAfterLines([""], ConversionLines(c, pb, svc), opening);
  }

  /** The declarations of converter.go fit on one line when the names do. */
  lemma ConversionSignatureSingleLine(c: Conversion, pb: string, svc: string)
    requires SingleLine(pb) && SingleLine(svc)
    ensures SingleLine(ConversionSignature(c, pb, svc))
  {
    var close := " {";
    NoLineBreak(close);
    NoLineBreak(".");
    match c
    case ProtoToModel =>
      var a, b := "func ProtoToModel(pb *", ") *repo.";
      NoLineBreak(a);
      NoLineBreak(b);
      SingleLineOfSeven(a, pb, ".", svc, b, svc, close);
    case ModelToProto =>
      var a, b := "func ModelToProto(model *repo.", ") *";
      NoLineBreak(a);
      NoLineBreak(b);
      SingleLineOfSeven(a, svc, b, pb, ".", svc, close);
    case ModelsToProtos =>
      var a, b := "func ModelsToProtos(models []*repo.", ") []*";
      NoLineBreak(a);
      NoLineBreak(b);
      SingleLineOfSeven(a, svc, b, pb, ".", svc, close);
    case ProtosToModels =>
      var a, b := "func ProtosToModels(protos []*", ") []*repo.";
      NoLineBreak(a);
      NoLineBreak(b);
      SingleLineOfSeven(a, pb, ".", svc, b, svc, close);
  }

  /** Each stub's declaration and guard are a block of converter.go. */
  lemma ConverterStubOpenings(moduleName: string, targetModule: string)
    ensures var pb, svc := PbPackage(moduleName), PascalOf(moduleName);
      forall k :: 0 <= k < |Conversions| ==>
        HasBlock(ConverterContent(moduleName, targetModule), [ConversionSignature(Conversions[k], pb, svc)] + ConversionGuard(Conversions[k]))
  {
    var pb, svc := PbPackage(moduleName), PascalOf(moduleName);
    var head := ConverterHead(moduleName, targetModule);
    var f := (c: Conversion) => [""] + ConversionLines(c, pb, svc);
    assert UnLines(head + FlatMap(f, Conversions)) == ConverterContent(moduleName, targetModule);
    forall k | 0 <= k < |Conversions|
      ensures HasBlock(UnLines(head + FlatMap(f, Conversions)), [ConversionSignature(Conversions[k], pb, svc)] + ConversionGuard(Conversions[k]))
    {
      StubOpening(Conversions[k], pb, svc);
      BlockInStubs(head, f, Conversions, k, [ConversionSignature(Conversions[k], pb, svc)] + ConversionGuard(Conversions[k]));
    }
  }

  /** converter.go declares the four conversions on the module's protobuf message and repo model. */
  lemma ConverterDeclaresConversions(moduleName: string, targetModule: string)
    requires SingleLine(moduleName) && SingleLine(targetModule)
    ensures forall c: Conversion ::
      HasLine(ConverterContent(moduleName, targetModule), ConversionSignature(c, PbPackage(moduleName), PascalOf(moduleName)))
  {
    var text, pb, svc := ConverterContent(moduleName, targetModule), PbPackage(moduleName), PascalOf(moduleName);
    DerivedNamesSingleLine(moduleName, targetModule);
    ConverterStubOpenings(moduleName, targetModule);
    forall c: Conversion ensures HasLine(text, ConversionSignature(c, pb, svc)) {
      ConversionSignatureSingleLine(c, pb, svc);
      var k := ConversionIndex(c);
      BlockHasFirstLine(text, [ConversionSignature(c, pb, svc)] + ConversionGuard(c));
    }
  }

  /** The two single-message conversions of converter.go return nil at once for a nil argument. */
  lemma ConverterGuardsNilArguments(moduleName: string, targetModule: string)
    ensures var text, pb, svc := ConverterContent(moduleName, targetModule), PbPackage(moduleName), PascalOf(moduleName);
      && HasBlock(text, [ConversionSignature(ProtoToModel, pb, svc)] + NilArgumentGuard("pb"))
      && HasBlock(text, [ConversionSignature(ModelToProto, pb, svc)] + NilArgumentGuard("model"))
  {
    ConverterStubOpenings(moduleName, targetModule);
    var k0, k1 := ConversionIndex(ProtoToModel), ConversionIndex(ModelToProto);
  }

  /** service.go declares the service type and imports the protobuf package under its alias. */
  lemma ServiceDeclaresType(moduleName: string, targetModule: string)
    requires SingleLine(moduleName) && SingleLine(targetModule)
    ensures HasLine(ServiceContent(moduleName, targetModule), "type " + PascalOf(moduleName) + "Service struct {")
    ensures HasLine(ServiceContent(moduleName, targetModule),
              ImportLine(PbPackage(moduleName), PbImportPath(targetModule, moduleName)))
  {
    DerivedNamesSingleLine(moduleName, targetModule);
    ImportLineSingleLine(PbPackage(moduleName), PbImportPath(targetModule, moduleName));
    UnLinesHasLine(ServiceLines(moduleName, targetModule), 6);
    UnLinesHasLine(ServiceLines(moduleName, targetModule), 3);
  }

  /**
   * A handler file imports the protobuf package under the alias service.go uses, and declares
   * the method on the type service.go declares, taking and returning the method's protobuf
   * request and response types.
   */
  lemma HandlerDeclaresMethod(moduleName: string, targetModule: string, m: ServiceMethod)
    requires SingleLineNames(moduleName, targetModule, m)
    ensures HasLine(HandlerContent(moduleName, targetModule, m),
              MethodSignature(PascalOf(moduleName), PbPackage(moduleName), m))
    ensures HasLine(HandlerContent(moduleName, targetModule, m),
              ImportLine(PbPackage(moduleName), PbImportPath(targetModule, moduleName)))
  {
    DerivedNamesSingleLine(moduleName, targetModule);
    MethodSignatureSingleLine(PascalOf(moduleName), PbPackage(moduleName), m);
    ImportLineSingleLine(PbPackage(moduleName), PbImportPath(targetModule, moduleName));
    UnLinesHasLine(HandlerLines(moduleName, targetModule, m), 9);
    UnLinesHasLine(HandlerLines(moduleName, targetModule, m), 4);
  }

  lemma HandlerBodyLinesSingleLine(pb: string, m: ServiceMethod)
    requires SingleLine(pb) && SingleLine(m.ResponseType)
    ensures SingleLine(NilRequestCheck) && SingleLine(NilRequestError)
    ensures SingleLine(ZeroResponse(pb, m)) && SingleLine(SuccessReturn)
  {
    var a, b, c := "\t\treturn nil, ", "status.Error(codes.InvalidArgument, ", "\"request cannot be nil\")";
    NoLineBreak(a);
    NoLineBreak(b);
    NoLineBreak(c);
    SingleLineJoin(a, b);
    SingleLineJoin(a + b, c);
    NoLineBreak(NilRequestCheck);
    NoLineBreak(SuccessReturn);
    var r, e := "\tresp := &", "{}";
    NoLineBreak(r);
    NoLineBreak(".");
    NoLineBreak(e);
    SingleLineJoin(r, pb);
    SingleLineJoin(r + pb, ".");
    SingleLineJoin(r + pb + ".", m.ResponseType);
    SingleLineJoin(r + pb + "." + m.ResponseType, e);
  }

  /**
   * A handler fails fast on a nil request and otherwise succeeds with a zero-valued response:
   * it holds the nil check, whose branch returns no response and an InvalidArgument error,
   * the empty response message of the method's response type, and its return with a nil error.
   */
  lemma HandlerRejectsNilRequest(moduleName: string, targetModule: string, m: ServiceMethod)
    requires SingleLineNames(moduleName, targetModule, m)
    ensures HasLine(HandlerContent(moduleName, targetModule, m), NilRequestCheck)
    ensures HasLine(HandlerContent(moduleName, targetModule, m), NilRequestError)
    ensures HasLine(HandlerContent(moduleName, targetModule, m), ZeroResponse(PbPackage(moduleName), m))
    ensures HasLine(HandlerContent(moduleName, targetModule, m), SuccessReturn)
  {
    var ls := HandlerLines(moduleName, targetModule, m);
    DerivedNamesSingleLine(moduleName, targetModule);
    HandlerBodyLinesSingleLine(PbPackage(moduleName), m);
    UnLinesHasLine(ls, 10);
    UnLinesHasLine(ls, 11);
    UnLinesHasLine(ls, 13);
    UnLinesHasLine(ls, 14);
  }

  /**
   * The order of a handler's method: the signature, then at once the nil check and its error
   * return, and only after them the zero-valued response and its success return.
   */
  lemma HandlerChecksBeforeResponding(moduleName: string, targetModule: string, m: ServiceMethod)
    ensures HasBlock(HandlerContent(moduleName, targetModule, m),
              [MethodSignature(PascalOf(moduleName), PbPackage(moduleName), m),
               NilRequestCheck, NilRequestError, "\t}",
               ZeroResponse(PbPackage(moduleName), m), SuccessReturn, "}"])
  {
    var ls := HandlerLines(moduleName, targetModule, m);
    UnLinesHasBlock(ls, 9, 16);
    assert ls[9..16] == [MethodSignature(PascalOf(moduleName), PbPackage(moduleName), m),
      NilRequestCheck, NilRequestError, "\t}", ZeroResponse(PbPackage(moduleName), m), SuccessReturn, "}"];
  }

  /** The service type embeds the generated Unimplemented server of the same service name. */
  lemma ServiceEmbedsUnimplementedServer(moduleName: string, targetModule: string)
    requires SingleLine(moduleName) && SingleLine(targetModule)
    ensures HasLine(ServiceContent(moduleName, targetModule),
              "\t" + PbPackage(moduleName) + ".Unimplemented" + PascalOf(moduleName) + "ServiceServer")
  {
    DerivedNamesSingleLine(moduleName, targetModule);
    UnLinesHasLine(ServiceLines(moduleName, targetModule), 7);
  }

  /** service.go declares the constructor of the service type. */
  lemma ServiceDeclaresConstructor(moduleName: string, targetModule: string)
    requires SingleLine(moduleName) && SingleLine(targetModule)
    ensures HasLine(ServiceContent(moduleName, targetModule),
              "func New" + PascalOf(moduleName) + "Service() *" + PascalOf(moduleName) + "Service {")
  {
    DerivedNamesSingleLine(moduleName, targetModule);
    UnLinesHasLine(ServiceLines(moduleName, targetModule), 10);
  }
}
