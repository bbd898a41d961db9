# grpcframe scaffolding, modelled in Dafny

grpcframe is a command-line tool that scaffolds gRPC services in Go. This project models
the scaffolding pipeline of its `cmd/` package:

- `module add` derives names from a module name, scans the generated `*_grpc.pb.go` files
  for the unary methods of the service interface, and writes `service.go`, one handler file
  per method and `converter.go`.
- `register` and `endpoints` discover the modules under `app/rpc` and regenerate the
  aggregate `app/rpc/server.go` and `app/gateway/gateway.go`.
- `migrate` reads the database settings from `.env`, formats the connection string and
  dispatches the migration direction.
- `init` lays out a new project: its directories, its thirteen template files and the Go
  version of the Dockerfile.

The file system is a value: a map from file path to content plus a set of directory paths
(module `FileStore`). Commands take it and return it. What a command reads (go.mod, the
listing of `app/rpc`, the text of a `.pb.go` file, `.env`, the output of `go version`) is
an input. Calls into the database and the migrate library are function parameters.

Modules, one per source file plus shared helpers:

| module | models |
|---|---|
| `Results` | `Option`, `Result`, `Outcome` (Go's `error`) and the error conditions |
| `Seqs` | map, filter, flat-map and fold on sequences, with their algebra |
| `GoStrings` | the `strings`/`unicode` functions the commands use (ToLower, TrimSpace, Split, HasPrefix) |
| `FileStore` | `filepath.Join`, `os.Stat`, `os.Create` and `os.MkdirAll` on the map-and-set file system |
| `Naming` | `camelToSnake`, `toPascalCase` and the names derived from a module name (`cmd/module.go`) |
| `GrpcParse` | the line scanner of `parseGrpcFile` (`cmd/module.go`) |
| `ModuleTemplates` | `generateServiceContent`, `generateHandlerContent`, `generateConverterContent` |
| `ModuleCmd` | `ModuleConfig`, `extractServiceMethods`, `writeFile` and the writing steps of `addModule` |
| `Register` | `getTargetModuleName`, `extractServiceInfo`, `discoverModules` (`cmd/register.go`) |
| `EndpointTexts`, `Endpoints` | `cmd/endpoints.go`: gateway discovery and the `server.go` and `gateway.go` generators |
| `Migrate` | `loadDBConfig`, `parseInt`, `createMigrateInstance`, `runMigrations`, `forceMigration` |
| `ProjectInit` | `createFileWithContent`, `createDirectoryStructure`, `createProjectFiles`, `getGoVersion` |

Code that loops while changing state is written as methods with loops: the scanner, the
case conversions, `extractServiceMethods` (a method of the `ModuleConfig` class), the
`strings.Builder` loops of the generators (the `Builder` class), the `.env` scanner that
fills a `DBConfig` object, and the directory and file loops of `init`. Each one is proved
equal to a specification function. The lemmas are stated about those functions.

Two behaviours of the code are worth naming, because the model keeps them as written:

- The files `module add` writes go through `writeFile` (`cmd/module.go:443-453`). It uses
  `os.Create`, so it truncates and overwrites an existing file. `module add` does not
  check whether its files already exist. Only `init`'s `createFileWithContent` skips a
  file that already exists.
- The gateway discovery registers a module whose `service.go` exists but cannot be read.
  `extractGatewayInfo` never reads the file. The server discovery skips such a module.

## Model

| member | source | states |
|---|---|---|
| Naming.CamelToSnake | cmd/module.go:455-464 | the loop writes exactly the snake-case form `SnakeOf(s)` |
| Naming.SnakeLength | cmd/module.go:455-464 | the output is as long as the input plus one per upper-case character after index 0 |
| Naming.SnakeIsLower | cmd/module.go:455-464 | the output has no upper-case character |
| Naming.SnakeIsLowerWithUnderscores | cmd/module.go:455-464 | leaving out '_', the output is the lower-cased input: only '_' is inserted |
| Naming.SnakeExamples | cmd/module.go:455-464 | "ABC" gives "a_b_c" and "CreateCourse" gives "create_course" |
| Naming.SnakeNotInjective | cmd/module.go:455-464 | "getA" and "Get_a" differ but have the same snake-case form |
| Naming.Fields | cmd/module.go:470-474 | the words are non-empty and contain no '_', '-' or white space |
| Naming.FieldsCoverWordChars | cmd/module.go:470-474 | the words, joined, are exactly the input's non-separator characters in order |
| Naming.ToPascalCase | cmd/module.go:466-483 | the loop writes exactly `PascalOf(s)`: each word capitalised, the rest lower-cased, joined |
| Naming.PascalOfEmpty | cmd/module.go:467-469 | the empty name stays empty |
| Naming.PascalIsInputWithoutSeparators | cmd/module.go:470-482 | up to case, the output is the input without separators, and has that length |
| Naming.PascalHasNoSeparator | cmd/module.go:470-482 | the output contains no '_', '-' or white space |
| Naming.FieldsOfWordThen | cmd/module.go:470-474 | a word followed by a separator is the first field |
| Naming.FieldsOfWord | cmd/module.go:470-474 | a word without separators is a single field |
| Naming.PascalOfTwoWords | cmd/module.go:470-482 | two words around a separator give the two words capitalised and joined |
| Naming.PascalExample | cmd/module.go:470-482 | "course_catalog" gives "CourseCatalog" |
| Naming.PascalNotIdempotent | cmd/module.go:476-480 | "CourseCatalog" gives "Coursecatalog": inner capitals are lowered |
| GrpcParse.MethodOf | cmd/module.go:286-294 | the record has Name = RpcName = the method name, its request and response types, and FileName "rpc_" + snake name + ".go" |
| GrpcParse.ScanLines | cmd/module.go:270-297 | the loop with its inside flag computes the fold `Scan` over the lines |
| GrpcParse.ParseGrpcFile | cmd/module.go:257-300 | an unreadable file is a read error; otherwise the methods of the scan of its lines |
| GrpcParse.ScanInside | cmd/module.go:270-281 | the scanner's flag is set exactly when an open line came earlier and no closing `}` line after it |
| GrpcParse.ScanCollects | cmd/module.go:270-297 | the scanner collects exactly the methods of the lines strictly inside a block that match, in line order |
| GrpcParse.ParseIsCollected | cmd/module.go:268-297 | the whole file's methods are those of the matching lines inside blocks, in order |
| GrpcParse.CollectedFromYieldingLines | cmd/module.go:282-294 | every record comes from a matching line inside a block |
| GrpcParse.ScanRecordFields | cmd/module.go:286-294 | every record has RpcName == Name and FileName "rpc_" + camelToSnake(Name) + ".go" |
| GrpcParse.NoInterfaceNoMethods | cmd/module.go:268-299 | a file without an interface line yields no methods and no error |
| GrpcParse.ScanExtends | cmd/module.go:270-297 | more lines only extend the method list |
| ModuleTemplates.ServiceContentSplitsIntoLines | cmd/module.go:317-336 | service.go splits back into its thirteen lines |
| ModuleTemplates.ServicePackageClause | cmd/module.go:318-320 | service.go opens with the package clause of the lower-cased module name |
| ModuleTemplates.HandlerPackageClause | cmd/module.go:419-421 | a handler file opens with the same package clause |
| ModuleTemplates.ConverterPackageClause | cmd/module.go:348-350 | converter.go opens with the same package clause |
| ModuleTemplates.ServiceDeclaresType | cmd/module.go:317-336 | service.go declares the service type and imports the protobuf package under its alias |
| ModuleTemplates.HandlerDeclaresMethod | cmd/module.go:418-441 | a handler declares the method on the service type, with its request and response types, and imports the same package |
| ModuleTemplates.ServiceEmbedsUnimplementedServer | cmd/module.go:317-336 | the service type embeds the Unimplemented server of the same service name |
| ModuleTemplates.ServiceDeclaresConstructor | cmd/module.go:317-336 | service.go declares the constructor of the service type |
| ModuleTemplates.ServiceContent | cmd/module.go:317-336 | the service text ends with the closing brace of its last declaration and a newline |
| ModuleTemplates.HandlerContent | cmd/module.go:418-441 | the handler text ends with the closing brace of the method and a newline |
| ModuleTemplates.ConverterContent | cmd/module.go:347-416 | the converter text ends with the closing brace of its last stub and a newline |
| ModuleTemplates.HandlerRejectsNilRequest | cmd/module.go:433-437 | a handler holds the nil-request check, the InvalidArgument "request cannot be nil" return, the empty response of the method's response type and the successful return, each as a whole line |
| ModuleTemplates.HandlerChecksBeforeResponding | cmd/module.go:432-438 | the method's lines are consecutive: signature, nil check and its error return, closing brace, empty response, return, closing brace, so the check comes before the response |
| ModuleTemplates.ConverterStubOpenings | cmd/module.go:360-406 | each of the four stubs opens with its declaration followed directly by its guard |
| ModuleTemplates.ConverterDeclaresConversions | cmd/module.go:361-400 | converter.go declares ProtoToModel, ModelToProto, ModelsToProtos and ProtosToModels over the module's protobuf and repo types, each as a whole line |
| ModuleTemplates.ConverterGuardsNilArguments | cmd/module.go:361-379 | ProtoToModel returns nil for a nil `pb`, and ModelToProto for a nil `model`, right after their declarations |
| ModuleCmd.ModuleConfig.constructor | cmd/module.go:58-64 | the proto path, app path and protogen path addModule derives from the module name |
| ModuleCmd.UnreadableFilesSkipped | cmd/module.go:170-173 | a file that cannot be parsed contributes no method |
| ModuleCmd.ExtractServiceMethods | cmd/module.go:145-184 | no file is an error; otherwise the methods of all files are appended in file order, and none at all is an error |
| ModuleCmd.WriteFile | cmd/module.go:443-453 | the write fails when the path cannot be created; otherwise the path holds exactly the new text |
| ModuleCmd.WriteOverwrites | cmd/module.go:443-453 | after a write the path holds the new text whether or not it existed, and no other path changes |
| ModuleCmd.WriteReplacesExisting | cmd/module.go:443-453 | writing is not idempotent: an existing file with other text is replaced |
| ModuleCmd.LastWriteWins | cmd/module.go:189-196 | of several writes to one path, the last decides its text |
| ModuleCmd.UnwrittenUnchanged | cmd/module.go:443-453 | a path no write names is unchanged |
| ModuleCmd.RunWritesStopsAtFirstBlocked | cmd/module.go:189-196 | writes in a row apply every write before the first that cannot be created, and fail with that path |
| ModuleCmd.WriteHandlerFile | cmd/module.go:189-196 | one handler write: the method's handler text at app path / file name, with the outcome of that write |
| ModuleCmd.GenerateHandlerFiles | cmd/module.go:186-198 | one handler file per method in method order, stopping at the first failed write |
| ModuleCmd.SharedFileNameLastWins | cmd/module.go:189-196 | when two methods share a file name, the file holds the later method's handler |
| ModuleCmd.HandlerFileNamesCollide | cmd/module.go:455-464 | different method names can share a handler file |
| FileStore.MkdirAll | cmd/module.go:301-306 | succeeds exactly when neither the path nor a directory above it is a file; then the path and every directory above it exist, otherwise nothing changes |
| ModuleCmd.CreateModuleDirectory | cmd/module.go:301-306 | succeeds exactly when neither the path nor a directory above it is a file, and then makes all of them |
| ModuleCmd.GenerateServiceFile | cmd/module.go:308-315 | service.go is written over whatever the path held |
| ModuleCmd.GenerateConverterFile | cmd/module.go:338-345 | converter.go is written over whatever the path held |
| ModuleCmd.HandlersAvoidServiceFile | cmd/module.go:286 | no handler file is service.go |
| ModuleCmd.ModuleFilesHoldTheirText | cmd/module.go:94-109 | after all writes, service.go and converter.go hold their generated text |
| ModuleCmd.WriteModuleFiles | cmd/module.go:89-109 | the directory, then service.go, the handlers and converter.go in that order, stopping at the first error |
| ModuleCmd.GenerateModule | cmd/module.go:83-109 | extraction errors write nothing; otherwise the module's files are written as above |
| Register.ModuleLineIndex | cmd/register.go:86-90 | the first line that starts with the module directive |
| Register.GetTargetModuleName | cmd/register.go:79-94 | the loop returns the target module of go.mod, or the read or missing-name error |
| Register.FirstModuleLineNamesTarget | cmd/register.go:86-93 | the target is the trimmed rest of the first module line; later ones are ignored |
| Register.ModuleNameMissingIffNoDirective | cmd/register.go:86-93 | the name is missing exactly when no line starts with the module directive |
| Register.DeclaredModuleIsTarget | cmd/register.go:86-93 | a go.mod opening with `module <name>` gives that name back |
| Register.ExtractServiceInfo | cmd/register.go:96-114 | fails exactly when service.go cannot be read; otherwise the package, import path, service variable and registration function derived from the module name |
| Register.RegistrationIgnoresServiceText | cmd/register.go:96-101 | the registration does not depend on service.go's text |
| Register.RegistrationMatchesGeneratedService | cmd/register.go:102-113 | the registration names the package, import and embedded server that service.go declares |
| Register.DiscoverModules | cmd/register.go:33-77 | the loop returns the registrations of the listing, or the go.mod or listing error |
| Register.RegistrationsFollowListing | cmd/register.go:53-76 | one registration per directory with a readable service.go, in listing order |
| Register.UnregistrableEntrySkipped | cmd/register.go:54-71 | a plain file, a directory without service.go or an unreadable one is skipped without error |
| Register.GoModFailureComesFirst | cmd/register.go:37-40 | a go.mod failure is reported whatever app/rpc holds |
| Register.NoRpcDirNoRegistrations | cmd/register.go:42-45 | without app/rpc there is nothing to register, and no error |
| Endpoints.ExtractGatewayInfo | cmd/endpoints.go:118-130 | never fails; the registration function is the package's handler-from-endpoint function of the service |
| Endpoints.GatewayAgreesWithService | cmd/endpoints.go:118-130 | the gateway names the same module, service, package and import path as the server |
| Endpoints.DiscoverGatewayModules | cmd/endpoints.go:72-116 | the loop returns the gateway registrations of the listing, or the go.mod or listing error |
| Endpoints.GatewayRegistrationsFollowListing | cmd/endpoints.go:92-113 | one registration per directory with a service.go, in listing order |
| Endpoints.ServerModulesAmongGatewayModules | cmd/endpoints.go:92-113 | the server registers the gateway's modules whose service.go can be read, in the same order |
| Endpoints.SameModulesWhenServiceFilesReadable | cmd/endpoints.go:92-113 | when every service.go can be read, both discoveries give the same modules in order |
| Endpoints.DiscoveriesFailAlike | cmd/endpoints.go:72-91 | both discoveries fail in the same cases with the same error |
| Endpoints.Builder.WriteString | cmd/endpoints.go:141 | a piece is appended to what was written |
| Endpoints.Builder.WriteEach | cmd/endpoints.go:159-161 | a range loop appends one piece per element, in order |
| Endpoints.WriteGatewayFile | cmd/endpoints.go:141-280 | the writes: head, one import per registration, middle, one block per registration, tail |
| Endpoints.GenerateGatewayContent | cmd/endpoints.go:132-283 | fails when go.mod yields no module; otherwise the gateway text of the registrations |
| Endpoints.GatewayLayout | cmd/endpoints.go:159-211 | import i sits between head and middle, block i between the dial options and the tail, in list order |
| Endpoints.DiscoveredGatewayRegistrationsShaped | cmd/endpoints.go:118-130 | every discovered registration calls its package's handler registration function |
| Endpoints.GatewayBlockUsesImportedPackage | cmd/endpoints.go:159-208 | a block calls a function of the package that its import line binds |
| Endpoints.WriteServerFile | cmd/endpoints.go:294-365 | the server writes in order: imports, type, constructors, comment, register calls, tail |
| Endpoints.WriteServerImports | cmd/endpoints.go:294-305 | the head and two imports per registration |
| Endpoints.WriteServerType | cmd/endpoints.go:307-343 | one embedded server per registration, then the fixed middle |
| Endpoints.WriteServerRun | cmd/endpoints.go:345-365 | one constructor per registration, the comment, one register call per registration, the tail |
| Endpoints.GenerateServerContent | cmd/endpoints.go:286-368 | fails when go.mod yields no module; otherwise the server text of that module and the registrations |
| Endpoints.ServerImportBlockLayout | cmd/endpoints.go:300-305 | the two imports of registration i sit at 1 + 2i and 2 + 2i |
| Endpoints.ServerTypeBlockLayout | cmd/endpoints.go:316-319 | the embedded server of registration i sits at i |
| Endpoints.ServerRunBlockLayout | cmd/endpoints.go:345-355 | constructor i sits at i and register call i at n + 1 + i |
| Endpoints.ServerLinesAgree | cmd/endpoints.go:345-355 | the register call passes the variable its constructor line assigns, through the alias its import binds |
| Endpoints.ServerUsesGeneratedModule | cmd/endpoints.go:300-348 | the server imports the module directory and calls the constructor its service.go declares |
| Endpoints.RegisterServices | cmd/endpoints.go:371-409 | discover, do nothing when empty, otherwise write server.go |
| Endpoints.RegisterGatewayEndpoints | cmd/endpoints.go:32-70 | discover, do nothing when empty, otherwise write gateway.go |
| Endpoints.NothingToRegisterWritesNothing | cmd/endpoints.go:39-42 | with nothing to register neither command writes, and both succeed |
| Endpoints.ServerFileReplaced | cmd/endpoints.go:390-393 | server.go is replaced whole and no other file changes |
| Endpoints.GatewayFileReplaced | cmd/endpoints.go:51-54 | gateway.go is replaced whole and no other file changes |
| Endpoints.GatewayWriteFailureChangesNothing | cmd/endpoints.go:51-54 | a failed write of gateway.go leaves the store unchanged |
| Migrate.SplitAtEquals | cmd/migrate.go:85-87 | the line splits at its first '=' |
| Migrate.KeyNamedInvertsKeyName | cmd/migrate.go:89-102 | the switch selects a case exactly for the six key names, each its own |
| Migrate.WithField | cmd/migrate.go:89-102 | one field is set and the others are kept |
| Migrate.DBConfig.constructor | cmd/migrate.go:74-76 | the config starts with SSLMode "disable" and the rest empty |
| Migrate.DBConfig.Set | cmd/migrate.go:89-102 | a known key sets its field; any other key changes nothing |
| Migrate.LoadDBConfig | cmd/migrate.go:62-110 | the scanner loop fills the config `LoadDBConfigOf` gives, or returns its error |
| Migrate.ScanSettings | cmd/migrate.go:78-103 | the scanner loop leaves the config the fold `ReadSettings` of the lines gives |
| Migrate.LastValue | cmd/migrate.go:78-103 | the value of the last line that sets a key, absent exactly when none does |
| Migrate.ApplyLineField | cmd/migrate.go:80-102 | a line changes a field exactly when it sets that key |
| Migrate.FieldIsLastValue | cmd/migrate.go:74-103 | each field is the last value given for its key, or its default |
| Migrate.SslModeDefaultsToDisable | cmd/migrate.go:74-76 | without a DB_SSL_MODE line SSLMode is "disable" |
| Migrate.SkippedLineDropsOut | cmd/migrate.go:81-83 | a comment, a line without '=' or an unknown key can be removed without effect |
| Migrate.SettingLineSplitsAtFirstEquals | cmd/migrate.go:85-87 | key and value split at the first '=' and are trimmed; the value may hold '=' |
| Migrate.LoadFailsIffRequiredFieldEmpty | cmd/migrate.go:105-107 | loading fails exactly when Host, Port, User or Name is empty |
| Migrate.EmptyPasswordAccepted | cmd/migrate.go:105-107 | an empty password is accepted |
| Migrate.ScanDigits | cmd/migrate.go:193-197 | the run of digits and '_' the scan takes |
| Migrate.ParseInt | cmd/migrate.go:193-197 | the result is a 64-bit value |
| Migrate.ParseIntReadsDecimal | cmd/migrate.go:193-197 | the decimal text of any 64-bit value reads back as it |
| Migrate.ParseIntReadsNegative | cmd/migrate.go:193-197 | with a minus sign, the negated value |
| Migrate.ParseIntWithoutDigitsIsZero | cmd/migrate.go:193-197 | text that does not scan gives 0 |
| Migrate.ConnStringRoundTrip | cmd/migrate.go:124-131 | each field can be read back from the connection string in its place |
| Migrate.ConnString | cmd/migrate.go:124-131 | the string starts with the postgres:// scheme and ends with the sslmode option of the config |
| Migrate.CreateMigrateInstance | cmd/migrate.go:112-159 | the config, then the migrations directory, then the connection, and the connection string on success |
| Migrate.Negate64 | cmd/migrate.go:180 | `-1 * n` in 64 bits, which negates all but the least value |
| Migrate.RunMigrations | cmd/migrate.go:161-191 | set up, then Up (no change is success) or Steps of minus the count, any other direction an error |
| Migrate.ForceMigration | cmd/migrate.go:212-226 | set up, then Force of the parsed version |
| Migrate.DownStepsArg | cmd/migrate.go:42-45 | `migrate down` passes its first argument, or "1" |
| Migrate.DownDefaultsToOneStep | cmd/migrate.go:176-180 | "down" with empty steps rolls back one migration |
| Migrate.DownRollsBackCount | cmd/migrate.go:176-184 | "down n" rolls back n migrations |
| Migrate.OnlyUpAndDown | cmd/migrate.go:186-187 | any direction but "up" and "down" is an error |
| Migrate.SetupFailsFirst | cmd/migrate.go:162-167 | a failed setup is reported before the direction is looked at |
| Migrate.NoChangeIsSuccessOnlyUp | cmd/migrate.go:169-184 | Up treats no change as success, a rollback does not |
| ProjectInit.CreateFileWithContent | cmd/init.go:178-203 | the check, create and write give the store and outcome of `CreatedFile` |
| ProjectInit.CreateFileKeepsExisting | cmd/init.go:179-182 | an existing path leaves the store unchanged, with success |
| ProjectInit.CreateFileWritesContent | cmd/init.go:184-199 | a missing path holds exactly the content (empty content an empty file), or the create error with nothing changed |
| ProjectInit.CreateFileChangesOnlyItsPath | cmd/init.go:178-203 | no other path changes |
| ProjectInit.CreateFileIdempotent | cmd/init.go:179-182 | a second call, with any content, changes nothing |
| ProjectInit.CreateProjectDirectory | cmd/init.go:77-85 | an existing path is kept; otherwise MkdirAll, failing with the path |
| ProjectInit.CreateDirectories | cmd/init.go:110-118 | the loop computes `StructureOf` over the list |
| ProjectInit.CreateDirectoryStructure | cmd/init.go:88-120 | runs over the eighteen directories as the source lists them, database/migration among them; on success each exists under the base |
| ProjectInit.CorrectedDirectoryStructure | cmd/init.go:88-120 | the same loop over the list with database/migrations; on success the directory migrate reads exists |
| ProjectInit.StructureKeepsDirs | cmd/init.go:110-118 | directories that existed remain |
| ProjectInit.StructureMakesListed | cmd/init.go:110-118 | on success every listed directory exists under the base |
| ProjectInit.StructureMakesOnlyFootprint | cmd/init.go:110-118 | only the listed paths and the directories above them are added |
| ProjectInit.StructureFailureNamesPath | cmd/init.go:112-116 | a failure names a listed path that MkdirAll could not make |
| ProjectInit.StructureOnEmptyStoreSucceeds | cmd/init.go:88-120 | in a store with no files the layout is always made |
| ProjectInit.WrittenLayoutLacksMigrationsDir | cmd/init.go:100 | the layout as written lets a fresh project's migrate fail for the missing migrations directory |
| ProjectInit.LayoutHasMigrationsDir | cmd/init.go:89-108 | the corrected list makes database/migrations, so migrate does not fail for it |
| ProjectInit.ThirteenProjectFiles | cmd/init.go:205-221 | the templates have thirteen distinct paths |
| ProjectInit.GetFileTemplates | cmd/init.go:205-221 | the map has exactly the thirteen template paths as keys |
| ProjectInit.EnvTemplateIsFixed | cmd/init.go:239-241 | .env gets the fixed comment line |
| ProjectInit.CreateFiles | cmd/init.go:166-175 | the loop computes `ProjectFilesOf` for the paths in order |
| ProjectInit.CreateProjectFiles | cmd/init.go:165-176 | creates each template file under the project path |
| ProjectInit.ProjectFilesOutcome | cmd/init.go:166-175 | success exactly when every missing template path can be created |
| ProjectInit.ProjectFilesKeepFiles | cmd/init.go:179-182 | existing files are never changed |
| ProjectInit.ProjectFilesWriteMissing | cmd/init.go:184-199 | on success every missing template path holds its template |
| ProjectInit.ProjectFilesAddOnlyMissing | cmd/init.go:166-175 | every added path is a missing template path holding its template |
| ProjectInit.ProjectFilesOrderIndependent | cmd/init.go:166-175 | the outcome, and the store on success, do not depend on the map's iteration order |
| ProjectInit.FreshEnvLacksDatabaseConfig | cmd/init.go:239-241 | the .env init writes makes loadDBConfig fail for missing settings |
| ProjectInit.CaptureAt | cmd/init.go:154-159 | the capture is digits, a '.', then digits |
| ProjectInit.FirstVersionFrom | cmd/init.go:154-157 | the leftmost position where `go<digits>.<digits>` matches |
| ProjectInit.GetGoVersion | cmd/init.go:147-163 | "1.21" when the command fails or nothing matches |
| ProjectInit.GoVersionIsLeftmostCapture | cmd/init.go:154-162 | otherwise the capture of the leftmost match |

## Left out

- Process and file-system calls are inputs or outputs here: the text of go.mod, of each
  `.pb.go` file and of `.env`, the listing of `app/rpc`, the output of `go version`, and
  the file map and directory set. go.mod is one snapshot, although the source reads it
  more than once.
- `validateProtoDirectory`, `runProtogen` and `discoverProtoFiles` (`cmd/module.go:126-256`)
  are left out. They check a directory, run `make protoc` and glob for files. The model
  takes the globbed files as input: `GenerateModule` starts after them.
- `go fmt` and `go mod tidy` after `addModule`, and all of `initializeProject` and
  `initializeGoModule` (`os.Chdir`, `go mod init`, `go mod tidy`, `sqlc`). They are
  external commands. Only their file-system steps are modelled.
- `showVersion` and the migrate library's Up, Steps, Force and Version are left out as
  calls. They are the `library` parameter. `pgx.Connect` and `sql.Open` are the `connects`
  parameter, and the two are not told apart.
- The two regular expressions of `parseGrpcFile` are matcher parameters (`Matchers`), not
  a regex engine.
- `parseGrpcFile` splits the file with `strings.Split` at '\n' (`cmd/module.go:264`), and
  the model splits exactly so. `loadDBConfig` reads `.env` with a `bufio.Scanner`; the model
  takes the lines the scanner yields as its input (`EnvLines`). Not modelled: the scanner's
  removal of a trailing '\r', and its 64 KiB line limit: on a longer line `Scan` stops
  silently, and because the source never checks `scanner.Err()`, the lines after it are
  ignored.
- ModuleCmd.WriteFile: a write after a successful `os.Create` never fails in the model. In
  the source `WriteString` can fail (`cmd/module.go:449-451`), returning an error and
  leaving the file truncated.
- ProjectInit.CreatedFile: likewise, a write after a successful create never fails. In the
  source `WriteString` can fail (`cmd/init.go:195-198`), returning an error and leaving
  an empty or partial file.
- The Go standard library `unicode.ToLower`/`ToUpper` are modelled on ASCII letters only.
  `filepath.Join` does not clean paths.
- Error message texts and their wrapping are an `Error` datatype. Logging and console
  output are left out.
- `Endpoints.Builder`: it records the pieces that are written, and `Render` gives their
  text. The fixed texts of the gateway and server files are named constants.
- The static template bodies of `init` (Dockerfile, README, Makefile and the rest) are
  the `body` parameter of `GetFileTemplates`. Only their paths and `.env` are fixed.
- Migrate.ParseInt: the number must start at the first character. `fmt.Sscanf` would
  first discard leading spaces.
- Migrate.ConnString does not escape the fields. The round trip is stated for fields
  without the separators.
- ProjectInit.CreateProjectFiles: the paths are visited in an `order` parameter, because a
  Go map is iterated in an unspecified order. On failure, which files were already written
  depends on that order.
- `os.Stat` errors other than "does not exist" are not modelled. A path either exists or
  it does not.
- `pkg/` logging, `cmd/sqlc.go`, `cmd/protogen.go`, the cobra command declarations and
  everything under `appliction/` are not part of this model.

## Findings

| source | as written | input that shows it | evidently intended | confidence | as-written member | corrected member |
|---|---|---|---|---|---|---|
| cmd/init.go:100 | `init` makes `database/migration`, but `createMigrateInstance` requires `database/migrations` (cmd/migrate.go:118-121) | `init` in an empty directory, then `migrate up` with a complete `.env`: it fails because the migrations directory does not exist | `init` and `migrate` name one directory. `CreateDirectoryStructure` keeps the list as written; `CorrectedDirectoryStructure` runs the same loop over a list with `database/migrations`, the name the migrate command reads (the generated README at cmd/init.go:667 and 689 uses init's spelling, so fixing either side would do) | not executed | ProjectInit.WrittenLayoutLacksMigrationsDir | ProjectInit.LayoutHasMigrationsDir |
