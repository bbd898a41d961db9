/**
 * The file-system work of the `init` command: the project directory, the directory
 * layout, the project files (each created only when it is absent), and the Go version
 * read from the output of `go version`. The store is FileStore's pair of values; the
 * output of `go version` is an input, None when the command fails.
 */
module ProjectInit {
  import opened GoStrings
  import opened Results
  import opened FileStore
  import opened Migrate

  // ---------------------------------------------------------------------------
  // createFileWithContent

  /**
   * What createFileWithContent leaves: an existing path (file or directory) is left alone
   * and counts as success; otherwise the file is created holding content, or os.Create fails.
   */
  function CreatedFile(files: map<string, string>, dirs: set<string>, path: string, content: string)
    : (map<string, string>, Outcome)
  {
    if Exists(files, dirs, path) then (files, Done)
    else if !CanCreate(dirs, path) then (files, Failed(CreateFailed(path)))
    else (files[path := content], Done)
  }

  /** createFileWithContent: os.Stat, then os.Create, then the write of a non-empty content. */
  method CreateFileWithContent(files: map<string, string>, dirs: set<string>, path: string, content: string)
    returns (files': map<string, string>, r: Outcome)
    ensures (files', r) == CreatedFile(files, dirs, path, content)
  {
    if Exists(files, dirs, path) {
      return files, Done;
    }
    if !CanCreate(dirs, path) {
      return files, Failed(CreateFailed(path));
    }
    files' := files[path := ""];
    if content != "" {
      files' := files'[path := content];
    }
    assert files' == files[path := content];
    r := Done;
  }

  /** On an existing path nothing changes and the call succeeds. */
  lemma CreateFileKeepsExisting(files: map<string, string>, dirs: set<string>, path: string, content: string)
    requires Exists(files, dirs, path)
    ensures CreatedFile(files, dirs, path, content) == (files, Done)
  {
  }

  /** On a missing path the file holds exactly content afterwards, or the store is unchanged on failure. */
  lemma CreateFileWritesContent(files: map<string, string>, dirs: set<string>, path: string, content: string)
    requires !Exists(files, dirs, path)
    ensures var (files', r) := CreatedFile(files, dirs, path, content);
      (r.Done? <==> CanCreate(dirs, path))
      && (r.Done? ==> path in files' && files'[path] == content && files'.Keys == files.Keys + {path})
      && (r.Failed? ==> files' == files && r.error == CreateFailed(path))
  {
  }

  /** No other path is added, removed or changed. */
  lemma CreateFileChangesOnlyItsPath(files: map<string, string>, dirs: set<string>, path: string, content: string)
    ensures var files' := CreatedFile(files, dirs, path, content).0;
      forall q :: q != path ==> (q in files' <==> q in files) && (q in files ==> files'[q] == files[q])
  {
  }

  /** A second call, with any content, changes nothing and reports what the first one did. */
  lemma CreateFileIdempotent(files: map<string, string>, dirs: set<string>, path: string, content: string, again: string)
    ensures var (files', r) := CreatedFile(files, dirs, path, content);
      CreatedFile(files', dirs, path, again) == (files', r)
  {
  }

  // ---------------------------------------------------------------------------
  // createProjectDirectory and createDirectoryStructure

  /** createProjectDirectory: os.MkdirAll of the project path when it does not exist. */
  method CreateProjectDirectory(files: map<string, string>, dirs: set<string>, path: string)
    returns (dirs': set<string>, r: Outcome)
    ensures r.Done? <==> Exists(files, dirs, path) || CanMkdirAll(files, path)
    ensures r.Failed? ==> r == Failed(MkdirFailed(path)) && dirs' == dirs
    ensures dirs' == if Exists(files, dirs, path) || r.Failed? then dirs else dirs + {path} + Ancestors(path)
  {
    if Exists(files, dirs, path) {
      return dirs, Done;
    }
    var ok;
    dirs', ok := MkdirAll(files, dirs, path);
    r := if ok then Done else Failed(MkdirFailed(path));
  }

  /**
   * The subdirectories of createDirectoryStructure, as the source lists them: the
   * migrations directory is spelt database/migration.
   */
  const ProjectDirs: seq<string> := [
    "proto", "protogen", "app", "app/rpc", "app/gateway", "cmd", "internal", "internal/repo",
    "internal/services", "database", "database/migration", "database/schema", "database/queries",
    "pkg", "pkg/utils", "doc/swagger", "pkg/utils/convert", "pkg/utils/env"]

  /**
   * The corrected subdirectories: database/migrations, the directory createMigrateInstance
   * looks in, where the source lists database/migration.
   */
  const CorrectedProjectDirs: seq<string> := [
    "proto", "protogen", "app", "app/rpc", "app/gateway", "cmd", "internal", "internal/repo",
    "internal/services", "database", "database/migrations", "database/schema", "database/queries",
    "pkg", "pkg/utils", "doc/swagger", "pkg/utils/convert", "pkg/utils/env"]

  /**
   * The directories after the loop of createDirectoryStructure over list, and its outcome:
   * a path that exists is skipped, a missing one is made with os.MkdirAll, and the first
   * os.MkdirAll that fails ends the loop.
   */
  function StructureOf(files: map<string, string>, dirs: set<string>, base: string, list: seq<string>)
    : (set<string>, Outcome)
    decreases |list|
  {
    if list == [] then (dirs, Done)
    else
      var p := PathJoin(base, list[0]);
      if Exists(files, dirs, p) then StructureOf(files, dirs, base, list[1..])
      else if CanMkdirAll(files, p) then StructureOf(files, dirs + {p} + Ancestors(p), base, list[1..])
      else (dirs, Failed(MkdirFailed(p)))
  }

  /** The range loop of createDirectoryStructure over a list of subdirectories. */
  method CreateDirectories(files: map<string, string>, dirs: set<string>, base: string, list: seq<string>)
    returns (dirs': set<string>, r: Outcome)
    ensures (dirs', r) == StructureOf(files, dirs, base, list)
  {
    dirs' := dirs;
    var i := 0;
    while i < |list|
      invariant i <= |list|
      invariant StructureOf(files, dirs', base, list[i..]) == StructureOf(files, dirs, base, list)
    {
      var fullPath := PathJoin(base, list[i]);
      assert list[i..][1..] == list[i + 1..];
      if !Exists(files, dirs', fullPath) {
        var ok;
        dirs', ok := MkdirAll(files, dirs', fullPath);
        if !ok {
          return dirs', Failed(MkdirFailed(fullPath));
        }
      }
      i := i + 1;
    }
    return dirs', Done;
  }

  /** createDirectoryStructure: the loop over the project's subdirectories under baseDir. */
  method CreateDirectoryStructure(files: map<string, string>, dirs: set<string>, baseDir: string)
    returns (dirs': set<string>, r: Outcome)
    ensures (dirs', r) == StructureOf(files, dirs, baseDir, ProjectDirs)
    ensures r.Done? ==> forall d :: d in ProjectDirs ==> Exists(files, dirs', PathJoin(baseDir, d))
  {
    dirs', r := CreateDirectories(files, dirs, baseDir, ProjectDirs);
    StructureMakesListed(files, dirs, baseDir, ProjectDirs);
  }

  /**
   * createDirectoryStructure with the corrected list: on success the directory migrate
   * looks in exists under baseDir.
   */
  method CorrectedDirectoryStructure(files: map<string, string>, dirs: set<string>, baseDir: string)
    returns (dirs': set<string>, r: Outcome)
    ensures (dirs', r) == StructureOf(files, dirs, baseDir, CorrectedProjectDirs)
    ensures r.Done? ==> Exists(files, dirs', PathJoin(baseDir, MigrationsDir))
  {
    dirs', r := CreateDirectories(files, dirs, baseDir, CorrectedProjectDirs);
    MigrationsDirListed();
    StructureMakesListed(files, dirs, baseDir, CorrectedProjectDirs);
  }

  /** Directories that existed before are still there. */
  lemma {:induction false} StructureKeepsDirs(files: map<string, string>, dirs: set<string>, base: string, list: seq<string>)
    ensures dirs <= StructureOf(files, dirs, base, list).0
    decreases |list|
  {
    if list != [] {
      var p := PathJoin(base, list[0]);
      if Exists(files, dirs, p) {
        StructureKeepsDirs(files, dirs, base, list[1..]);
      } else if CanMkdirAll(files, p) {
        StructureKeepsDirs(files, dirs + {p} + Ancestors(p), base, list[1..]);
      }
    }
  }

  /** After a successful run, every listed subdirectory exists under the base. */
  lemma {:induction false} StructureMakesListed(files: map<string, string>, dirs: set<string>, base: string, list: seq<string>)
    ensures var (dirs', r) := StructureOf(files, dirs, base, list);
      r.Done? ==> forall d :: d in list ==> Exists(files, dirs', PathJoin(base, d))
    decreases |list|
  {
    if list != [] {
      var p := PathJoin(base, list[0]);
      var next := if Exists(files, dirs, p) then dirs else dirs + {p} + Ancestors(p);
      if Exists(files, dirs, p) || CanMkdirAll(files, p) {
        StructureMakesListed(files, next, base, list[1..]);
        StructureKeepsDirs(files, next, base, list[1..]);
        assert forall d :: d in list ==> d == list[0] || d in list[1..];
      }
    }
  }

  /** The paths a run over list may make: each listed path and the directories above it. */
  function Footprint(base: string, list: seq<string>): set<string>
    decreases |list|
  {
    if list == [] then {} else
      var p := PathJoin(base, list[0]);
      {p} + Ancestors(p) + Footprint(base, list[1..])
  }

  /** A run makes no directory but the listed ones and those above them. */
  lemma {:induction false} StructureMakesOnlyFootprint(files: map<string, string>, dirs: set<string>, base: string, list: seq<string>)
    ensures StructureOf(files, dirs, base, list).0 <= dirs + Footprint(base, list)
    decreases |list|
  {
    if list != [] {
      var p := PathJoin(base, list[0]);
      if Exists(files, dirs, p) {
        StructureMakesOnlyFootprint(files, dirs, base, list[1..]);
      } else if CanMkdirAll(files, p) {
        StructureMakesOnlyFootprint(files, dirs + {p} + Ancestors(p), base, list[1..]);
      }
    }
  }

  /** A failed run names the listed path whose os.MkdirAll failed. */
  lemma {:induction false} StructureFailureNamesPath(files: map<string, string>, dirs: set<string>, base: string, list: seq<string>)
    ensures var r := StructureOf(files, dirs, base, list).1;
      r.Failed? ==> exists d :: d in list && r == Failed(MkdirFailed(PathJoin(base, d))) && !CanMkdirAll(files, PathJoin(base, d))
    decreases |list|
  {
    if list != [] {
      var p := PathJoin(base, list[0]);
      if Exists(files, dirs, p) || CanMkdirAll(files, p) {
        var next := if Exists(files, dirs, p) then dirs else dirs + {p} + Ancestors(p);
        StructureFailureNamesPath(files, next, base, list[1..]);
        var r := StructureOf(files, next, base, list[1..]).1;
        if r.Failed? {
          var d :| d in list[1..] && r == Failed(MkdirFailed(PathJoin(base, d))) && !CanMkdirAll(files, PathJoin(base, d));
          assert d in list;
        }
      } else {
        assert list[0] in list;
      }
    }
  }

  /** With no file in the way, every run succeeds. */
  lemma {:induction false} StructureOnEmptyStoreSucceeds(dirs: set<string>, base: string, list: seq<string>)
    ensures StructureOf(map[], dirs, base, list).1 == Done
    decreases |list|
  {
    if list != [] {
      var p := PathJoin(base, list[0]);
      if p in dirs {
        StructureOnEmptyStoreSucceeds(dirs, base, list[1..]);
      } else {
        StructureOnEmptyStoreSucceeds(dirs + {p} + Ancestors(p), base, list[1..]);
      }
    }
  }

  /** The directories above a path are shorter than it. */
  lemma {:induction false} FootprintBounded(list: seq<string>, n: nat)
    requires forall i :: 0 <= i < |list| ==> |list[i]| <= n
    ensures forall q :: q in Footprint("", list) ==> |q| <= n
    decreases |list|
  {
    if list != [] {
      FootprintBounded(list[1..], n);
      assert PathJoin("", list[0]) == list[0];
    }
  }

  /** The directory migrate looks in. */
  lemma MigrationsDirPath()
    ensures MigrationsDir == "database/migrations" && |MigrationsDir| == 19
    ensures PathJoin("", MigrationsDir) == MigrationsDir
  {
  }

  /** Every subdirectory the source lists is shorter than the migrations directory. */
  lemma WrittenDirsShorter()
    ensures forall i :: 0 <= i < |ProjectDirs| ==> |ProjectDirs[i]| < |MigrationsDir|
  {
    MigrationsDirPath();
  }

  /** A run over names shorter than the migrations directory, made at the top, never makes it. */
  lemma ShortNamesMissMigrationsDir(files: map<string, string>, dirs: set<string>, list: seq<string>)
    requires forall i :: 0 <= i < |list| ==> |list[i]| < |MigrationsDir|
    requires MigrationsDir !in dirs
    ensures MigrationsDir !in StructureOf(files, dirs, "", list).0
  {
    StructureMakesOnlyFootprint(files, dirs, "", list);
    FootprintBounded(list, |MigrationsDir| - 1);
  }

  /**
   * As the source lists them, the subdirectories do not include the directory migrate
   * looks in: in a project initialised in a working directory without files, the layout is
   * made, and createMigrateInstance then fails with MigrationsDirMissing whatever .env holds.
   */
  lemma WrittenLayoutLacksMigrationsDir(env: EnvFile, files: map<string, string>, dirs: set<string>, connects: string -> bool)
    requires LoadDBConfigOf(env).Ok? && MigrationsDir !in files && MigrationsDir !in dirs
    ensures var (dirs', r) := StructureOf(map[], dirs, "", ProjectDirs);
      r == Done && MigrateInstanceOf(env, files, dirs', connects) == Err(MigrationsDirMissing)
  {
    StructureOnEmptyStoreSucceeds(dirs, "", ProjectDirs);
    WrittenDirsShorter();
    ShortNamesMissMigrationsDir(map[], dirs, ProjectDirs);
  }

  /** The corrected list names the migrations directory. */
  lemma MigrationsDirListed()
    ensures MigrationsDir in CorrectedProjectDirs
  {
    MigrationsDirPath();
    assert CorrectedProjectDirs[10] == MigrationsDir;
  }

  /** With database/migrations listed, a successful run leaves the directory migrate needs. */
  lemma LayoutHasMigrationsDir(files: map<string, string>, dirs: set<string>, env: EnvFile, connects: string -> bool)
    ensures var (dirs', r) := StructureOf(files, dirs, "", CorrectedProjectDirs);
      r.Done? ==> Exists(files, dirs', MigrationsDir) && MigrateInstanceOf(env, files, dirs', connects) != Err(MigrationsDirMissing)
  {
    MigrationsDirListed();
    MigrationsDirPath();
    StructureMakesListed(files, dirs, "", CorrectedProjectDirs);
  }

  // ---------------------------------------------------------------------------
  // getFileTemplates and createProjectFiles

  /** ProjectConfig: what initializeProject passes to the templates. */
  datatype ProjectConfig = ProjectConfig(ProjectPath: string, ModuleName: string, GoVersion: string)

  /** The template generators of the project files, with the arguments each is given. */
  datatype Template =
    | AppTemplate(moduleName: string) | MainTemplate(moduleName: string) | GatewayTemplate
    | ServerTemplate(moduleName: string) | Dockerfile(goVersion: string)
    | Readme(moduleName: string, goVersion: string) | SqlcConfig | Makefile | BufConfig
    | EnvTemplate | StoreStruct | CommonConvertor | EnvUtils

  /** The text of generateEnvFile, the one template whose body is part of this model. */
  const EnvFileText := "# Add Your env variable"

  /** The text of a template; body gives those of every template but .env's. */
  function TemplateText(t: Template, body: Template -> string): string {
    if t == EnvTemplate then EnvFileText else body(t)
  }

  /** getFileTemplates: the path of each project file under the project and its text. */
  function GetFileTemplates(config: ProjectConfig, body: Template -> string): (r: map<string, string>)
    ensures forall p :: p in r <==> p in TemplatePaths
  {
    var m := config.ModuleName;
    map[
      "app/app.go" := TemplateText(AppTemplate(m), body),
      "cmd/main.go" := TemplateText(MainTemplate(m), body),
      "app/gateway/gateway.go" := TemplateText(GatewayTemplate, body),
      "app/rpc/server.go" := TemplateText(ServerTemplate(m), body),
      "Dockerfile" := TemplateText(Dockerfile(config.GoVersion), body),
      "README.md" := TemplateText(Readme(m, config.GoVersion), body),
      "sqlc.yaml" := TemplateText(SqlcConfig, body),
      "makefile" := TemplateText(Makefile, body),
      "buf.yaml" := TemplateText(BufConfig, body),
      ".env" := TemplateText(EnvTemplate, body),
      "internal/repo/store.go" := TemplateText(StoreStruct, body),
      "pkg/utils/convert/convertor.go" := TemplateText(CommonConvertor, body),
      "pkg/utils/env/envs.go" := TemplateText(EnvUtils, body)]
  }

  /** The thirteen paths of the project files, in the order the source lists them. */
  const TemplatePaths: seq<string> := [
    "app/app.go", "cmd/main.go", "app/gateway/gateway.go", "app/rpc/server.go", "Dockerfile",
    "README.md", "sqlc.yaml", "makefile", "buf.yaml", ".env", "internal/repo/store.go",
    "pkg/utils/convert/convertor.go", "pkg/utils/env/envs.go"]

  /** No name occurs twice, as no key of a map does. */
  predicate DistinctNames(order: seq<string>) {
    forall i, j :: 0 <= i < j < |order| ==> order[i] != order[j]
  }

  /** order visits every key of m exactly once, as a range loop over a Go map does. */
  predicate Enumerates(order: seq<string>, m: map<string, string>) {
    (forall p :: p in order ==> p in m) && (forall p :: p in m ==> p in order) && DistinctNames(order)
  }

  /** The paths of the project files are thirteen distinct names. */
  lemma TemplatePathsDistinct()
    ensures |TemplatePaths| == 13 && DistinctNames(TemplatePaths)
  {
  }

  /** The .env written by init holds the fixed text of generateEnvFile. */
  lemma EnvTemplateIsFixed(config: ProjectConfig, body: Template -> string)
    ensures ".env" in GetFileTemplates(config, body) && GetFileTemplates(config, body)[".env"] == EnvFileText
  {
  }

  /** The templates are thirteen files with distinct paths. */
  lemma ThirteenProjectFiles(config: ProjectConfig, body: Template -> string)
    ensures Enumerates(TemplatePaths, GetFileTemplates(config, body))
    ensures |GetFileTemplates(config, body)| == 13
  {
    TemplatePathsDistinct();
    var m := GetFileTemplates(config, body);
    assert m.Keys == set p | p in TemplatePaths;
    DistinctCardinality(TemplatePaths);
  }

  /** A sequence without repeats has as many distinct elements as it is long. */
  lemma {:induction false} DistinctCardinality(xs: seq<string>)
    requires forall i, j :: 0 <= i < j < |xs| ==> xs[i] != xs[j]
    ensures |set p | p in xs| == |xs|
  {
    if xs != [] {
      var xs' := xs[1..];
      DistinctCardinality(xs');
      assert (set p | p in xs) == {xs[0]} + (set p | p in xs');
      assert xs[0] !in (set p | p in xs');
    }
  }

  /**
   * The store and outcome of the range loop of createProjectFiles when it visits the keys
   * in order: each file is created under base unless its path exists, and the first failure
   * ends the loop.
   */
  function ProjectFilesOf(files: map<string, string>, dirs: set<string>, base: string,
                          templates: map<string, string>, order: seq<string>): (map<string, string>, Outcome)
    requires forall p :: p in order ==> p in templates
    decreases |order|
  {
    if order == [] then (files, Done)
    else
      var c := CreatedFile(files, dirs, PathJoin(base, order[0]), templates[order[0]]);
      if c.1.Failed? then c else ProjectFilesOf(c.0, dirs, base, templates, order[1..])
  }

  /** The range loop of createProjectFiles, over the keys of templates in the given order. */
  method CreateFiles(files: map<string, string>, dirs: set<string>, base: string,
                     templates: map<string, string>, order: seq<string>)
    returns (files': map<string, string>, r: Outcome)
    requires forall p :: p in order ==> p in templates
    ensures (files', r) == ProjectFilesOf(files, dirs, base, templates, order)
  {
    files' := files;
    var i := 0;
    while i < |order|
      invariant i <= |order|
      invariant ProjectFilesOf(files', dirs, base, templates, order[i..]) == ProjectFilesOf(files, dirs, base, templates, order)
    {
      assert order[i] in order;
      assert order[i..][1..] == order[i + 1..];
      var fullPath := PathJoin(base, order[i]);
      var outcome;
      files', outcome := CreateFileWithContent(files', dirs, fullPath, templates[order[i]]);
      if outcome.Failed? {
        return files', outcome;
      }
      i := i + 1;
    }
    return files', Done;
  }

  /**
   * createProjectFiles: the thirteen templates, created under the project path in the
   * (unspecified) order in which the range loop visits the map.
   */
  method CreateProjectFiles(files: map<string, string>, dirs: set<string>, config: ProjectConfig,
                            body: Template -> string, order: seq<string>)
    returns (files': map<string, string>, r: Outcome)
    requires Enumerates(order, GetFileTemplates(config, body))
    ensures (files', r) == ProjectFilesOf(files, dirs, config.ProjectPath, GetFileTemplates(config, body), order)
  {
    files', r := CreateFiles(files, dirs, config.ProjectPath, GetFileTemplates(config, body), order);
  }

  /** The path a file lands at: ok when it can be left alone or created. */
  predicate Creatable(files: map<string, string>, dirs: set<string>, q: string) {
    Exists(files, dirs, q) || CanCreate(dirs, q)
  }

  /** Creating the first file changes nothing the later files of the loop depend on. */
  lemma FirstFileLeavesRest(files: map<string, string>, dirs: set<string>, base: string,
                            templates: map<string, string>, order: seq<string>)
    requires forall p :: p in order ==> p in templates
    requires |order| > 0 && DistinctNames(order)
    ensures var files' := CreatedFile(files, dirs, PathJoin(base, order[0]), templates[order[0]]).0;
      forall i :: 1 <= i < |order| ==>
        PathJoin(base, order[i]) != PathJoin(base, order[0])
        && (Exists(files', dirs, PathJoin(base, order[i])) <==> Exists(files, dirs, PathJoin(base, order[i])))
  {
    forall i | 1 <= i < |order|
      ensures PathJoin(base, order[i]) != PathJoin(base, order[0])
    {
      PathJoinInjective(base, order[i], order[0]);
    }
  }

  /** Over distinct names, the loop succeeds exactly when every path exists or can be created. */
  lemma {:induction false} ProjectFilesOutcome(files: map<string, string>, dirs: set<string>, base: string,
                                               templates: map<string, string>, order: seq<string>)
    requires forall p :: p in order ==> p in templates
    requires DistinctNames(order)
    ensures ProjectFilesOf(files, dirs, base, templates, order).1.Done?
        <==> forall i :: 0 <= i < |order| ==> Creatable(files, dirs, PathJoin(base, order[i]))
    decreases |order|
  {
    if order != [] {
      var c := CreatedFile(files, dirs, PathJoin(base, order[0]), templates[order[0]]);
      if c.1.Done? {
        var rest := order[1..];
        assert forall i :: 0 <= i < |rest| ==> rest[i] == order[i + 1];
        FirstFileLeavesRest(files, dirs, base, templates, order);
        ProjectFilesOutcome(c.0, dirs, base, templates, rest);
      }
    }
  }

  /** Every file that existed before the loop is still there with its content. */
  lemma {:induction false} ProjectFilesKeepFiles(files: map<string, string>, dirs: set<string>, base: string,
                                                 templates: map<string, string>, order: seq<string>)
    requires forall p :: p in order ==> p in templates
    ensures var files' := ProjectFilesOf(files, dirs, base, templates, order).0;
      forall q :: q in files ==> q in files' && files'[q] == files[q]
    decreases |order|
  {
    if order != [] {
      var c := CreatedFile(files, dirs, PathJoin(base, order[0]), templates[order[0]]);
      if c.1.Done? {
        assert forall q :: q in files ==> q in c.0 && c.0[q] == files[q];
        ProjectFilesKeepFiles(c.0, dirs, base, templates, order[1..]);
      }
    }
  }

  /** After a successful loop, each path that did not exist holds its template. */
  lemma {:induction false} ProjectFilesWriteMissing(files: map<string, string>, dirs: set<string>, base: string,
                                                    templates: map<string, string>, order: seq<string>)
    requires forall p :: p in order ==> p in templates
    requires DistinctNames(order)
    ensures var (files', r) := ProjectFilesOf(files, dirs, base, templates, order);
      r.Done? ==> forall i :: 0 <= i < |order| && !Exists(files, dirs, PathJoin(base, order[i])) ==>
        PathJoin(base, order[i]) in files' && files'[PathJoin(base, order[i])] == templates[order[i]]
    decreases |order|
  {
    if order != [] {
      var c := CreatedFile(files, dirs, PathJoin(base, order[0]), templates[order[0]]);
      if c.1.Done? {
        var rest := order[1..];
        assert forall i :: 0 <= i < |rest| ==> rest[i] == order[i + 1];
        FirstFileLeavesRest(files, dirs, base, templates, order);
        ProjectFilesWriteMissing(c.0, dirs, base, templates, rest);
        ProjectFilesKeepFiles(c.0, dirs, base, templates, rest);
      }
    }
  }

  /** The loop adds no file but listed paths that did not exist, each holding its template. */
  lemma {:induction false} ProjectFilesAddOnlyMissing(files: map<string, string>, dirs: set<string>, base: string,
                                                      templates: map<string, string>, order: seq<string>)
    requires forall p :: p in order ==> p in templates
    ensures var files' := ProjectFilesOf(files, dirs, base, templates, order).0;
      forall q :: q in files' && q !in files ==>
        exists i :: 0 <= i < |order| && q == PathJoin(base, order[i]) && !Exists(files, dirs, q)
                    && files'[q] == templates[order[i]]
    decreases |order|
  {
    if order != [] {
      var q0 := PathJoin(base, order[0]);
      var c := CreatedFile(files, dirs, q0, templates[order[0]]);
      if c.1.Done? {
        var rest := order[1..];
        ProjectFilesAddOnlyMissing(c.0, dirs, base, templates, rest);
        ProjectFilesKeepFiles(c.0, dirs, base, templates, rest);
        var files' := ProjectFilesOf(c.0, dirs, base, templates, rest).0;
        forall q | q in files' && q !in files
          ensures exists i :: 0 <= i < |order| && q == PathJoin(base, order[i]) && !Exists(files, dirs, q)
                              && files'[q] == templates[order[i]]
        {
          if q in c.0 {
            assert q == PathJoin(base, order[0]) && !Exists(files, dirs, q) && files'[q] == templates[order[0]];
          } else {
            var i :| 0 <= i < |rest| && q == PathJoin(base, rest[i]) && !Exists(c.0, dirs, q)
                     && files'[q] == templates[rest[i]];
            assert q == PathJoin(base, order[i + 1]);
          }
        }
      }
    }
  }

  /**
   * The result does not depend on the order in which the range loop visits the map: any
   * two visiting orders both succeed or both fail, and on success give the same store.
   */
  lemma ProjectFilesOrderIndependent(files: map<string, string>, dirs: set<string>, base: string,
                                     templates: map<string, string>, order1: seq<string>, order2: seq<string>)
    requires Enumerates(order1, templates) && Enumerates(order2, templates)
    ensures ProjectFilesOf(files, dirs, base, templates, order1).1.Done? == ProjectFilesOf(files, dirs, base, templates, order2).1.Done?
    ensures ProjectFilesOf(files, dirs, base, templates, order1).1.Done? ==>
      ProjectFilesOf(files, dirs, base, templates, order1) == ProjectFilesOf(files, dirs, base, templates, order2)
  {
    ProjectFilesOutcome(files, dirs, base, templates, order1);
    ProjectFilesOutcome(files, dirs, base, templates, order2);
    SameCreatable(files, dirs, base, order1, order2);
    if ProjectFilesOf(files, dirs, base, templates, order1).1.Done? {
      SameStore(files, dirs, base, templates, order1, order2);
    }
  }

  /** Two visiting orders that both succeed leave the same store. */
  lemma SameStore(files: map<string, string>, dirs: set<string>, base: string,
                  templates: map<string, string>, order1: seq<string>, order2: seq<string>)
    requires Enumerates(order1, templates) && Enumerates(order2, templates)
    requires ProjectFilesOf(files, dirs, base, templates, order1).1.Done?
    requires ProjectFilesOf(files, dirs, base, templates, order2).1.Done?
    ensures ProjectFilesOf(files, dirs, base, templates, order1).0 == ProjectFilesOf(files, dirs, base, templates, order2).0
  {
    StoreIncluded(files, dirs, base, templates, order1, order2);
    StoreIncluded(files, dirs, base, templates, order2, order1);
  }

  /** Every file after one visiting order is there, alike, after another that succeeds. */
  lemma StoreIncluded(files: map<string, string>, dirs: set<string>, base: string,
                      templates: map<string, string>, order1: seq<string>, order2: seq<string>)
    requires Enumerates(order1, templates) && Enumerates(order2, templates)
    requires ProjectFilesOf(files, dirs, base, templates, order2).1.Done?
    ensures var f1 := ProjectFilesOf(files, dirs, base, templates, order1).0;
      var f2 := ProjectFilesOf(files, dirs, base, templates, order2).0;
      forall q :: q in f1 ==> q in f2 && f2[q] == f1[q]
  {
    var f1 := ProjectFilesOf(files, dirs, base, templates, order1).0;
    var f2 := ProjectFilesOf(files, dirs, base, templates, order2).0;
    ProjectFilesKeepFiles(files, dirs, base, templates, order1);
    ProjectFilesKeepFiles(files, dirs, base, templates, order2);
    ProjectFilesAddOnlyMissing(files, dirs, base, templates, order1);
    ProjectFilesWriteMissing(files, dirs, base, templates, order2);
    forall q | q in f1 && q !in files
      ensures q in f2 && f2[q] == f1[q]
    {
      var i :| 0 <= i < |order1| && q == PathJoin(base, order1[i]) && !Exists(files, dirs, q)
               && f1[q] == templates[order1[i]];
      var j := IndexIn(order2, order1[i]);
    }
  }

  /** Two orders over the same keys ask the same of every path. */
  lemma SameCreatable(files: map<string, string>, dirs: set<string>, base: string, order1: seq<string>, order2: seq<string>)
    requires forall p :: p in order1 <==> p in order2
    ensures (forall i :: 0 <= i < |order1| ==> Creatable(files, dirs, PathJoin(base, order1[i])))
        <==> (forall j :: 0 <= j < |order2| ==> Creatable(files, dirs, PathJoin(base, order2[j])))
  {
    if forall i :: 0 <= i < |order1| ==> Creatable(files, dirs, PathJoin(base, order1[i])) {
      forall j | 0 <= j < |order2|
        ensures Creatable(files, dirs, PathJoin(base, order2[j]))
      {
        var i := IndexIn(order1, order2[j]);
      }
    }
    if forall j :: 0 <= j < |order2| ==> Creatable(files, dirs, PathJoin(base, order2[j])) {
      forall i | 0 <= i < |order1|
        ensures Creatable(files, dirs, PathJoin(base, order1[i]))
      {
        var j := IndexIn(order2, order1[i]);
      }
    }
  }

  /** An index at which p occurs in xs. */
  function IndexIn(xs: seq<string>, p: string): (i: nat)
    requires p in xs
    ensures i < |xs| && xs[i] == p
  {
    if xs[0] == p then 0 else 1 + IndexIn(xs[1..], p)
  }

  /**
   * The .env that init writes sets no database key, so migrate run right after init fails
   * with MissingDbConfig until the user fills it in.
   */
  lemma FreshEnvLacksDatabaseConfig()
    ensures LoadDBConfigOf(EnvLines([EnvFileText])) == Err(MissingDbConfig)
  {
    assert SetsNothing(EnvFileText) by {
      assert HasPrefix(EnvFileText, "#");
    }
    SkippedLineDropsOut([], EnvFileText, []);
    assert [] + [EnvFileText] + [] == [EnvFileText];
  }

  // ---------------------------------------------------------------------------
  // getGoVersion

  const DefaultGoVersion := "1.21"

  /** The pattern go(\d+\.\d+) matches s at i: "go", digits, '.', digits. */
  predicate VersionAt(s: string, i: nat) {
    i + 2 <= |s| && s[i] == 'g' && s[i + 1] == 'o'
    && var a := DigitRun(s[i + 2..]);
       a > 0 && i + 2 + a < |s| && s[i + 2 + a] == '.' && DigitRun(s[i + 3 + a..]) > 0
  }

  /**
   * The capture of the match at i: the digit runs are as long as they go (the pattern's
   * \d+ are greedy), so the capture is digits, one '.', digits.
   */
  function CaptureAt(s: string, i: nat): (v: string)
    requires VersionAt(s, i)
    ensures exists a :: 0 < a < |v| - 1 && v[a] == '.' && forall k :: 0 <= k < |v| && k != a ==> IsDigit(v[k])
  {
    var a := DigitRun(s[i + 2..]);
    var b := DigitRun(s[i + 3 + a..]);
    var v := s[i + 2..i + 3 + a + b];
    assert forall k :: 0 <= k < a ==> v[k] == s[i + 2..][k];
    assert forall k :: a < k < |v| ==> v[k] == s[i + 3 + a..][k - a - 1];
    assert v[a] == '.';
    v
  }

  /** The leftmost match at or after i, if any. */
  function FirstVersionFrom(s: string, i: nat): (j: Option<nat>)
    ensures j.Some? ==> i <= j.value && VersionAt(s, j.value) && forall k :: i <= k < j.value ==> !VersionAt(s, k)
    ensures j.None? ==> forall k :: i <= k < |s| ==> !VersionAt(s, k)
    decreases |s| - i
  {
    if i >= |s| then None
    else if VersionAt(s, i) then Some(i)
    else FirstVersionFrom(s, i + 1)
  }

  /**
   * getGoVersion: the capture of the leftmost match in the output of `go version`, or
   * "1.21" when the command fails or nothing matches.
   */
  function GetGoVersion(output: Option<string>): (v: string)
    ensures output.None? ==> v == DefaultGoVersion
    ensures output.Some? && (forall k :: 0 <= k < |output.value| ==> !VersionAt(output.value, k)) ==> v == DefaultGoVersion
    ensures output.Some? && VersionAt(output.value, 0) ==> v == CaptureAt(output.value, 0)
  {
    match output
    case None => DefaultGoVersion
    case Some(s) =>
      match FirstVersionFrom(s, 0)
      case None => DefaultGoVersion
      case Some(i) => CaptureAt(s, i)
  }

  /** When the leftmost match is at i, the version is its capture. */
  lemma GoVersionIsLeftmostCapture(s: string, i: nat)
    requires VersionAt(s, i) && forall k :: 0 <= k < i ==> !VersionAt(s, k)
    ensures GetGoVersion(Some(s)) == CaptureAt(s, i)
  {
    assert FirstVersionFrom(s, 0) == Some(i);
  }
}
