/**
 * The `coherencePof` task: it hands POF schema sources to a schema builder and
 * runs the portable-type instrumenter over the project's class directories.
 *
 * The schema builder, the class-file scanner and the instrumenter belong to the
 * Coherence libraries. Here the builder is the sequence of sources added to it,
 * a class-file source is the configuration it was given, and the instrumenter
 * is a call that may throw.
 */
module PofTask {
  import opened Wrappers
  import opened FileSystem

  // ----- schema sources ---------------------------------------------------

  /** Which classes a class-file source admits. */
  datatype TypeFilter = AllTypes | AnnotatedWithPortableType

  /** A root a class-file source scans: a directory of classes or a jar file. */
  datatype ClassRoot = ClassesDirectory(dir: Path) | JarFile(jar: Path) {
    function Location(): Path {
      if ClassesDirectory? then dir else jar
    }
  }

  /**
   * The configuration of a `ClassFileSchemaSource`. Its fluent `with...`
   * methods update the source and return it; here each returns the updated value.
   */
  datatype ClassFileSource = ClassFileSource(
    typeFilter: TypeFilter,
    missingPropertiesAsObject: bool,  // `withMissingPropertiesAsObject()`
    rejectsAllProperties: bool,       // `withPropertyFilter(fieldNode -> false)`
    roots: seq<ClassRoot>)
  {
    function WithTypeFilter(f: TypeFilter): ClassFileSource {
      this.(typeFilter := f)
    }

    function WithMissingPropertiesAsObject(): ClassFileSource {
      this.(missingPropertiesAsObject := true)
    }

    function WithPropertyFilterRejectingAll(): ClassFileSource {
      this.(rejectsAllProperties := true)
    }

    function WithClassesFromDirectory(dir: Path): ClassFileSource {
      this.(roots := roots + [ClassesDirectory(dir)])
    }

    function WithClassesFromJarFile(jar: Path): ClassFileSource {
      this.(roots := roots + [JarFile(jar)])
    }
  }

  /** `new ClassFileSchemaSource()`. */
  const NewClassFileSource := ClassFileSource(AllTypes, false, false, [])

  datatype SchemaSource = XmlSchemaSource(xml: Path) | ClassFileSchemaSource(source: ClassFileSource)

  /** The schema built from a sequence of sources; how the sources merge is the library's business. */
  datatype Schema = Schema(sources: seq<SchemaSource>)

  /** One call `PortableTypeGenerator.instrumentClasses(dir, schema, debug, logger)`. */
  datatype Invocation = Invocation(dir: Path, schema: Schema, debug: bool)

  /** How the task action ends: normally, or with the `RuntimeException` wrapping an `IOException` for `dir`. */
  datatype Outcome = Succeeded | Failed(dir: Path)

  // ----- diagnostics --------------------------------------------------------

  datatype Level = Lifecycle | Info | Warn | Error

  /** The lines the task writes to the Gradle logger. */
  datatype LogLine =
    | SettingUpConventions
    | StartExecuting
    | ConfiguredProperties(debug: bool, instrumentTestClasses: bool,
                           testClassesDirectory: Option<Path>, mainClassesDirectory: Option<Path>)
    | XmlSchemaSourceAdded(xml: Path)
    | NoSchemaXml(xml: Path)
    | ResourcesDirectoryMissing
    | ResourcesPropertyAbsent
    | SkippingTestClasses
    | SkippingMainClasses
    | AddingDependency(entry: Path)
    | DependencyMissing(entry: Path)
    | ResolvedDependencies(count: nat)
    | AddingClassesToSchema(root: Path)
    | RunningGenerator(dir: Path)

  function LevelOf(line: LogLine): Level {
    match line
    case StartExecuting | XmlSchemaSourceAdded(_) | ResolvedDependencies(_) | AddingClassesToSchema(_) => Lifecycle
    case SkippingTestClasses | SkippingMainClasses => Error
    case RunningGenerator(_) => Warn
    case _ => Info
  }

  // ----- task properties ----------------------------------------------------

  /** The values of the task's properties when the action runs. */
  datatype TaskSettings = TaskSettings(
    debug: bool,
    instrumentTestClasses: bool,
    testClassesDirectory: Option<Path>,
    testResourcesDirectory: Option<Path>,
    mainClassesDirectory: Option<Path>,
    mainResourcesDirectory: Option<Path>)

  /** The project's conventional output directories; a resources directory may be unknown. */
  datatype OutputDirs = OutputDirs(
    mainClasses: Path,
    testClasses: Path,
    mainResources: Option<Path>,
    testResources: Option<Path>)

  /** The property values the task's constructor sets as conventions. */
  function ConventionSettings(dirs: OutputDirs): TaskSettings {
    TaskSettings(false, false, Some(dirs.testClasses), dirs.testResources,
                 Some(dirs.mainClasses), dirs.mainResources)
  }

  // ----- the plan: what the task action does, as functions of its inputs ----

  /** `<dir>/META-INF/schema.xml`. */
  function SchemaXml(resourcesDir: Path): Path {
    resourcesDir.Child("META-INF").Child("schema.xml")
  }

  /** The sources `addSchemaSourceIfExists` adds for one resources directory. */
  function XmlSources(fs: FileSystem, resourcesDir: Option<Path>): seq<SchemaSource> {
    if resourcesDir.Some? && Exists(fs, resourcesDir.value) && Exists(fs, SchemaXml(resourcesDir.value))
    then [XmlSchemaSource(SchemaXml(resourcesDir.value))]
    else []
  }

  /** The line `addSchemaSourceIfExists` logs for one resources directory. */
  function XmlLog(fs: FileSystem, resourcesDir: Option<Path>): seq<LogLine> {
    match resourcesDir
    case None => [ResourcesPropertyAbsent]
    case Some(dir) =>
      if !Exists(fs, dir) then [ResourcesDirectoryMissing]
      else if Exists(fs, SchemaXml(dir)) then [XmlSchemaSourceAdded(SchemaXml(dir))]
      else [NoSchemaXml(SchemaXml(dir))]
  }

  /** A classes-directory property that is present and names an existing path. */
  predicate Qualifies(fs: FileSystem, dir: Option<Path>) {
    dir.Some? && Exists(fs, dir.value)
  }

  /** The class directories to instrument: test first, then main. */
  function ClassesDirectories(fs: FileSystem, s: TaskSettings): seq<Path> {
    (if Qualifies(fs, s.testClassesDirectory) then [s.testClassesDirectory.value] else [])
    + (if Qualifies(fs, s.mainClassesDirectory) then [s.mainClassesDirectory.value] else [])
  }

  /** The error line logged when a classes directory does not qualify. */
  function SkipLog(fs: FileSystem, dir: Option<Path>, line: LogLine): seq<LogLine> {
    if Qualifies(fs, dir) then [] else [line]
  }

  function DirectoryRoots(dirs: seq<Path>): (r: seq<ClassRoot>)
    ensures |r| == |dirs|
  {
    seq(|dirs|, i requires 0 <= i < |dirs| => ClassesDirectory(dirs[i]))
  }

  function JarRoots(jars: seq<Path>): (r: seq<ClassRoot>)
    ensures |r| == |jars|
  {
    seq(|jars|, i requires 0 <= i < |jars| => JarFile(jars[i]))
  }

  /** The project source: portable types from every class directory, missing properties typed as `Object`. */
  function ProjectSource(dirs: seq<Path>): ClassFileSource {
    NewClassFileSource.WithTypeFilter(AnnotatedWithPortableType).WithMissingPropertiesAsObject()
      .(roots := DirectoryRoots(dirs))
  }

  /** The dependency source: portable types, no properties, from the directories and then the jars. */
  function DependencySource(fs: FileSystem, deps: seq<Path>): ClassFileSource {
    NewClassFileSource.WithTypeFilter(AnnotatedWithPortableType).WithPropertyFilterRejectingAll()
      .(roots := DirectoryRoots(Select(fs, IsDir, deps)) + JarRoots(Select(fs, IsJarFile, deps)))
  }

  /** The lines `resolveDependencies` logs for each classpath entry, in order. */
  function EntryLog(fs: FileSystem, classpath: seq<Path>): seq<LogLine> {
    if classpath == [] then []
    else
      var last := classpath[|classpath| - 1];
      EntryLog(fs, classpath[..|classpath| - 1]) + [AddingDependency(last)]
      + (if Exists(fs, last) then [] else [DependencyMissing(last)])
  }

  /** Everything `resolveDependencies` logs: the entries' lines, then the count of entries that exist. */
  function ResolveLog(fs: FileSystem, classpath: seq<Path>): seq<LogLine> {
    EntryLog(fs, classpath) + [ResolvedDependencies(|Select(fs, Present, classpath)|)]
  }

  function AddingLog(roots: seq<Path>): (r: seq<LogLine>)
    ensures |r| == |roots|
  {
    seq(|roots|, i requires 0 <= i < |roots| => AddingClassesToSchema(roots[i]))
  }

  lemma SelectStep(fs: FileSystem, t: FileTest, ps: seq<Path>, i: nat)
    requires i < |ps|
    ensures Select(fs, t, ps[..i + 1]) == Select(fs, t, ps[..i]) + (if Holds(fs, t, ps[i]) then [ps[i]] else [])
  {
    assert ps[..i + 1][..i] == ps[..i];
  }

  /** The roots and log lines a pass over `ps` has produced after `i + 1` entries, from those after `i`. */
  lemma PassStep(fs: FileSystem, t: FileTest, ps: seq<Path>, i: nat, base: seq<ClassRoot>, before: seq<LogLine>)
    requires i < |ps|
    ensures var done, next := Select(fs, t, ps[..i]), Select(fs, t, ps[..i + 1]);
      if Holds(fs, t, ps[i]) then
        && base + DirectoryRoots(next) == base + DirectoryRoots(done) + [ClassesDirectory(ps[i])]
        && base + JarRoots(next) == base + JarRoots(done) + [JarFile(ps[i])]
        && before + AddingLog(next) == before + AddingLog(done) + [AddingClassesToSchema(ps[i])]
      else
        && DirectoryRoots(next) == DirectoryRoots(done)
        && JarRoots(next) == JarRoots(done)
        && AddingLog(next) == AddingLog(done)
  {
    SelectStep(fs, t, ps, i);
    var done := Select(fs, t, ps[..i]);
    RootsStep(done, ps[i]);
    Assoc(base, DirectoryRoots(done), [ClassesDirectory(ps[i])]);
    Assoc(base, JarRoots(done), [JarFile(ps[i])]);
    Assoc(before, AddingLog(done), [AddingClassesToSchema(ps[i])]);
  }

  /** The selection and the log of a pass over `ps` after `i + 1` entries, from those after `i`. */
  lemma EntryStep(fs: FileSystem, ps: seq<Path>, i: nat, before: seq<LogLine>)
    requires i < |ps|
    ensures Select(fs, Present, ps[..i + 1])
            == Select(fs, Present, ps[..i]) + (if Exists(fs, ps[i]) then [ps[i]] else [])
    ensures before + EntryLog(fs, ps[..i + 1])
            == before + EntryLog(fs, ps[..i]) + [AddingDependency(ps[i])]
               + (if Exists(fs, ps[i]) then [] else [DependencyMissing(ps[i])])
  {
    assert ps[..i + 1][..i] == ps[..i];
    var entries := EntryLog(fs, ps[..i]);
    Assoc(before, entries, [AddingDependency(ps[i])]);
    Assoc(before, entries + [AddingDependency(ps[i])], if Exists(fs, ps[i]) then [] else [DependencyMissing(ps[i])]);
  }

  lemma RootsStep(ps: seq<Path>, p: Path)
    ensures DirectoryRoots(ps + [p]) == DirectoryRoots(ps) + [ClassesDirectory(p)]
    ensures JarRoots(ps + [p]) == JarRoots(ps) + [JarFile(p)]
    ensures AddingLog(ps + [p]) == AddingLog(ps) + [AddingClassesToSchema(p)]
  {
  }

  /** The index of the first directory on which the instrumenter throws, or `|dirs|` if it never does. */
  function FirstFailure(dirs: seq<Path>, schema: Schema, debug: bool, throws: Invocation -> bool): (k: nat)
    ensures k <= |dirs|
    ensures forall j :: 0 <= j < k ==> !throws(Invocation(dirs[j], schema, debug))
    ensures k < |dirs| ==> throws(Invocation(dirs[k], schema, debug))
  {
    if dirs == [] then 0
    else if throws(Invocation(dirs[0], schema, debug)) then 0
    else 1 + FirstFailure(dirs[1..], schema, debug, throws)
  }

  function Invocations(dirs: seq<Path>, schema: Schema, debug: bool): (r: seq<Invocation>)
    ensures |r| == |dirs|
  {
    seq(|dirs|, i requires 0 <= i < |dirs| => Invocation(dirs[i], schema, debug))
  }

  /** The instrumenter calls made over `dirs` and how they end: the first failure stops the run. */
  function Run(dirs: seq<Path>, schema: Schema, debug: bool, throws: Invocation -> bool): (seq<Invocation>, Outcome) {
    var k := FirstFailure(dirs, schema, debug, throws);
    if k < |dirs| then (Invocations(dirs[..k + 1], schema, debug), Failed(dirs[k]))
    else (Invocations(dirs, schema, debug), Succeeded)
  }

  /** The line logged before each instrumenter call. */
  function RunLog(calls: seq<Invocation>): (r: seq<LogLine>)
    ensures |r| == |calls|
  {
    seq(|calls|, i requires 0 <= i < |calls| => RunningGenerator(calls[i].dir))
  }

  /** What one run of the task action hands to the libraries, and how it ends. */
  datatype PofPlan = PofPlan(
    sources: seq<SchemaSource>,  // added to the schema builder, in order
    worklist: seq<Path>,         // directories to instrument, in order
    dependencies: seq<Path>,     // resolved classpath entries
    calls: seq<Invocation>,      // instrumenter calls made, in order
    outcome: Outcome)

  /** The sources added to the builder once the worklist and the resolved dependencies are known. */
  function PlannedSources(fs: FileSystem, s: TaskSettings, work: seq<Path>, deps: seq<Path>): seq<SchemaSource> {
    XmlSources(fs, s.testResourcesDirectory) + XmlSources(fs, s.mainResourcesDirectory)
    + if work == [] then []
      else [ClassFileSchemaSource(DependencySource(fs, deps)), ClassFileSchemaSource(ProjectSource(work))]
  }

  /** What one run of `instrumentPofClasses` does with the task's properties `s`. */
  function PlanTask(fs: FileSystem, s: TaskSettings, classpath: seq<Path>, throws: Invocation -> bool): PofPlan
  {
    var work := ClassesDirectories(fs, s);
    var deps := if work == [] then [] else Select(fs, Present, classpath);
    var sources := PlannedSources(fs, s, work, deps);
    var run := if work == [] then ([], Succeeded) else Run(work, Schema(sources), s.debug, throws);
    PofPlan(sources, work, deps, run.0, run.1)
  }

  function HeaderLog(s: TaskSettings): seq<LogLine> {
    [StartExecuting,
     ConfiguredProperties(s.debug, s.instrumentTestClasses, s.testClassesDirectory, s.mainClassesDirectory)]
  }

  /** What is logged after the worklist is known to be non-empty: the classpath, the dependency roots, the calls. */
  function ActionLog(fs: FileSystem, classpath: seq<Path>, deps: seq<Path>, calls: seq<Invocation>): seq<LogLine> {
    ResolveLog(fs, classpath)
    + AddingLog(Select(fs, IsDir, deps)) + AddingLog(Select(fs, IsJarFile, deps))
    + RunLog(calls)
  }

  function InstrumentLog(fs: FileSystem, classpath: seq<Path>, plan: PofPlan): seq<LogLine> {
    if plan.worklist == [] then [] else ActionLog(fs, classpath, plan.dependencies, plan.calls)
  }

  /** What is logged before the classpath is consulted. */
  function PreludeLog(fs: FileSystem, s: TaskSettings): seq<LogLine> {
    HeaderLog(s) + XmlLog(fs, s.testResourcesDirectory) + XmlLog(fs, s.mainResourcesDirectory)
    + (SkipLog(fs, s.testClassesDirectory, SkippingTestClasses)
       + SkipLog(fs, s.mainClassesDirectory, SkippingMainClasses))
  }

  /** Everything one run of the task action logs. */
  function TaskLog(fs: FileSystem, s: TaskSettings, classpath: seq<Path>, throws: Invocation -> bool): seq<LogLine>
  {
    PreludeLog(fs, s) + InstrumentLog(fs, classpath, PlanTask(fs, s, classpath, throws))
  }

  /** `PlanTask` unfolded into the pieces the task action computes one after the other. */
  lemma PlanTaskShape(fs: FileSystem, s: TaskSettings, classpath: seq<Path>, throws: Invocation -> bool)
    ensures var plan := PlanTask(fs, s, classpath, throws);
      var work := ClassesDirectories(fs, s);
      var xml := XmlSources(fs, s.testResourcesDirectory) + XmlSources(fs, s.mainResourcesDirectory);
      && plan.worklist == work
      && (work == [] ==> plan.sources == xml && plan.calls == [] && plan.outcome == Succeeded
                         && InstrumentLog(fs, classpath, plan) == [])
      && (work != [] ==>
            && plan.dependencies == Select(fs, Present, classpath)
            && plan.sources == xml + [ClassFileSchemaSource(DependencySource(fs, plan.dependencies)),
                                      ClassFileSchemaSource(ProjectSource(work))]
            && (plan.calls, plan.outcome) == Run(work, Schema(plan.sources), s.debug, throws)
            && InstrumentLog(fs, classpath, plan) == ActionLog(fs, classpath, plan.dependencies, plan.calls))
  {
  }

  lemma Assoc<T>(a: seq<T>, b: seq<T>, c: seq<T>)
    ensures (a + b) + c == a + (b + c)
  {
  }

  /**
   * The project source and the worklist: when there is any classes directory, a
   * source admitting portable types, with missing properties typed as `Object`,
   * scanning every directory; each directory also joins the worklist.
   */
  method ScanClassesDirectories(classesDirectories: seq<Path>)
    returns (source: ClassFileSource, listInstrument: seq<Path>)
    ensures listInstrument == classesDirectories
    ensures source == if classesDirectories == [] then NewClassFileSource else ProjectSource(classesDirectories)
  {
    source := NewClassFileSource;
    listInstrument := [];
    if classesDirectories != [] {
      source := source.WithTypeFilter(AnnotatedWithPortableType).WithMissingPropertiesAsObject();
      ghost var configured := source;
      for i := 0 to |classesDirectories|
        invariant listInstrument == classesDirectories[..i]
        invariant source == configured.(roots := DirectoryRoots(classesDirectories[..i]))
      {
        source := source.WithClassesFromDirectory(classesDirectories[i]);
        listInstrument := listInstrument + [classesDirectories[i]];
        assert classesDirectories[..i + 1] == classesDirectories[..i] + [classesDirectories[i]];
        RootsStep(classesDirectories[..i], classesDirectories[i]);
      }
      assert classesDirectories[..|classesDirectories|] == classesDirectories;
    }
  }

  // ----- the objects --------------------------------------------------------

  /** `SchemaBuilder`: collects schema sources; `build()` makes the schema from them. */
  class SchemaBuilder {
    var sources: seq<SchemaSource>

    constructor ()
      ensures sources == []
    {
      sources := [];
    }

    method AddSchemaSource(source: SchemaSource)
      modifies this
      ensures sources == old(sources) + [source]
    {
      sources := sources + [source];
    }

    function Build(): Schema
      reads this
    {
      Schema(sources)
    }
  }

  /** The `coherencePof` task object: its properties, its `dependsOn` set and its logger. */
  class CoherenceTask {
    var debug: bool
    var instrumentTestClasses: bool
    var testClassesDirectory: Option<Path>
    var testResourcesDirectory: Option<Path>
    var mainClassesDirectory: Option<Path>
    var mainResourcesDirectory: Option<Path>
    var dependsOn: set<string>
    var log: seq<LogLine>

    function Settings(): TaskSettings
      reads this`debug, this`instrumentTestClasses, this`testClassesDirectory, this`testResourcesDirectory,
            this`mainClassesDirectory, this`mainResourcesDirectory
    {
      TaskSettings(debug, instrumentTestClasses, testClassesDirectory, testResourcesDirectory,
                   mainClassesDirectory, mainResourcesDirectory)
    }

    /** Sets the property conventions: no debug, no test instrumentation, the project's output directories. */
    constructor (dirs: OutputDirs)
      ensures Settings() == ConventionSettings(dirs)
      ensures dependsOn == {} && log == [SettingUpConventions]
    {
      log := [SettingUpConventions];
      debug, instrumentTestClasses := false, false;
      mainClassesDirectory := Some(dirs.mainClasses);
      testClassesDirectory := Some(dirs.testClasses);
      mainResourcesDirectory := dirs.mainResources;
      testResourcesDirectory := dirs.testResources;
      dependsOn := {};
    }

    /** The task action `instrumentPofClasses`. */
    method InstrumentPofClasses(fs: FileSystem, runtimeClasspath: seq<Path>, throws: Invocation -> bool)
      returns (sources: seq<SchemaSource>, calls: seq<Invocation>, outcome: Outcome)
      modifies this`log
      ensures sources == PlanTask(fs, Settings(), runtimeClasspath, throws).sources
      ensures calls == PlanTask(fs, Settings(), runtimeClasspath, throws).calls
      ensures outcome == PlanTask(fs, Settings(), runtimeClasspath, throws).outcome
      ensures log == old(log) + TaskLog(fs, Settings(), runtimeClasspath, throws)
    {
      ghost var settings := Settings();
      ghost var plan := PlanTask(fs, settings, runtimeClasspath, throws);
      PlanTaskShape(fs, settings, runtimeClasspath, throws);
      var schemaBuilder, classesDirectories := Prepare(fs);
      var source, listInstrument := ScanClassesDirectories(classesDirectories);
      calls, outcome := [], Succeeded;
      if listInstrument != [] {
        calls, outcome := InstrumentClasses(fs, runtimeClasspath, throws, schemaBuilder, listInstrument, source);
      }
      sources := schemaBuilder.sources;
      assert Settings() == settings;
      Assoc(old(log), PreludeLog(fs, settings), InstrumentLog(fs, runtimeClasspath, plan));
    }

    /** The part of the action before the classpath is consulted: header, XML sources, classes directories. */
    method Prepare(fs: FileSystem) returns (schemaBuilder: SchemaBuilder, classesDirectories: seq<Path>)
      modifies this`log
      ensures fresh(schemaBuilder)
      ensures schemaBuilder.sources == XmlSources(fs, testResourcesDirectory) + XmlSources(fs, mainResourcesDirectory)
      ensures classesDirectories == ClassesDirectories(fs, Settings())
      ensures log == old(log) + PreludeLog(fs, Settings())
    {
      log := log + HeaderLog(Settings());
      ghost var expected := HeaderLog(Settings());
      schemaBuilder := new SchemaBuilder();
      AddSchemaSourceIfExists(schemaBuilder, fs, testResourcesDirectory);
      Assoc(old(log), expected, XmlLog(fs, testResourcesDirectory));
      expected := expected + XmlLog(fs, testResourcesDirectory);
      AddSchemaSourceIfExists(schemaBuilder, fs, mainResourcesDirectory);
      Assoc(old(log), expected, XmlLog(fs, mainResourcesDirectory));
      expected := expected + XmlLog(fs, mainResourcesDirectory);
      classesDirectories := ExistingClassesDirectories(fs);
      Assoc(old(log), expected, SkipLog(fs, testClassesDirectory, SkippingTestClasses)
                                + SkipLog(fs, mainClassesDirectory, SkippingMainClasses));
    }

    /** The part of the action that runs once there is a classes directory: dependencies, schema, instrumenter. */
    method InstrumentClasses(fs: FileSystem, runtimeClasspath: seq<Path>, throws: Invocation -> bool,
                             schemaBuilder: SchemaBuilder, listInstrument: seq<Path>, source: ClassFileSource)
      returns (calls: seq<Invocation>, outcome: Outcome)
      modifies this`log, schemaBuilder
      ensures schemaBuilder.sources == old(schemaBuilder.sources)
        + [ClassFileSchemaSource(DependencySource(fs, Select(fs, Present, runtimeClasspath))),
           ClassFileSchemaSource(source)]
      ensures (calls, outcome) == Run(listInstrument, Schema(schemaBuilder.sources), debug, throws)
      ensures log == old(log) + ActionLog(fs, runtimeClasspath, Select(fs, Present, runtimeClasspath), calls)
    {
      var listDeps := ResolveDependencies(fs, runtimeClasspath);
      var dependencies := BuildDependencySource(fs, listDeps);
      schemaBuilder.AddSchemaSource(ClassFileSchemaSource(dependencies));
      schemaBuilder.AddSchemaSource(ClassFileSchemaSource(source));
      var schema := schemaBuilder.Build();
      calls, outcome := RunInstrumenter(listInstrument, schema, throws);
      ghost var r := ResolveLog(fs, runtimeClasspath);
      ghost var a := AddingLog(Select(fs, IsDir, listDeps));
      ghost var b := AddingLog(Select(fs, IsJarFile, listDeps));
      Assoc(old(log), r, a);
      Assoc(old(log), r + a, b);
      Assoc(old(log), r + a + b, RunLog(calls));
    }

    /** The classes directories that are present and exist, test first; an error line for each that is not. */
    method ExistingClassesDirectories(fs: FileSystem) returns (classesDirectories: seq<Path>)
      modifies this`log
      ensures classesDirectories == ClassesDirectories(fs, Settings())
      ensures log == old(log) + (SkipLog(fs, testClassesDirectory, SkippingTestClasses)
                                 + SkipLog(fs, mainClassesDirectory, SkippingMainClasses))
    {
      classesDirectories := [];
      if testClassesDirectory.Some? && Exists(fs, testClassesDirectory.value) {
        classesDirectories := classesDirectories + [testClassesDirectory.value];
      } else {
        log := log + [SkippingTestClasses];
      }
      if mainClassesDirectory.Some? && Exists(fs, mainClassesDirectory.value) {
        classesDirectories := classesDirectories + [mainClassesDirectory.value];
      } else {
        log := log + [SkippingMainClasses];
      }
    }

    /**
     * The dependency source: the directories of `listDeps` and then its `.jar`
     * files, each group in order, each logged as it is added.
     */
    method BuildDependencySource(fs: FileSystem, listDeps: seq<Path>) returns (dependencies: ClassFileSource)
      modifies this`log
      ensures dependencies == DependencySource(fs, listDeps)
      ensures log == old(log) + AddingLog(Select(fs, IsDir, listDeps)) + AddingLog(Select(fs, IsJarFile, listDeps))
    {
      dependencies := NewClassFileSource.WithTypeFilter(AnnotatedWithPortableType)
                                        .WithPropertyFilterRejectingAll();
      dependencies := AddDirectories(fs, listDeps, dependencies);
      dependencies := AddJarFiles(fs, listDeps, dependencies);
    }

    /** The first pass over `listDeps`: each directory is added as a root, and logged, in order. */
    method AddDirectories(fs: FileSystem, listDeps: seq<Path>, source: ClassFileSource)
      returns (updated: ClassFileSource)
      modifies this`log
      ensures updated == source.(roots := source.roots + DirectoryRoots(Select(fs, IsDir, listDeps)))
      ensures log == old(log) + AddingLog(Select(fs, IsDir, listDeps))
    {
      updated := source;
      for i := 0 to |listDeps|
        invariant updated == source.(roots := source.roots + DirectoryRoots(Select(fs, IsDir, listDeps[..i])))
        invariant log == old(log) + AddingLog(Select(fs, IsDir, listDeps[..i]))
      {
        PassStep(fs, IsDir, listDeps, i, source.roots, old(log));
        if IsDirectory(fs, listDeps[i]) {
          log := log + [AddingClassesToSchema(listDeps[i])];
          updated := updated.WithClassesFromDirectory(listDeps[i]);
        }
      }
      assert listDeps[..|listDeps|] == listDeps;
    }

    /** The second pass over `listDeps`: each `.jar` file is added as a root, and logged, in order. */
    method AddJarFiles(fs: FileSystem, listDeps: seq<Path>, source: ClassFileSource)
      returns (updated: ClassFileSource)
      modifies this`log
      ensures updated == source.(roots := source.roots + JarRoots(Select(fs, IsJarFile, listDeps)))
      ensures log == old(log) + AddingLog(Select(fs, IsJarFile, listDeps))
    {
      updated := source;
      for i := 0 to |listDeps|
        invariant updated == source.(roots := source.roots + JarRoots(Select(fs, IsJarFile, listDeps[..i])))
        invariant log == old(log) + AddingLog(Select(fs, IsJarFile, listDeps[..i]))
      {
        PassStep(fs, IsJarFile, listDeps, i, source.roots, old(log));
        if IsFile(fs, listDeps[i]) && EndsWith(listDeps[i].Name(), ".jar") {
          log := log + [AddingClassesToSchema(listDeps[i])];
          updated := updated.WithClassesFromJarFile(listDeps[i]);
        }
      }
      assert listDeps[..|listDeps|] == listDeps;
    }

    /** Runs the instrumenter over each directory in turn; the first failure ends the run. */
    method RunInstrumenter(listInstrument: seq<Path>, schema: Schema, throws: Invocation -> bool)
      returns (calls: seq<Invocation>, outcome: Outcome)
      modifies this`log
      ensures (calls, outcome) == Run(listInstrument, schema, debug, throws)
      ensures log == old(log) + RunLog(calls)
    {
      calls, outcome := [], Succeeded;
      var i := 0;
      while i < |listInstrument| && outcome == Succeeded
        invariant 0 <= i <= |listInstrument|
        invariant calls == Invocations(listInstrument[..i], schema, debug)
        invariant outcome == Succeeded ==>
          forall j :: 0 <= j < i ==> !throws(Invocation(listInstrument[j], schema, debug))
        invariant outcome != Succeeded ==>
          0 < i && outcome == Failed(listInstrument[i - 1])
          && throws(Invocation(listInstrument[i - 1], schema, debug))
          && forall j :: 0 <= j < i - 1 ==> !throws(Invocation(listInstrument[j], schema, debug))
        invariant log == old(log) + RunLog(calls)
      {
        var dir := listInstrument[i];
        log := log + [RunningGenerator(dir)];
        calls := calls + [Invocation(dir, schema, debug)];
        if throws(Invocation(dir, schema, debug)) {
          outcome := Failed(dir);
        }
        i := i + 1;
      }
      if outcome == Succeeded {
        assert listInstrument[..i] == listInstrument;
      }
    }

    /** `addSchemaSourceIfExists`: adds `<dir>/META-INF/schema.xml` when the property, the directory and the file are all there. */
    method AddSchemaSourceIfExists(builder: SchemaBuilder, fs: FileSystem, resourcesDirectory: Option<Path>)
      modifies this`log, builder
      ensures builder.sources == old(builder.sources) + XmlSources(fs, resourcesDirectory)
      ensures log == old(log) + XmlLog(fs, resourcesDirectory)
    {
      if resourcesDirectory.Some? {
        var dir := resourcesDirectory.value;
        if Exists(fs, dir) {
          var xmlSchema := SchemaXml(dir);
          if Exists(fs, xmlSchema) {
            log := log + [XmlSchemaSourceAdded(xmlSchema)];
            builder.AddSchemaSource(XmlSchemaSource(xmlSchema));
          } else {
            log := log + [NoSchemaXml(xmlSchema)];
          }
        } else {
          log := log + [ResourcesDirectoryMissing];
        }
      } else {
        log := log + [ResourcesPropertyAbsent];
      }
    }

    /** `resolveDependencies`: the entries of the runtime classpath that exist, in classpath order. */
    method ResolveDependencies(fs: FileSystem, runtimeClasspath: seq<Path>) returns (listArtifacts: seq<Path>)
      modifies this`log
      ensures listArtifacts == Select(fs, Present, runtimeClasspath)
      ensures log == old(log) + ResolveLog(fs, runtimeClasspath)
      ensures log[|log| - 1] == ResolvedDependencies(|listArtifacts|)
    {
      listArtifacts := [];
      for i := 0 to |runtimeClasspath|
        invariant listArtifacts == Select(fs, Present, runtimeClasspath[..i])
        invariant log == old(log) + EntryLog(fs, runtimeClasspath[..i])
      {
        var file := runtimeClasspath[i];
        EntryStep(fs, runtimeClasspath, i, old(log));
        log := log + [AddingDependency(file)];
        if Exists(fs, file) {
          listArtifacts := listArtifacts + [file];
        } else {
          log := log + [DependencyMissing(file)];
        }
      }
      assert runtimeClasspath[..|runtimeClasspath|] == runtimeClasspath;
      log := log + [ResolvedDependencies(|listArtifacts|)];
      Assoc(old(log), EntryLog(fs, runtimeClasspath), [ResolvedDependencies(|listArtifacts|)]);
    }
  }
}
