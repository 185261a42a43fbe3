/**
 * Applying the Coherence plugin to a project: the Gradle-version and `java`
 * plugin gates, the registration of the `coherencePof` extension and task, the
 * task's configuration from the extension, and the `compileJava` finalizer.
 */
module CoherencePlugin {
  import opened Wrappers
  import opened FileSystem
  import opened Decimal
  import opened PluginUtils
  import opened PofTask

  const PofTaskName: string := "coherencePof"
  const CompileJava: string := "compileJava"
  const CompileTestJava: string := "compileTestJava"
  const JavaPlugin: string := "java"
  const MinimalSupportedGradleVersion: int := 7

  /** Why `apply` stops: the version string cannot be read, or one of the two gates refuses. */
  datatype ApplyError =
    | VersionUnreadable(cause: JavaException)  // thrown by `getGradleMajorVersion`
    | UnsupportedGradleVersion(major: int)     // a `GradleException`
    | JavaPluginNotApplied                     // a `GradleException`
  {
    predicate IsGradleException() {
      !VersionUnreadable?
    }

    /** The message of the `GradleException` thrown by a gate. */
    function Message(): string
      requires IsGradleException()
    {
      if UnsupportedGradleVersion? then "The Coherence Gradle plugin requires Gradle version 7 or higher."
      else "The Java Gradle plugin has not been applied."
    }
  }

  /** The gates `apply` passes before it changes anything: first the Gradle version, then the `java` plugin. */
  function ApplyGate(gradleVersion: string, plugins: set<string>): (r: Option<ApplyError>)
    ensures r.None? ==> '.' in gradleVersion && JavaPlugin in plugins
    ensures r.Some? && r.value.UnsupportedGradleVersion? ==> r.value.major < MinimalSupportedGradleVersion
  {
    match GradleMajorVersion(gradleVersion)
    case Failure(cause) => Some(VersionUnreadable(cause))
    case Success(major) =>
      if major < MinimalSupportedGradleVersion then Some(UnsupportedGradleVersion(major))
      else if JavaPlugin !in plugins then Some(JavaPluginNotApplied)
      else None
  }

  /**
   * For a released version `<n>.<rest>`, the plugin applies iff `n` is at least
   * 7 and the `java` plugin is applied; below 7 the version error is reported
   * whatever the plugins.
   */
  lemma GateOnReleasedVersion(n: nat, rest: string, plugins: set<string>)
    requires n <= IntMax
    ensures ApplyGate(DecimalString(n) + "." + rest, plugins).None? <==> n >= 7 && JavaPlugin in plugins
    ensures n < 7 ==> ApplyGate(DecimalString(n) + "." + rest, plugins) == Some(UnsupportedGradleVersion(n))
    ensures n >= 7 && JavaPlugin !in plugins ==>
      ApplyGate(DecimalString(n) + "." + rest, plugins) == Some(JavaPluginNotApplied)
  {
    MajorVersionOfRelease(n, rest);
  }

  /**
   * For every version string: `apply` passes iff the major version reads as an
   * `int` of at least 7 and the `java` plugin is applied; a version that cannot
   * be read stops it with the reading's own exception, and a readable one below
   * 7 is reported whatever the plugins.
   */
  lemma GateRule(gradleVersion: string, plugins: set<string>)
    ensures var m := GradleMajorVersion(gradleVersion);
      ApplyGate(gradleVersion, plugins).None?
      <==> m.Success? && m.value >= MinimalSupportedGradleVersion && JavaPlugin in plugins
    ensures var m := GradleMajorVersion(gradleVersion);
      m.Failure? <==> ApplyGate(gradleVersion, plugins).Some? && ApplyGate(gradleVersion, plugins).value.VersionUnreadable?
    ensures var m := GradleMajorVersion(gradleVersion);
      m.Failure? ==> ApplyGate(gradleVersion, plugins) == Some(VersionUnreadable(m.error))
    ensures var m := GradleMajorVersion(gradleVersion);
      m.Success? && m.value < MinimalSupportedGradleVersion ==>
        ApplyGate(gradleVersion, plugins) == Some(UnsupportedGradleVersion(m.value))
    ensures var m := GradleMajorVersion(gradleVersion);
      m.Success? && m.value >= MinimalSupportedGradleVersion && JavaPlugin !in plugins ==>
        ApplyGate(gradleVersion, plugins) == Some(JavaPluginNotApplied)
  {
  }

  /**
   * Majors that are not canonical decimals are read as `parseInt` reads them:
   * a leading zero or a `+` sign is accepted, and a major beyond `int` range
   * stops `apply` while reading the version.
   */
  lemma GateOnNonCanonicalVersions()
    ensures ApplyGate("07.1", {JavaPlugin}) == None
    ensures ApplyGate("+6.1", {JavaPlugin}) == Some(UnsupportedGradleVersion(6))
    ensures ApplyGate("2147483648.1", {JavaPlugin}) == Some(VersionUnreadable(NumberFormat("2147483648")))
  {
    MajorVersionWithLeadingZero();
    MajorVersionWithPlusSign();
    MajorVersionOutOfRange();
  }

  /** A version string without a `.` makes `apply` fail before either gate, with the exception `substring` throws. */
  lemma GateOnVersionWithoutDot(gradleVersion: string, plugins: set<string>)
    requires '.' !in gradleVersion
    ensures ApplyGate(gradleVersion, plugins) == Some(VersionUnreadable(StringIndexOutOfBounds(0, -1, |gradleVersion|)))
  {
    MajorVersionWithoutDot(gradleVersion);
  }

  /** The gates on the versions Gradle has released, and the messages the build fails with. */
  lemma GateOnConcreteVersions()
    ensures ApplyGate("7.6", {JavaPlugin}) == None
    ensures ApplyGate("8.10.2", {}) == Some(JavaPluginNotApplied)
    ensures ApplyGate("6.9.4", {JavaPlugin}) == Some(UnsupportedGradleVersion(6))
    ensures ApplyGate("8", {JavaPlugin}) == Some(VersionUnreadable(StringIndexOutOfBounds(0, -1, 1)))
    ensures UnsupportedGradleVersion(6).Message() == "The Coherence Gradle plugin requires Gradle version 7 or higher."
    ensures JavaPluginNotApplied.Message() == "The Java Gradle plugin has not been applied."
  {
    MajorVersionOfReleasedVersions();
    MajorVersionOfMalformedVersions();
  }

  // ----- the extension and the task's configuration -------------------------

  /** The `coherencePof` extension's properties, each either set in the build script or absent. */
  datatype Extension = Extension(
    debug: Option<bool>,
    instrumentTestClasses: Option<bool>,
    testClassesDirectory: Option<Path>,
    mainClassesDirectory: Option<Path>)

  /** The task's properties once the extension's present values are copied over them. */
  function ConfiguredSettings(s: TaskSettings, ext: Extension): (r: TaskSettings)
    ensures r.testResourcesDirectory == s.testResourcesDirectory && r.mainResourcesDirectory == s.mainResourcesDirectory
    ensures ext.debug.Some? ==> r.debug == ext.debug.value
    ensures ext.instrumentTestClasses.Some? ==> r.instrumentTestClasses == ext.instrumentTestClasses.value
  {
    s.(debug := ext.debug.GetOr(s.debug),
       instrumentTestClasses := ext.instrumentTestClasses.GetOr(s.instrumentTestClasses),
       testClassesDirectory := if ext.testClassesDirectory.Some? then ext.testClassesDirectory else s.testClassesDirectory,
       mainClassesDirectory := if ext.mainClassesDirectory.Some? then ext.mainClassesDirectory else s.mainClassesDirectory)
  }

  /** The tasks `coherencePof` depends on once configured. */
  function TaskDependencies(ext: Extension): (r: set<string>)
    ensures CompileJava in r && |r| <= 2
  {
    {CompileJava} + (if ext.instrumentTestClasses.Some? then {CompileTestJava} else {})
  }

  /**
   * Over the constructor's conventions, each extension value wins when it is
   * set and the convention stays otherwise: debug is on only when the extension
   * turns it on, and the classes directories fall back to the project's.
   */
  lemma ConfiguredOverConventions(dirs: OutputDirs, ext: Extension)
    ensures var s := ConfiguredSettings(ConventionSettings(dirs), ext);
      && (s.debug <==> ext.debug == Some(true))
      && (s.instrumentTestClasses <==> ext.instrumentTestClasses == Some(true))
      && s.testClassesDirectory == Some(ext.testClassesDirectory.GetOr(dirs.testClasses))
      && s.mainClassesDirectory == Some(ext.mainClassesDirectory.GetOr(dirs.mainClasses))
      && s.testResourcesDirectory == dirs.testResources
      && s.mainResourcesDirectory == dirs.mainResources
  {
  }

  /**
   * For any task: each present extension value wins and each absent one keeps
   * the task's value; an extension with nothing set leaves the task as it was,
   * and configuring twice is configuring once.
   */
  lemma ConfigurationKeepsAbsentValues(s: TaskSettings, ext: Extension)
    ensures ConfiguredSettings(s, Extension(None, None, None, None)) == s
    ensures ConfiguredSettings(ConfiguredSettings(s, ext), ext) == ConfiguredSettings(s, ext)
    ensures ext.debug.None? ==> ConfiguredSettings(s, ext).debug == s.debug
    ensures ext.instrumentTestClasses.None? ==> ConfiguredSettings(s, ext).instrumentTestClasses == s.instrumentTestClasses
    ensures ext.testClassesDirectory.Some? ==> ConfiguredSettings(s, ext).testClassesDirectory == ext.testClassesDirectory
    ensures ext.mainClassesDirectory.Some? ==> ConfiguredSettings(s, ext).mainClassesDirectory == ext.mainClassesDirectory
    ensures ext.testClassesDirectory.None? ==> ConfiguredSettings(s, ext).testClassesDirectory == s.testClassesDirectory
    ensures ext.mainClassesDirectory.None? ==> ConfiguredSettings(s, ext).mainClassesDirectory == s.mainClassesDirectory
  {
  }

  /** `coherencePof` always depends on `compileJava`, and on `compileTestJava` iff `instrumentTestClasses` is set, whatever its value. */
  lemma TaskDependenciesRule(ext: Extension)
    ensures CompileJava in TaskDependencies(ext)
    ensures CompileTestJava in TaskDependencies(ext) <==> ext.instrumentTestClasses.Some?
    ensures forall t :: t in TaskDependencies(ext) ==> t == CompileJava || t == CompileTestJava
  {
  }

  /** The action `register` attaches to `coherencePof`: it runs when the task is created. */
  method ConfigurePofTask(task: CoherenceTask, ext: Extension)
    modifies task
    ensures task.Settings() == ConfiguredSettings(old(task.Settings()), ext)
    ensures task.dependsOn == old(task.dependsOn) + TaskDependencies(ext)
    ensures task.log == old(task.log)
  {
    task.dependsOn := task.dependsOn + {CompileJava};
    if ext.debug.Some? {
      task.debug := ext.debug.value;
    }
    if ext.mainClassesDirectory.Some? {
      task.mainClassesDirectory := ext.mainClassesDirectory;
    }
    if ext.instrumentTestClasses.Some? {
      task.dependsOn := task.dependsOn + {CompileTestJava};
      task.instrumentTestClasses := ext.instrumentTestClasses.value;
    }
    if ext.testClassesDirectory.Some? {
      task.testClassesDirectory := ext.testClassesDirectory;
    }
  }

  /**
   * The task a build creates: the constructor's conventions, then the
   * extension's values; what it instruments does not depend on `instrumentTestClasses`.
   */
  method CreatePofTask(dirs: OutputDirs, ext: Extension) returns (task: CoherenceTask)
    ensures fresh(task)
    ensures task.Settings() == ConfiguredSettings(ConventionSettings(dirs), ext)
    ensures task.dependsOn == TaskDependencies(ext)
    ensures task.log == [SettingUpConventions]
  {
    task := new CoherenceTask(dirs);
    ConfigurePofTask(task, ext);
  }

  // ----- the project --------------------------------------------------------

  /** The parts of a Gradle project `apply` reads and changes. */
  class Project {
    const gradleVersion: string
    const plugins: set<string>
    var extensions: set<string>
    var tasks: set<string>
    var finalizers: map<string, set<string>>

    constructor (gradleVersion: string, plugins: set<string>, tasks: set<string>)
      ensures this.gradleVersion == gradleVersion && this.plugins == plugins && this.tasks == tasks
      ensures extensions == {} && finalizers == map[]
    {
      this.gradleVersion := gradleVersion;
      this.plugins := plugins;
      this.tasks := tasks;
      extensions := {};
      finalizers := map[];
    }

    /** The tasks that run after `name`. */
    function FinalizersOf(name: string): set<string>
      reads this
    {
      if name in finalizers then finalizers[name] else {}
    }
  }

  /**
   * `CoherencePlugin.apply`: on a failed gate nothing changes; otherwise the
   * extension and the task are registered, and `compileJava`, when there is
   * one, is finalized by `coherencePof`.
   */
  method Apply(project: Project) returns (failure: Option<ApplyError>)
    modifies project
    ensures failure == ApplyGate(project.gradleVersion, project.plugins)
    ensures failure.Some? ==>
      && project.extensions == old(project.extensions)
      && project.tasks == old(project.tasks)
      && project.finalizers == old(project.finalizers)
    ensures failure.None? ==>
      && project.extensions == old(project.extensions) + {PofTaskName}
      && project.tasks == old(project.tasks) + {PofTaskName}
      && (forall name :: name != CompileJava ==> project.FinalizersOf(name) == old(project.FinalizersOf(name)))
      && project.FinalizersOf(CompileJava)
         == old(project.FinalizersOf(CompileJava)) + (if CompileJava in old(project.tasks) then {PofTaskName} else {})
  {
    var version := GradleMajorVersion(project.gradleVersion);
    if version.Failure? {
      return Some(VersionUnreadable(version.error));
    }
    if version.value < MinimalSupportedGradleVersion {
      return Some(UnsupportedGradleVersion(version.value));
    }
    if JavaPlugin !in project.plugins {
      return Some(JavaPluginNotApplied);
    }
    project.extensions := project.extensions + {PofTaskName};
    project.tasks := project.tasks + {PofTaskName};
    if CompileJava in project.tasks {
      project.finalizers := project.finalizers[CompileJava := project.FinalizersOf(CompileJava) + {PofTaskName}];
    }
    failure := None;
  }
}
