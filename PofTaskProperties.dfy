/**
 * What one run of the `coherencePof` task action promises, stated over the
 * plan it follows (`PofTask.PlanTask`) and the lines it logs (`PofTask.TaskLog`).
 */
module PofTaskProperties {
  import opened Wrappers
  import opened FileSystem
  import opened PofTask

  // ----- the worklist -------------------------------------------------------

  /**
   * A classes directory is instrumented iff its property is present and the
   * directory exists; each qualifying directory once, test before main.
   */
  lemma WorklistRule(fs: FileSystem, s: TaskSettings, classpath: seq<Path>, throws: Invocation -> bool)
    ensures var w := PlanTask(fs, s, classpath, throws).worklist;
      && (forall d :: d in w <==>
            (s.testClassesDirectory == Some(d) || s.mainClassesDirectory == Some(d)) && Exists(fs, d))
      && |w| == (if Qualifies(fs, s.testClassesDirectory) then 1 else 0)
                + (if Qualifies(fs, s.mainClassesDirectory) then 1 else 0)
      && (Qualifies(fs, s.testClassesDirectory) ==> w[0] == s.testClassesDirectory.value)
      && (Qualifies(fs, s.mainClassesDirectory) ==> w[|w| - 1] == s.mainClassesDirectory.value)
  {
  }

  /** `instrumentTestClasses` does not change what the task action does. */
  lemma PlanIgnoresInstrumentTestClasses(fs: FileSystem, s: TaskSettings, classpath: seq<Path>,
                                         throws: Invocation -> bool, flag: bool)
    ensures PlanTask(fs, s.(instrumentTestClasses := flag), classpath, throws) == PlanTask(fs, s, classpath, throws)
  {
    var t := s.(instrumentTestClasses := flag);
    var work := ClassesDirectories(fs, s);
    assert ClassesDirectories(fs, t) == work;
    var deps := if work == [] then [] else Select(fs, Present, classpath);
    assert PlannedSources(fs, t, work, deps) == PlannedSources(fs, s, work, deps);
  }

  /** `instrumentTestClasses` only shows up in the logged property summary, the second line of the log. */
  lemma LogIgnoresInstrumentTestClasses(fs: FileSystem, s: TaskSettings, classpath: seq<Path>,
                                        throws: Invocation -> bool, flag: bool)
    ensures var log, log' := TaskLog(fs, s, classpath, throws),
                             TaskLog(fs, s.(instrumentTestClasses := flag), classpath, throws);
      && |log'| == |log| >= 2
      && log'[1] == log[1].(instrumentTestClasses := flag)
      && (forall i :: 0 <= i < |log| && i != 1 ==> log'[i] == log[i])
  {
    var t := s.(instrumentTestClasses := flag);
    PlanIgnoresInstrumentTestClasses(fs, s, classpath, throws, flag);
    var rest := InstrumentLog(fs, classpath, PlanTask(fs, s, classpath, throws));
    assert TaskLog(fs, t, classpath, throws) == PreludeLog(fs, t) + rest;
    assert TaskLog(fs, s, classpath, throws) == PreludeLog(fs, s) + rest;
  }

  // ----- the log ------------------------------------------------------------

  /** Only `resolveDependencies` and the instrumentation steps log after the classes directories are known. */
  predicate InstrumentationLine(line: LogLine) {
    line.AddingDependency? || line.DependencyMissing? || line.ResolvedDependencies?
    || line.AddingClassesToSchema? || line.RunningGenerator?
  }

  /** Nothing logged before the classes directories are known is a resolution or instrumentation line. */
  lemma PreludeLines(fs: FileSystem, s: TaskSettings)
    ensures forall line :: line in PreludeLog(fs, s) ==> !InstrumentationLine(line)
  {
    var test, main := XmlLog(fs, s.testResourcesDirectory), XmlLog(fs, s.mainResourcesDirectory);
    assert forall line :: line in test ==> !InstrumentationLine(line);
    assert forall line :: line in main ==> !InstrumentationLine(line);
  }

  /**
   * Each classpath entry is announced, each missing one is reported, and
   * nothing else is logged while the classpath is resolved.
   */
  lemma {:induction false} EntryLogRule(fs: FileSystem, classpath: seq<Path>)
    ensures forall line :: line in EntryLog(fs, classpath) ==>
      || (line.AddingDependency? && line.entry in classpath)
      || (line.DependencyMissing? && line.entry in classpath && !Exists(fs, line.entry))
    ensures forall p :: p in classpath ==> AddingDependency(p) in EntryLog(fs, classpath)
    ensures forall p :: p in classpath && !Exists(fs, p) ==> DependencyMissing(p) in EntryLog(fs, classpath)
    decreases |classpath|
  {
    if classpath != [] {
      var init := classpath[..|classpath| - 1];
      var last := classpath[|classpath| - 1];
      assert classpath == init + [last];
      EntryLogRule(fs, init);
    }
  }

  /** Everything logged after the classes directories are known is a resolution or instrumentation line. */
  lemma InstrumentLogLines(fs: FileSystem, classpath: seq<Path>, plan: PofPlan)
    ensures forall line :: line in InstrumentLog(fs, classpath, plan) ==> InstrumentationLine(line)
    ensures forall line :: line in InstrumentLog(fs, classpath, plan) && line.ResolvedDependencies? ==>
      line.count == |Select(fs, Present, classpath)|
  {
    EntryLogRule(fs, classpath);
  }

  /**
   * A classes directory that is absent or missing is not fatal: it costs one
   * error-level line, and the action goes on.
   */
  lemma SkippedClassesDirectories(fs: FileSystem, s: TaskSettings, classpath: seq<Path>, throws: Invocation -> bool)
    ensures var log := TaskLog(fs, s, classpath, throws);
      && (SkippingTestClasses in log <==> !Qualifies(fs, s.testClassesDirectory))
      && (SkippingMainClasses in log <==> !Qualifies(fs, s.mainClassesDirectory))
      && LevelOf(SkippingTestClasses) == Error && LevelOf(SkippingMainClasses) == Error
  {
    var rest := InstrumentLog(fs, classpath, PlanTask(fs, s, classpath, throws));
    InstrumentLogLines(fs, classpath, PlanTask(fs, s, classpath, throws));
    assert SkippingTestClasses !in rest && SkippingMainClasses !in rest;
    var front := HeaderLog(s) + XmlLog(fs, s.testResourcesDirectory) + XmlLog(fs, s.mainResourcesDirectory);
    assert SkippingTestClasses !in front && SkippingMainClasses !in front;
    var skips := SkipLog(fs, s.testClassesDirectory, SkippingTestClasses)
                 + SkipLog(fs, s.mainClassesDirectory, SkippingMainClasses);
    assert TaskLog(fs, s, classpath, throws) == front + skips + rest;
  }

  /** With neither classes directory there, nothing is resolved, nothing is instrumented and the action succeeds. */
  lemma NothingToInstrument(fs: FileSystem, s: TaskSettings, classpath: seq<Path>, throws: Invocation -> bool)
    requires !Qualifies(fs, s.testClassesDirectory) && !Qualifies(fs, s.mainClassesDirectory)
    ensures var plan := PlanTask(fs, s, classpath, throws);
      && plan.worklist == [] && plan.dependencies == [] && plan.calls == [] && plan.outcome == Succeeded
      && |plan.sources| <= 2
      && (forall source :: source in plan.sources ==> source.XmlSchemaSource?)
      && TaskLog(fs, s, classpath, throws) == PreludeLog(fs, s)
  {
  }

  /**
   * Dependencies are resolved only when there is something to instrument, and
   * the count logged is the number of entries resolved.
   */
  lemma ResolutionOnlyWithWorklist(fs: FileSystem, s: TaskSettings, classpath: seq<Path>, throws: Invocation -> bool)
    ensures var plan := PlanTask(fs, s, classpath, throws);
      var log := TaskLog(fs, s, classpath, throws);
      && (plan.worklist != [] ==> ResolvedDependencies(|plan.dependencies|) in log)
      && (forall line :: line in log && line.ResolvedDependencies? ==>
            plan.worklist != [] && line.count == |plan.dependencies|)
  {
    var plan := PlanTask(fs, s, classpath, throws);
    InstrumentLogLines(fs, classpath, plan);
    var prelude, rest := PreludeLog(fs, s), InstrumentLog(fs, classpath, plan);
    assert TaskLog(fs, s, classpath, throws) == prelude + rest;
    PreludeLines(fs, s);
    if plan.worklist != [] {
      var resolve := ResolveLog(fs, classpath);
      assert resolve[|resolve| - 1] == ResolvedDependencies(|plan.dependencies|);
      assert ActionLog(fs, classpath, plan.dependencies, plan.calls)
             == resolve + (AddingLog(Select(fs, IsDir, plan.dependencies))
                           + AddingLog(Select(fs, IsJarFile, plan.dependencies)) + RunLog(plan.calls));
    }
  }

  // ----- resolved dependencies and the dependency source --------------------

  /**
   * The resolved dependencies are exactly the classpath entries that exist, in
   * classpath order, each as often as it occurs there.
   */
  lemma ResolvedEntries(fs: FileSystem, classpath: seq<Path>)
    ensures var deps := Select(fs, Present, classpath);
      && (forall p :: p in deps <==> p in classpath && Exists(fs, p))
      && IsSubsequence(deps, classpath)
      && (forall p :: multiset(deps)[p] == if Exists(fs, p) then multiset(classpath)[p] else 0)
  {
    SelectIsSubsequence(fs, Present, classpath);
    SelectMembership(fs, Present, classpath);
    forall p
      ensures multiset(Select(fs, Present, classpath))[p] == if Exists(fs, p) then multiset(classpath)[p] else 0
    {
      SelectMultiplicity(fs, Present, classpath, p);
    }
  }

  /** The paths a sequence of roots scans, in order. */
  function Locations(roots: seq<ClassRoot>): (r: seq<Path>)
    ensures |r| == |roots|
  {
    seq(|roots|, i requires 0 <= i < |roots| => roots[i].Location())
  }

  lemma DirectoryRootsMembership(dirs: seq<Path>)
    ensures forall r :: r in DirectoryRoots(dirs) <==> r.ClassesDirectory? && r.dir in dirs
    ensures Locations(DirectoryRoots(dirs)) == dirs
  {
    forall r: ClassRoot | r.ClassesDirectory? && r.dir in dirs
      ensures r in DirectoryRoots(dirs)
    {
      var i :| 0 <= i < |dirs| && dirs[i] == r.dir;
      assert DirectoryRoots(dirs)[i] == r;
    }
  }

  lemma JarRootsMembership(jars: seq<Path>)
    ensures forall r :: r in JarRoots(jars) <==> r.JarFile? && r.jar in jars
    ensures Locations(JarRoots(jars)) == jars
  {
    forall r: ClassRoot | r.JarFile? && r.jar in jars
      ensures r in JarRoots(jars)
    {
      var i :| 0 <= i < |jars| && jars[i] == r.jar;
      assert JarRoots(jars)[i] == r;
    }
  }

  /**
   * The dependency source admits portable types and rejects every property; it
   * scans every dependency that is a directory, then every regular `.jar`
   * file, each group in classpath order, and nothing else.
   */
  lemma DependencySourceRule(fs: FileSystem, deps: seq<Path>)
    ensures var src := DependencySource(fs, deps);
      var k := |Select(fs, IsDir, deps)|;
      && src.typeFilter == AnnotatedWithPortableType && src.rejectsAllProperties && !src.missingPropertiesAsObject
      && (forall p :: ClassesDirectory(p) in src.roots <==> p in deps && IsDirectory(fs, p))
      && (forall p :: JarFile(p) in src.roots <==> p in deps && IsFile(fs, p) && EndsWith(p.Name(), ".jar"))
      && k <= |src.roots|
      && (forall i :: 0 <= i < |src.roots| ==> (src.roots[i].ClassesDirectory? <==> i < k))
      && IsSubsequence(Locations(src.roots[..k]), deps)
      && IsSubsequence(Locations(src.roots[k..]), deps)
  {
    var dirs, jars := Select(fs, IsDir, deps), Select(fs, IsJarFile, deps);
    var roots := DependencySource(fs, deps).roots;
    SelectMembership(fs, IsDir, deps);
    SelectMembership(fs, IsJarFile, deps);
    DirectoryRootsMembership(dirs);
    JarRootsMembership(jars);
    assert roots[..|dirs|] == DirectoryRoots(dirs);
    assert roots[|dirs|..] == JarRoots(jars);
    forall i | 0 <= i < |roots|
      ensures roots[i].ClassesDirectory? <==> i < |dirs|
    {
      if i >= |dirs| {
        assert roots[i] == JarRoots(jars)[i - |dirs|];
      }
    }
    SelectIsSubsequence(fs, IsDir, deps);
    SelectIsSubsequence(fs, IsJarFile, deps);
  }

  /** Building the dependency source from the resolved entries is the same as building it from the whole classpath. */
  lemma DependencySourceIgnoresMissing(fs: FileSystem, classpath: seq<Path>)
    ensures DependencySource(fs, Select(fs, Present, classpath)) == DependencySource(fs, classpath)
  {
    SelectAfterPresent(fs, IsDir, classpath);
    SelectAfterPresent(fs, IsJarFile, classpath);
  }

  /** The project source: portable types from exactly the worklist's directories, in order, missing properties as `Object`. */
  lemma ProjectSourceRule(work: seq<Path>)
    ensures var src := ProjectSource(work);
      && src.typeFilter == AnnotatedWithPortableType && src.missingPropertiesAsObject && !src.rejectsAllProperties
      && (forall r :: r in src.roots <==> r.ClassesDirectory? && r.dir in work)
      && Locations(src.roots) == work
  {
    DirectoryRootsMembership(work);
  }

  // ----- schema sources -----------------------------------------------------

  /**
   * A resources directory contributes at most one source, `<dir>/META-INF/schema.xml`,
   * and does so iff the property is present, the directory exists and the file exists;
   * exactly one line is logged for it, at lifecycle level iff the source was added.
   */
  lemma XmlSourceRule(fs: FileSystem, resourcesDir: Option<Path>)
    ensures |XmlSources(fs, resourcesDir)| <= 1
    ensures XmlSources(fs, resourcesDir) != [] <==>
      resourcesDir.Some? && Exists(fs, resourcesDir.value) && Exists(fs, SchemaXml(resourcesDir.value))
    ensures forall source :: source in XmlSources(fs, resourcesDir) ==>
      && source.XmlSchemaSource?
      && source.xml.segments == resourcesDir.value.segments + ["META-INF", "schema.xml"]
    ensures |XmlLog(fs, resourcesDir)| == 1
    ensures LevelOf(XmlLog(fs, resourcesDir)[0]) == Lifecycle <==> XmlSources(fs, resourcesDir) != []
  {
  }

  /**
   * The builder receives the test-resources XML source, the main-resources XML
   * source, then — when there is a worklist — the dependency source and the
   * project source, and nothing else.
   */
  lemma SourceOrder(fs: FileSystem, s: TaskSettings, classpath: seq<Path>, throws: Invocation -> bool)
    ensures var plan := PlanTask(fs, s, classpath, throws);
      var xt, xm := XmlSources(fs, s.testResourcesDirectory), XmlSources(fs, s.mainResourcesDirectory);
      var n := |xt| + |xm|;
      && |plan.sources| == n + (if plan.worklist == [] then 0 else 2)
      && plan.sources[..|xt|] == xt
      && plan.sources[|xt|..n] == xm
      && (forall i :: 0 <= i < |plan.sources| ==> (plan.sources[i].XmlSchemaSource? <==> i < n))
      && (plan.worklist != [] ==>
            && plan.sources[n] == ClassFileSchemaSource(DependencySource(fs, plan.dependencies))
            && plan.sources[n + 1] == ClassFileSchemaSource(ProjectSource(plan.worklist)))
  {
    var plan := PlanTask(fs, s, classpath, throws);
    var xt, xm := XmlSources(fs, s.testResourcesDirectory), XmlSources(fs, s.mainResourcesDirectory);
    var tail := if plan.worklist == [] then []
                else [ClassFileSchemaSource(DependencySource(fs, plan.dependencies)),
                      ClassFileSchemaSource(ProjectSource(plan.worklist))];
    assert plan.sources == xt + xm + tail;
    var n := |xt| + |xm|;
    assert forall i :: 0 <= i < |plan.sources| ==> (plan.sources[i].XmlSchemaSource? <==> i < n) by {
      XmlSourceRule(fs, s.testResourcesDirectory);
      XmlSourceRule(fs, s.mainResourcesDirectory);
      assert forall source: SchemaSource :: source in xt + xm ==> source.XmlSchemaSource?;
      assert forall i :: 0 <= i < |plan.sources| && i < n ==> plan.sources[i] in xt + xm;
    }
  }

  // ----- the instrumenter ---------------------------------------------------

  /**
   * The instrumenter is called on the directories in order, each time with the
   * same schema and debug flag; every call but the last returned normally; the
   * run fails iff the last call threw, and it succeeds only after calling on
   * every directory.
   */
  lemma RunRule(dirs: seq<Path>, schema: Schema, debug: bool, throws: Invocation -> bool)
    ensures var (calls, outcome) := Run(dirs, schema, debug, throws);
      && |calls| <= |dirs|
      && (dirs != [] ==> calls != [])
      && (forall i :: 0 <= i < |calls| ==> calls[i] == Invocation(dirs[i], schema, debug))
      && (forall i :: 0 <= i < |calls| - 1 ==> !throws(calls[i]))
      && (outcome.Failed? <==> calls != [] && throws(calls[|calls| - 1]))
      && (outcome.Failed? ==> outcome.dir == calls[|calls| - 1].dir)
      && (outcome == Succeeded ==> |calls| == |dirs|)
  {
  }

  /** The instrumenter is called iff there is a worklist, on the worklist's directories, with the built schema. */
  lemma PlanCalls(fs: FileSystem, s: TaskSettings, classpath: seq<Path>, throws: Invocation -> bool)
    ensures var plan := PlanTask(fs, s, classpath, throws);
      && (plan.calls == [] <==> plan.worklist == [])
      && |plan.calls| <= |plan.worklist|
      && (forall i :: 0 <= i < |plan.calls| ==>
            plan.calls[i] == Invocation(plan.worklist[i], Schema(plan.sources), s.debug))
      && (plan.outcome == Succeeded <==> forall c :: c in plan.calls ==> !throws(c))
  {
    var plan := PlanTask(fs, s, classpath, throws);
    if plan.worklist != [] {
      RunRule(plan.worklist, Schema(plan.sources), s.debug, throws);
    }
  }
}
