# Coherence Gradle plugin — a verified model

This project models the planning layer of the Coherence Gradle plugin, which prepares
Portable Object Format (POF) instrumentation. The `coherencePof` task action
(`instrumentPofClasses`) does the following:

- it adds an XML schema source for each resources directory holding a `META-INF/schema.xml`;
- it picks the test and main classes directories that exist;
- it resolves the runtime classpath;
- it builds a dependency class-file source from the classpath's directories and `.jar` files;
- it builds a project source from the classes directories;
- it hands all the sources to a schema builder;
- it runs the portable-type instrumenter over each classes directory in turn, stopping at the first failure.

The model also covers:

- the plugin's `apply`: the Gradle-version gate, the `java`-plugin gate, registration, copying extension values onto the task, task dependencies and the `compileJava` finalizer;
- `getGradleMajorVersion`;
- the earlier file-diff task of the root project.

## How it is modelled

**File system.** It is a map from paths (sequences of name segments) to what exists there:

- a directory;
- a regular file;
- something else.

**Libraries.** The Coherence library objects are modelled by what the plugin does with them:

- a `ClassFileSchemaSource` is the configuration given to it through its fluent `with…` calls;
- the `SchemaBuilder` is a class holding the sequence of sources added to it;
- a `Schema` is that sequence;
- the instrumenter is a parameter `throws: Invocation -> bool`. It says on which calls `instrumentClasses` throws an `IOException`.

**Task action.** Two layers describe the task action:

- `PofTask.PlanTask` and `PofTask.TaskLog` are functions of the task's properties, the file system and the classpath. They give the sources, worklist, resolved dependencies, instrumenter calls, outcome and log lines.
- The class `PofTask.CoherenceTask` holds the task's properties and its log. Its methods follow the Java code statement by statement: loops, builder calls, log appends. Each method is proved to produce exactly what the plan functions describe.

The properties the code promises are then proved as lemmas about the plan functions, in `PofTaskProperties`.

**Log.** Log lines are an appended sequence of events with their levels, not formatted text.

**Two behaviours of the code worth knowing:**

- `instrumentTestClasses` does not decide whether the test classes directory is instrumented. That directory is instrumented whenever its property is present and the directory exists. The task action only logs the flag. Setting it in the extension, to either value, adds a dependency on `compileTestJava` (`PofTaskProperties.PlanIgnoresInstrumentTestClasses`, `CoherencePlugin.TaskDependenciesRule`).
- The XML schema sources reach the builder before the dependency source and the project source (`PofTaskProperties.SourceOrder`).

## Model

| member | source | states |
|---|---|---|
| FileSystem.Path.Child | plugin/src/main/java/com/oracle/coherence/gradle/CoherenceTask.java:194 | appending a name segment gives a path one segment longer whose name is that segment |
| FileSystem.Path.Name | plugin/src/main/java/com/oracle/coherence/gradle/CoherenceTask.java:162 | the definition of `File.getName()`: the last segment of the path; used by the `.jar` test |
| FileSystem.Path.ToString | src/main/java/com/oracle/coherence/gradle/CoherenceTask.java:51 | the definition of `File.toString()`: the segments joined by `/`, as the report prints the largest file |
| FileSystem.EndsWith | plugin/src/main/java/com/oracle/coherence/gradle/CoherenceTask.java:162 | the definition of `String.endsWith`: the suffix is no longer than the string and equals its tail |
| FileSystem.Holds | plugin/src/main/java/com/oracle/coherence/gradle/CoherenceTask.java:157-162 | the definition of the three tests applied to classpath entries: `exists()` (line 222), `isDirectory` (line 157), and `isFile() && getName().endsWith(".jar")` (line 162); `SelectMembership` and `DependencySourceRule` state what passing means |
| FileSystem.Select | plugin/src/main/java/com/oracle/coherence/gradle/CoherenceTask.java:156-164 | a stream filter keeps at most as many entries as it is given |
| FileSystem.SelectMembership | plugin/src/main/java/com/oracle/coherence/gradle/CoherenceTask.java:156-164 | an entry is kept iff it is in the input and passes the test |
| FileSystem.SelectIsSubsequence | plugin/src/main/java/com/oracle/coherence/gradle/CoherenceTask.java:156-164 | the kept entries keep their original order |
| FileSystem.SelectMultiplicity | plugin/src/main/java/com/oracle/coherence/gradle/CoherenceTask.java:220-231 | every occurrence of a passing entry is kept and every occurrence of a failing one dropped |
| FileSystem.SelectAfterPresent | plugin/src/main/java/com/oracle/coherence/gradle/CoherenceTask.java:156-164 | filtering the existing entries for directories or jar files gives the same result as filtering the whole classpath |
| Decimal.DecimalString | src/main/java/com/oracle/coherence/gradle/CoherenceTask.java:48 | formatting a length gives a non-empty digit string without leading zeros that reads back as the length |
| PluginUtils.IndexOf | plugin/src/main/java/com/oracle/coherence/gradle/PluginUtils.java:27 | `indexOf` gives -1 iff the character is absent, otherwise the index of its first occurrence |
| PluginUtils.Substring | plugin/src/main/java/com/oracle/coherence/gradle/PluginUtils.java:27 | the definition of `substring(begin, end)`: succeeds iff `0 <= begin <= end <= length`, with a result `end - begin` long, and otherwise throws `StringIndexOutOfBoundsException` with the three numbers |
| PluginUtils.ParseInt | plugin/src/main/java/com/oracle/coherence/gradle/PluginUtils.java:27 | the definition of `Integer.parseInt`: any result lies in the `int` range, and every failure is `NumberFormatException` for the input; what it accepts is stated by `ParseIntNumeral` |
| PluginUtils.ParseIntNumeral | plugin/src/main/java/com/oracle/coherence/gradle/PluginUtils.java:27 | a run of digits, bare or after `+` or `-`, leading zeros allowed, parses to its value iff that value is in the `int` range, and throws `NumberFormatException` otherwise |
| PluginUtils.ParseIntDecimal | plugin/src/main/java/com/oracle/coherence/gradle/PluginUtils.java:27 | `parseInt` reads back the decimal notation of every `int` from 0 to `Integer.MAX_VALUE` |
| PluginUtils.GradleMajorVersion | plugin/src/main/java/com/oracle/coherence/gradle/PluginUtils.java:24-28 | the definition of `getGradleMajorVersion`: a result is an `int` from a version containing `.`, and it throws `StringIndexOutOfBoundsException` iff there is no `.`; the `MajorVersion…` lemmas state the rest |
| PluginUtils.MajorVersionIsPrefix | plugin/src/main/java/com/oracle/coherence/gradle/PluginUtils.java:24-28 | the major version is the parse of the text before the first `.` |
| PluginUtils.MajorVersionIgnoresLaterComponents | plugin/src/main/java/com/oracle/coherence/gradle/PluginUtils.java:27 | what follows the first `.` never changes the result |
| PluginUtils.MajorVersionOfRelease | plugin/src/main/java/com/oracle/coherence/gradle/PluginUtils.java:24-28 | `<n>.<anything>` has major version `n` |
| PluginUtils.MajorVersionWithoutDot | plugin/src/main/java/com/oracle/coherence/gradle/PluginUtils.java:27 | a version without `.` fails with the `StringIndexOutOfBoundsException` of `substring(0, -1)` |
| PluginUtils.MajorVersionNonNumeric | plugin/src/main/java/com/oracle/coherence/gradle/PluginUtils.java:27 | a prefix with a non-digit (other than a leading sign) fails with `NumberFormatException` |
| PluginUtils.MajorVersionOfReleasedVersions | plugin/src/main/java/com/oracle/coherence/gradle/PluginUtils.java:24-28 | "7.6" gives 7, "8.10.2" gives 8, "6.9.4" gives 6 |
| PluginUtils.MajorVersionWithoutDigits | plugin/src/main/java/com/oracle/coherence/gradle/PluginUtils.java:27 | an empty major component, or a lone `+` or `-`, fails with `NumberFormatException` |
| PluginUtils.MajorVersionOfNumeral | plugin/src/main/java/com/oracle/coherence/gradle/PluginUtils.java:24-28 | a major component of digits, bare or signed, gives its value when it is in the `int` range and fails with `NumberFormatException` otherwise |
| PluginUtils.MajorVersionWithLeadingZero | plugin/src/main/java/com/oracle/coherence/gradle/PluginUtils.java:24-28 | a leading zero before the `.` is accepted: "07.1" gives 7 |
| PluginUtils.MajorVersionWithPlusSign | plugin/src/main/java/com/oracle/coherence/gradle/PluginUtils.java:24-28 | a `+` sign before the major is accepted: "+6.1" gives 6 |
| PluginUtils.MajorVersionOfMalformedVersions | plugin/src/main/java/com/oracle/coherence/gradle/PluginUtils.java:24-28 | "8" fails in `substring`; "x.1", ".7" and "-.1" fail in `parseInt` |
| PluginUtils.MajorVersionOutOfRange | plugin/src/main/java/com/oracle/coherence/gradle/PluginUtils.java:27 | "2147483648.1" fails with `NumberFormatException`, since its major component exceeds `Integer.MAX_VALUE` |
| PofTask.FirstFailure | plugin/src/main/java/com/oracle/coherence/gradle/CoherenceTask.java:171-182 | the index where the instrumenter first throws: no call before it throws, and the call at it does |
| PofTask.LevelOf | plugin/src/main/java/com/oracle/coherence/gradle/CoherenceTask.java:100-232 | the definition of the logger method each line is written with: `lifecycle` for the start line, an added XML source, each added root and the resolved count; `error` for the two skip lines; `warn` before each instrumenter call; `info` otherwise. `XmlSourceRule` and `SkippedClassesDirectories` state the levels they rely on |
| PofTask.ConventionSettings | plugin/src/main/java/com/oracle/coherence/gradle/CoherenceTask.java:73-92 | the definition of the constructor's conventions: debug and instrumentTestClasses off, the project's classes directories, and each resources directory only when known; stated by `CoherenceTask.constructor` and `ConfiguredOverConventions` |
| PofTask.NewClassFileSource | plugin/src/main/java/com/oracle/coherence/gradle/CoherenceTask.java:107 | `new ClassFileSchemaSource()`: no type filter, no `Object` typing, no property filter, no roots |
| PofTask.ClassFileSource.WithTypeFilter | plugin/src/main/java/com/oracle/coherence/gradle/CoherenceTask.java:139 | the definition of `withTypeFilter(hasAnnotation(PortableType.class))`: only the type filter changes |
| PofTask.ClassFileSource.WithMissingPropertiesAsObject | plugin/src/main/java/com/oracle/coherence/gradle/CoherenceTask.java:140 | the definition of `withMissingPropertiesAsObject()`: only that flag changes |
| PofTask.ClassFileSource.WithPropertyFilterRejectingAll | plugin/src/main/java/com/oracle/coherence/gradle/CoherenceTask.java:154 | the definition of `withPropertyFilter(fieldNode -> false)`: only that flag changes |
| PofTask.ClassFileSource.WithClassesFromDirectory | plugin/src/main/java/com/oracle/coherence/gradle/CoherenceTask.java:143 | the definition of `withClassesFromDirectory`: one directory root appended after the existing roots; `ProjectSourceRule` and `DependencySourceRule` state the resulting roots |
| PofTask.ClassFileSource.WithClassesFromJarFile | plugin/src/main/java/com/oracle/coherence/gradle/CoherenceTask.java:164 | the definition of `withClassesFromJarFile`: one jar root appended after the existing roots; stated by `DependencySourceRule` |
| PofTask.PlanTask | plugin/src/main/java/com/oracle/coherence/gradle/CoherenceTask.java:96-184 | the definition of what one run of `instrumentPofClasses` hands to the libraries: the sources, worklist, resolved entries, calls and outcome. `InstrumentPofClasses` is proved to do exactly this; its properties are stated by `WorklistRule`, `PlanIgnoresInstrumentTestClasses`, `SourceOrder`, `PlanCalls` and `NothingToInstrument` |
| PofTask.TaskLog | plugin/src/main/java/com/oracle/coherence/gradle/CoherenceTask.java:96-184 | the definition of the lines one run logs: the header, the XML lines, the skip lines, and then, with a worklist, the resolution, dependency-root and instrumenter lines. `InstrumentPofClasses` appends exactly these; properties in `LogIgnoresInstrumentTestClasses`, `SkippedClassesDirectories`, `InstrumentLogLines` and `ResolutionOnlyWithWorklist` |
| PofTask.XmlSources | plugin/src/main/java/com/oracle/coherence/gradle/CoherenceTask.java:186-213 | the definition of the source `addSchemaSourceIfExists` adds for one resources directory; stated by `XmlSourceRule` |
| PofTask.XmlLog | plugin/src/main/java/com/oracle/coherence/gradle/CoherenceTask.java:186-213 | the definition of the line `addSchemaSourceIfExists` logs on each of its four branches; stated by `XmlSourceRule` |
| PofTask.ClassesDirectories | plugin/src/main/java/com/oracle/coherence/gradle/CoherenceTask.java:116-136 | the definition of the worklist: the test and then the main classes directory, each when present and existing; stated by `WorklistRule` |
| PofTask.ProjectSource | plugin/src/main/java/com/oracle/coherence/gradle/CoherenceTask.java:138-146 | the definition of the project class-file source; stated by `ProjectSourceRule` |
| PofTask.DependencySource | plugin/src/main/java/com/oracle/coherence/gradle/CoherenceTask.java:151-164 | the definition of the dependency class-file source; stated by `DependencySourceRule` and `DependencySourceIgnoresMissing` |
| PofTask.EntryLog | plugin/src/main/java/com/oracle/coherence/gradle/CoherenceTask.java:220-231 | the definition of the lines logged per classpath entry; stated by `EntryLogRule` |
| PofTask.ResolveLog | plugin/src/main/java/com/oracle/coherence/gradle/CoherenceTask.java:215-234 | the definition of everything `resolveDependencies` logs, the count last; stated by `ResolutionOnlyWithWorklist` and `InstrumentLogLines` |
| PofTask.Run | plugin/src/main/java/com/oracle/coherence/gradle/CoherenceTask.java:171-182 | the definition of the instrumenter loop's calls and outcome; stated by `RunRule` and `PlanCalls` |
| PofTask.ScanClassesDirectories | plugin/src/main/java/com/oracle/coherence/gradle/CoherenceTask.java:138-146 | the worklist is the classes directories in order; the project source is left untouched when there are none, and otherwise admits portable types, types missing properties as `Object` and scans every directory |
| PofTask.SchemaBuilder.constructor | plugin/src/main/java/com/oracle/coherence/gradle/CoherenceTask.java:109 | a new builder holds no sources |
| PofTask.SchemaBuilder.AddSchemaSource | plugin/src/main/java/com/oracle/coherence/gradle/CoherenceTask.java:166-168 | a source is appended after those already added |
| PofTask.SchemaBuilder.Build | plugin/src/main/java/com/oracle/coherence/gradle/CoherenceTask.java:166-169 | the definition of `build()`: the schema made from the sources added so far, in order; `InstrumentClasses` and `SourceOrder` state which sources those are |
| PofTask.CoherenceTask.constructor | plugin/src/main/java/com/oracle/coherence/gradle/CoherenceTask.java:68-94 | the conventions: debug and instrumentTestClasses off, the project's classes directories set, a resources directory set only when the project has one |
| PofTask.CoherenceTask.InstrumentPofClasses | plugin/src/main/java/com/oracle/coherence/gradle/CoherenceTask.java:96-184 | the sources handed to the builder, the instrumenter calls, the outcome and the lines logged are those of the plan for the task's properties |
| PofTask.CoherenceTask.Prepare | plugin/src/main/java/com/oracle/coherence/gradle/CoherenceTask.java:100-136 | a fresh builder with the XML sources (test then main), the qualifying classes directories, and the header, XML and skip lines logged |
| PofTask.CoherenceTask.InstrumentClasses | plugin/src/main/java/com/oracle/coherence/gradle/CoherenceTask.java:148-183 | the builder gains the dependency source from the existing classpath entries and then the project source; the calls and outcome are the run over the worklist with the built schema |
| PofTask.CoherenceTask.ExistingClassesDirectories | plugin/src/main/java/com/oracle/coherence/gradle/CoherenceTask.java:116-136 | the qualifying directories, test first, and one error line for each directory that does not qualify |
| PofTask.CoherenceTask.BuildDependencySource | plugin/src/main/java/com/oracle/coherence/gradle/CoherenceTask.java:151-164 | the dependency source over the resolved entries, one line logged per root added, directories then jars |
| PofTask.CoherenceTask.AddDirectories | plugin/src/main/java/com/oracle/coherence/gradle/CoherenceTask.java:156-159 | each dependency that is a directory is appended as a root, in order, and logged |
| PofTask.CoherenceTask.AddJarFiles | plugin/src/main/java/com/oracle/coherence/gradle/CoherenceTask.java:161-164 | each dependency that is a regular `.jar` file is appended as a root, in order, and logged |
| PofTask.CoherenceTask.RunInstrumenter | plugin/src/main/java/com/oracle/coherence/gradle/CoherenceTask.java:171-182 | the calls made and the outcome are the run that stops at the first throwing call, each call logged before it is made |
| PofTask.CoherenceTask.AddSchemaSourceIfExists | plugin/src/main/java/com/oracle/coherence/gradle/CoherenceTask.java:186-213 | the builder gains the XML source exactly when it is due, and exactly one line is logged |
| PofTask.CoherenceTask.ResolveDependencies | plugin/src/main/java/com/oracle/coherence/gradle/CoherenceTask.java:215-234 | the result is the existing classpath entries in order; the last line logged carries the result's length |
| PofTaskProperties.WorklistRule | plugin/src/main/java/com/oracle/coherence/gradle/CoherenceTask.java:116-145 | a directory is in the worklist iff it is the test or main property's value and exists; the worklist has one entry per qualifying property; test comes first and main last |
| PofTaskProperties.PlanIgnoresInstrumentTestClasses | plugin/src/main/java/com/oracle/coherence/gradle/CoherenceTask.java:103-121 | changing `instrumentTestClasses` changes nothing in the plan |
| PofTaskProperties.LogIgnoresInstrumentTestClasses | plugin/src/main/java/com/oracle/coherence/gradle/CoherenceTask.java:100-105 | changing `instrumentTestClasses` changes only the logged property summary |
| PofTaskProperties.EntryLogRule | plugin/src/main/java/com/oracle/coherence/gradle/CoherenceTask.java:220-231 | every classpath entry is announced, every missing one is reported, and nothing else is logged while resolving |
| PofTaskProperties.InstrumentLogLines | plugin/src/main/java/com/oracle/coherence/gradle/CoherenceTask.java:148-182 | after the directories are known only resolution and instrumentation lines are logged, and any count logged is the number of entries resolved |
| PofTaskProperties.SkippedClassesDirectories | plugin/src/main/java/com/oracle/coherence/gradle/CoherenceTask.java:122-136 | a "skipping" line is logged at error level iff the directory does not qualify |
| PofTaskProperties.NothingToInstrument | plugin/src/test/java/com/oracle/coherence/gradle/CoherencePluginTests.java:77-81 | with neither directory qualifying: no resolution, no calls, success, only XML sources, and nothing logged after the skip lines |
| PofTaskProperties.ResolutionOnlyWithWorklist | plugin/src/main/java/com/oracle/coherence/gradle/CoherenceTask.java:148-150 | the classpath is resolved, and its count logged, iff the worklist is non-empty, and the count is the number resolved |
| PofTaskProperties.ResolvedEntries | plugin/src/main/java/com/oracle/coherence/gradle/CoherenceTask.java:215-234 | the resolved entries are exactly the existing classpath entries, in classpath order, with their multiplicities |
| PofTaskProperties.DependencySourceRule | plugin/src/main/java/com/oracle/coherence/gradle/CoherenceTask.java:151-164 | the dependency source admits portable types, rejects every property, and scans exactly the directories and then exactly the regular `.jar` files, each group in classpath order |
| PofTaskProperties.DependencySourceIgnoresMissing | plugin/src/main/java/com/oracle/coherence/gradle/CoherenceTask.java:150-164 | building the dependency source from the resolved entries equals building it from the whole classpath |
| PofTaskProperties.ProjectSourceRule | plugin/src/main/java/com/oracle/coherence/gradle/CoherenceTask.java:138-146 | the project source admits portable types, types missing properties as `Object`, and scans exactly the worklist in order |
| PofTaskProperties.XmlSourceRule | plugin/src/main/java/com/oracle/coherence/gradle/CoherenceTask.java:186-213 | a resources directory adds `<dir>/META-INF/schema.xml` iff the property, the directory and the file are all there; one line is logged, at lifecycle level iff the source is added |
| PofTaskProperties.SourceOrder | plugin/src/main/java/com/oracle/coherence/gradle/CoherenceTask.java:113-169 | the builder gets the test XML source, the main XML source, then the dependency source and the project source when there is a worklist, and nothing else |
| PofTaskProperties.RunRule | plugin/src/main/java/com/oracle/coherence/gradle/CoherenceTask.java:171-182 | calls go to the directories in order with one schema and debug flag; all but the last returned; failure iff the last threw; success only after every directory |
| PofTaskProperties.PlanCalls | plugin/src/main/java/com/oracle/coherence/gradle/CoherenceTask.java:148-182 | the instrumenter is called iff there is a worklist, on the worklist with the built schema and the debug flag, and succeeds iff no call throws |
| CoherencePlugin.ApplyError.Message | plugin/src/main/java/com/oracle/coherence/gradle/CoherencePlugin.java:32-37 | the definition of the `GradleException` messages of the two gates; `GateOnConcreteVersions` states both texts |
| CoherencePlugin.ApplyGate | plugin/src/main/java/com/oracle/coherence/gradle/CoherencePlugin.java:30-38 | the definition of the checks `apply` makes before changing anything: passing needs a version with `.` and the `java` plugin, and a version error carries a major below 7; stated for every version string by `GateRule` |
| CoherencePlugin.ConfiguredSettings | plugin/src/main/java/com/oracle/coherence/gradle/CoherencePlugin.java:48-67 | the definition of copying the extension's present values onto the task: the resources directories never change, and a present `debug` or `instrumentTestClasses` wins; the rules for every property of any task are stated by `ConfigurationKeepsAbsentValues`, and over the conventions by `ConfiguredOverConventions` |
| CoherencePlugin.TaskDependencies | plugin/src/main/java/com/oracle/coherence/gradle/CoherencePlugin.java:44-62 | the definition of the tasks `coherencePof` depends on: always `compileJava`, at most two; stated fully by `TaskDependenciesRule` |
| CoherencePlugin.GateRule | plugin/src/main/java/com/oracle/coherence/gradle/CoherencePlugin.java:30-38 | for every version string: `apply` passes iff the major version reads as an `int` of at least 7 and `java` is applied; an unreadable version fails with the reading's own exception, iff it is unreadable; a readable major below 7 is reported whatever the plugins; otherwise a missing `java` plugin is reported |
| CoherencePlugin.GateOnNonCanonicalVersions | plugin/src/main/java/com/oracle/coherence/gradle/CoherencePlugin.java:30-38 | "07.1" with `java` passes, "+6.1" fails as Gradle 6, and "2147483648.1" fails while reading the version |
| CoherencePlugin.GateOnReleasedVersion | plugin/src/main/java/com/oracle/coherence/gradle/CoherencePlugin.java:22-38 | a version `<n>.<rest>` passes iff `n >= 7` and the `java` plugin is applied; below 7 the version error wins whatever the plugins |
| CoherencePlugin.GateOnVersionWithoutDot | plugin/src/main/java/com/oracle/coherence/gradle/CoherencePlugin.java:30 | a version without `.` stops `apply` with the exception thrown while reading it |
| CoherencePlugin.GateOnConcreteVersions | plugin/src/main/java/com/oracle/coherence/gradle/CoherencePlugin.java:30-38 | 7.6 with `java` passes; 8.10.2 without `java` and 6.9.4 fail with the two exception messages; "8" fails while reading the version |
| CoherencePlugin.ConfiguredOverConventions | plugin/src/main/java/com/oracle/coherence/gradle/CoherencePlugin.java:48-67 | over the conventions, debug is on iff the extension turns it on, and each classes directory is the extension's when set and the project's otherwise |
| CoherencePlugin.ConfigurationKeepsAbsentValues | plugin/src/main/java/com/oracle/coherence/gradle/CoherencePlugin.java:48-67 | for any task, each of `debug`, `instrumentTestClasses` and the two classes directories keeps the task's value when the extension leaves it absent; a present classes directory replaces the task's; an empty extension changes nothing; configuring twice equals configuring once |
| CoherencePlugin.TaskDependenciesRule | plugin/src/main/java/com/oracle/coherence/gradle/CoherencePlugin.java:44-62 | the task always depends on `compileJava`, and on `compileTestJava` iff `instrumentTestClasses` is set, whatever its value |
| CoherencePlugin.ConfigurePofTask | plugin/src/main/java/com/oracle/coherence/gradle/CoherencePlugin.java:41-68 | the task's properties become the extension's present values over its own, its dependencies grow accordingly, and its log is untouched |
| CoherencePlugin.CreatePofTask | plugin/src/main/java/com/oracle/coherence/gradle/CoherencePlugin.java:41-68 | a created task has the extension's values over the conventions and depends on exactly the configured tasks |
| CoherencePlugin.Apply | plugin/src/main/java/com/oracle/coherence/gradle/CoherencePlugin.java:24-80 | the failure reported is the gate's; on failure nothing changes; otherwise the extension and task are registered and `compileJava`, if present, is finalized by `coherencePof` |
| FileDiff.Length | src/main/java/com/oracle/coherence/gradle/CoherenceTask.java:61-63 | the definition of `File.length()`: 0 for a file that does not exist |
| FileDiff.Largest | src/main/java/com/oracle/coherence/gradle/CoherenceTask.java:50 | the definition of the file reported: one of the two, and its length is the larger length; stated further by `LargestRule` |
| FileDiff.DiffMessage | src/main/java/com/oracle/coherence/gradle/CoherenceTask.java:46-52 | the definition of the report; stated by `DiffMessageSymmetric` and `DiffMessageReportsMaximum` |
| FileDiff.AppendString | src/main/java/com/oracle/coherence/gradle/PluginUtils.java:14-24 | the definition of `appendString`: afterwards the existing files are the old ones plus the target; stated fully by `AppendStringRule` and `AppendTwice` |
| FileDiff.LargestRule | src/main/java/com/oracle/coherence/gradle/CoherenceTask.java:50 | when the lengths differ, file1 is reported iff it is strictly longer, and the reported length is the larger one |
| FileDiff.DiffMessageSymmetric | src/main/java/com/oracle/coherence/gradle/CoherenceTask.java:46-52 | swapping the two files does not change the report |
| FileDiff.DiffMessageReportsMaximum | src/main/java/com/oracle/coherence/gradle/CoherenceTask.java:46-52 | both kinds of report end with the larger length in decimal followed by " bytes." |
| FileDiff.AppendStringRule | src/main/java/com/oracle/coherence/gradle/PluginUtils.java:14-24 | appending keeps the file's old content as a prefix, adds exactly the text, creates a missing file, and touches no other file |
| FileDiff.AppendTwice | src/main/java/com/oracle/coherence/gradle/PluginUtils.java:16 | two appends equal one append of both texts |
| FileDiff.DiffTask.constructor | src/main/java/com/oracle/coherence/gradle/CoherenceTask.java:28-31 | the result file defaults to `diff-result.txt` under the build directory |
| FileDiff.DiffTask.Diff | src/main/java/com/oracle/coherence/gradle/CoherenceTask.java:33-59 | the report is the diff message and the files afterwards are the old ones with the report appended to the result file |
| FileDiff.DiffRepeated | src/main/java/com/oracle/coherence/gradle/CoherenceTask.java:33-59 | running the task again gives the same report and appends it once more |

## Left out

- The Coherence library internals are not modelled: the class-file scanning and its filters, parsing of `schema.xml`, how `SchemaBuilder.build` merges sources, and the bytecode rewrite in `PortableTypeGenerator.instrumentClasses`. This code is not part of this model. A schema is the ordered list of sources, and the instrumenter is a parameter that says which calls throw.
- The Gradle APIs are replaced by plain values: `Property`, `Configuration`, `Project`, `JavaPluginExtension`, lazy task registration and the directory-convention helpers. The project's output directories and the runtime classpath are inputs, and the registration action is the method `CoherencePlugin.ConfigurePofTask`.
- Log messages are events rather than formatted text. `GradleLogger` and the `System.out` prints of the file-diff task are left out; they are I/O.
- PofTask.CoherenceTask.RunInstrumenter: it does not model an `IOException` thrown by `getCanonicalPath` before the log line. It treats every failure as thrown by the instrumenter call itself.
- PluginUtils.ParseInt: only ASCII digits are treated as digits. `Integer.parseInt` also accepts other Unicode decimal digits, and those are not modelled.
- FileDiff.DiffTask.Diff: a file's length is its number of characters. The model assumes one byte per character and does not model directory lengths. `IOException`s swallowed by `appendString` are not modelled.
- The file-diff task's count of all projects' tasks (`getAllTasks`) is left out; it is only printed.
- The debug line `apply` logs on entry (`CoherencePlugin.java:27`) is not modelled; it is I/O.
- PluginUtils.GradleMajorVersion: the length in the `StringIndexOutOfBoundsException` counts characters (Unicode scalar values), where Java's `String.length()` counts UTF-16 code units; they differ only for a version string holding a character outside the Basic Multilingual Plane.
- CoherencePlugin.Apply: `extensions.create` and `tasks.register` are modelled as adding a name. Gradle's failure when the name is already taken is not modelled.
