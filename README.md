# Gandalf test framework core, modelled in Dafny

Gandalf is a .NET test framework with three parts:

- A Roslyn **source generator** scans a test assembly for methods marked `[Test]`. It emits a module initialiser that registers one `DiscoveredTest` descriptor per method in a process-wide registry.
- A Microsoft.Testing.Platform **engine** (`GandalfTestingFramework`) answers discovery and run requests from that registry. It selects tests by assembly and category, reports ignored tests as skipped, and runs the rest, publishing in-progress and passed/failed notifications with timing and captured output.
- Five Roslyn **analyzers** (GANDALF001–004 and GANDALF0012) check how the attributes are used while a test project is being written.

The model keeps the source's structure, one Dafny module per source file:

| module | source file | form |
|---|---|---|
| `Engine` | Src/Gandalf.Engine/GandalfTestingFramework.cs | classes for the framework, the request context (message bus) and the host (clock, test bodies); selection, skipping and the worker as specification functions |
| `DependencyInjection` | Src/Gandalf.Core/Helpers/TestDependencyInjection.cs | a class over a `map` from type to instance |
| `Registry` | Src/Gandalf.Core/Helpers/DiscoveredTests.cs | a class over a `seq` of descriptors |
| `Descriptor` | Src/Gandalf.Core/Models/DiscoveredTest.cs | an immutable datatype and `FullName` |
| `CodeHelpers` | Src/Gandalf.Engine.SourceGenerators/Helpers/SourceGenCodeHelpers.cs | loop methods proved against text functions |
| `AttributeHelpers` | Src/Gandalf.Engine.SourceGenerators/Helpers/SourceGenAttributeHelpers.cs | `HasTestAttribute`; the two attribute loops of `ExtractCategoriesAndIgnore` |
| `SourceGenerator` | Src/Gandalf.Engine.SourceGenerators/TestMethodSourceGenerator.cs | method collection and a `StringBuilder` class, proved against the list of emitted lines |
| `ArgumentCountRule`, `ArgumentTypeRule`, `InjectPropertyRule`, `ReturnTaskRule`, `ScopedGroupRule` | Src/Gandalf.Analyzers/Rules/*.cs | each rule maps a declaration record to the diagnostics it reports |

Four support modules hold what the source takes from .NET and Roslyn:

- `Wrappers` holds `Option`.
- `Seqs` holds `Filter`, `Map`, `Flatten`, `FlatMap` and `First`, with their lemmas.
- `Text` holds .NET string operations: `Split`, `Join`, `Replace(char, char)`, invariant lower-casing, `int.ToString` and `int.TryParse`, with round-trip lemmas.
- `Roslyn` holds records standing for symbols, attributes, syntax nodes and diagnostics.

Some inputs are parameters rather than modelled code:

- the `ClassifyConversion(...).IsImplicit` query of GANDALF002;
- `GetHashCode` of a test argument;
- `Environment.NewLine`;
- the clock;
- the behaviour of each test body.

`Activator.CreateInstance` is decided per type by a given activation behaviour. It constructs a fresh object, gives null (a `Nullable<T>` type), throws `MissingMethodException` (no public parameterless constructor, an abstract class or an interface) or throws `TargetInvocationException` (the constructor itself throws). An exception is an outcome of the container's methods.

Some behaviour of the source is kept as written, where the code and its description disagree:

- The generator collects methods whose `[Test]` attribute has the *short* name `TestAttribute`. GANDALF003 and `HasTestAttribute` match the *full* name `Gandalf.Core.Attributes.TestAttribute`. `ReturnTaskRule.ForeignTestAttributeUnchecked` shows a method the generator registers but GANDALF003 never checks.
- The generated registration line passes five arguments, `assembly, ns, class, method, call`. The `DiscoveredTest` constructor expects a uid first and file/line data after the callable. The model reproduces the text, not its compilability.
- `InjectAttribute` takes no constructor arguments and targets only parameters. The scoped-group rule therefore reports every `[ScopedGroup]` symbol whose `[Inject]` has no arguments (`ScopedGroupRule.ParameterlessInjectReported`). The rule runs on properties and parameters, while `ScopedGroupAttribute` targets properties and classes.
- An `[Ignore("")]` reason is empty, and the engine skips only tests with a non-empty reason, so such a test runs.
- An unsupported request raises `NotSupportedException` with a message naming the request *context's* type, not the request's.
- `ExtractCategoriesAndIgnore` is modelled as written, although the generator shown does not call it.
- Roslyn displays the global namespace as "<global namespace>", so a test class outside any namespace is called as `<global namespace>.Class`. The empty-namespace branch of the qualified type name is kept, but collected methods never reach it.

## Model

| member | source | states |
|---|---|---|
| Engine.Address | Src/Gandalf.Engine/GandalfTestingFramework.cs:112-115 | a notification is addressed to the session, carries the test's parent uid (null when it has none) and a node with the test's uid and method name |
| Engine.CategoryString | Src/Gandalf.Engine/GandalfTestingFramework.cs:174 | the category option is the value of "category", else of "CategoryOption", else of "TestingFrameworkCommandLineOptions:category", else null |
| Engine.CategoryFilter | Src/Gandalf.Engine/GandalfTestingFramework.cs:173-179 | the category allow-list is empty exactly when the option is null or blank |
| Engine.CategoryFilterParsing | Src/Gandalf.Engine/GandalfTestingFramework.cs:178 | for a set option, the untrimmed pieces join back with "," to the option text and none contains a comma |
| Engine.TestsToRun | Src/Gandalf.Engine/GandalfTestingFramework.cs:184-190 | the tests to run are registry tests of a configured assembly, no more than the registry holds, and with a non-empty allow-list each has an allowed category |
| Engine.SelectionSpec | Src/Gandalf.Engine/GandalfTestingFramework.cs:184-190 | the tests to run are the registry filtered in order; a test is selected iff it is registered, its assembly is a configured one, and the category list is empty or shares a category with it; with a category list, an uncategorised test is never selected |
| Engine.Skips | Src/Gandalf.Engine/GandalfTestingFramework.cs:192-210 | the dispatch loop publishes at most one notification per selected test, each a Skipped notification of the session |
| Engine.SkipsSpec | Src/Gandalf.Engine/GandalfTestingFramework.cs:192-208 | the dispatch loop publishes one Skipped notification per ignored test, in order, each carrying that test's reason |
| Engine.SkipsReport | Src/Gandalf.Engine/GandalfTestingFramework.cs:194-206 | every selected test with a non-empty ignore reason is reported Skipped with that reason |
| Engine.WorkOne | Src/Gandalf.Engine/GandalfTestingFramework.cs:80-161 | the worker invokes one test exactly when the uid filter admits it, publishing two notifications for it and none otherwise; in the model's clock the test ends no earlier than it starts |
| Engine.Work | Src/Gandalf.Engine/GandalfTestingFramework.cs:80-168 | draining a queue invokes at most its tests and publishes two notifications per invoked test; in the model's clock the final time is no earlier than the start |
| Engine.WorkSpec | Src/Gandalf.Engine/GandalfTestingFramework.cs:80-161 | the worker invokes exactly the queued tests the uid filter admits, in order; each gets an in-progress notification followed by one terminal one, Passed iff nothing was thrown, Failed with the exception otherwise, both with captured output and timing whose duration is end minus start; in the model's clock the final time is no earlier than the start |
| Engine.Execution | Src/Gandalf.Engine/GandalfTestingFramework.cs:76-220 | a run invokes at most the registry's tests and publishes the Skipped notifications plus two per invoked test; in the model's clock the final time is no earlier than the start |
| Engine.ExecutionInvokes | Src/Gandalf.Engine/GandalfTestingFramework.cs:82-87 | a test is invoked iff it is selected, not ignored, and admitted by the uid filter |
| Engine.SkippedRegardlessOfUidFilter | Src/Gandalf.Engine/GandalfTestingFramework.cs:192-209 | an ignored selected test is reported Skipped and never invoked, whatever the uid filter says |
| Engine.DiscoverySpec | Src/Gandalf.Engine/GandalfTestingFramework.cs:226-253 | discovery publishes one Discovered node per assembly-selected test, with no category filter, in registry order, addressed to its parent when it has one; each carries the test's uid, method name and file path |
| Engine.Discoveries | Src/Gandalf.Engine/GandalfTestingFramework.cs:228-254 | the discovery loop publishes exactly one notification per test, the k-th being the k-th test's node: a method identifier with arity 0, no parameter types and return type System.Threading.Tasks.Task, and its file location |
| Engine.ExecuteRequestContext.constructor | Src/Gandalf.Engine/GandalfTestingFramework.cs:50 | a request context starts with nothing published and no completion |
| Engine.ExecuteRequestContext.Publish | Src/Gandalf.Engine/GandalfTestingFramework.cs:113 | publishing appends one notification to the message bus and does not complete the request |
| Engine.ExecuteRequestContext.Complete | Src/Gandalf.Engine/GandalfTestingFramework.cs:218 | completing the request counts one completion and publishes nothing |
| Engine.TestHost.constructor | Src/Gandalf.Engine/GandalfTestingFramework.cs:80 | the host starts with its clock and the test bodies' behaviours, having invoked nothing |
| Engine.TestHost.UtcNow | Src/Gandalf.Engine/GandalfTestingFramework.cs:101 | reads the clock without changing it |
| Engine.TestHost.InvokeAsync | Src/Gandalf.Engine/GandalfTestingFramework.cs:127-131 | running a test body yields its behaviour, advances the clock by its elapsed time and records the invocation |
| Engine.GandalfTestingFramework.constructor | Src/Gandalf.Engine/GandalfTestingFramework.cs:22-32 | the framework keeps its configuration and the names of the test assemblies |
| Engine.GandalfTestingFramework.ExecuteRequest | Src/Gandalf.Engine/GandalfTestingFramework.cs:57-73 | discovery requests publish the discovered nodes and complete once; run requests publish the execution's notifications, invoke its tests and complete once; any other request raises NotSupportedException naming the context's type and changes nothing |
| Engine.GandalfTestingFramework.HandleTestExecution | Src/Gandalf.Engine/GandalfTestingFramework.cs:76-220 | a run publishes the Skipped notifications and then the worker's notifications, invokes the worker's tests, and completes the request exactly once |
| Engine.GandalfTestingFramework.ReadCategoryFilter | Src/Gandalf.Engine/GandalfTestingFramework.cs:173-179 | the category list read from the configuration is the parsed category option |
| Engine.GandalfTestingFramework.Dispatch | Src/Gandalf.Engine/GandalfTestingFramework.cs:192-210 | the skip loop publishes the Skipped notifications, queues exactly the tests that are not ignored, in order, and does not complete the request |
| Engine.GandalfTestingFramework.DrainQueue | Src/Gandalf.Engine/GandalfTestingFramework.cs:80-168 | draining the queue publishes, invokes and advances the clock exactly as the worker specification says |
| Engine.GandalfTestingFramework.RunTest | Src/Gandalf.Engine/GandalfTestingFramework.cs:80-161 | one test is dropped silently when the uid filter rejects it; otherwise it is reported in progress, invoked once and reported Passed or Failed, as the worker specification says |
| Engine.GandalfTestingFramework.HandleTestDiscovery | Src/Gandalf.Engine/GandalfTestingFramework.cs:222-260 | discovery publishes one node per assembly-selected test and completes the request exactly once |
| DependencyInjection.Instance.constructor | Src/Gandalf.Core/Helpers/TestDependencyInjection.cs:20 | a constructed instance belongs to the requested type |
| DependencyInjection.Registered | Src/Gandalf.Core/Helpers/TestDependencyInjection.cs:27-34 | registering keeps an existing entry, else adds exactly the given instance; other types' entries are unchanged and the key set grows by the type |
| DependencyInjection.FirstRegistrationWins | Src/Gandalf.Core/Helpers/TestDependencyInjection.cs:27-34 | a second registration of a type changes nothing, so the first instance stays |
| DependencyInjection.TestDependencyInjection.constructor | Src/Gandalf.Core/Helpers/TestDependencyInjection.cs:11 | the container starts empty, with the runtime's activation behaviour per type |
| DependencyInjection.Raises | Src/Gandalf.Core/Helpers/TestDependencyInjection.cs:39-51 | a missing parameterless constructor raises MissingMethodException, a constructor that throws raises TargetInvocationException, and construction or a Nullable type raises nothing |
| DependencyInjection.TestDependencyInjection.CreateInstance | Src/Gandalf.Core/Helpers/TestDependencyInjection.cs:20 | activation throws exactly when its behaviour raises, with that exception; a Nullable type gives null; otherwise a fresh instance of the type |
| DependencyInjection.TestDependencyInjection.RegisterDependency | Src/Gandalf.Core/Helpers/TestDependencyInjection.cs:16-22 | a registered type leaves the map unchanged; otherwise a throwing activation propagates its exception (MissingMethodException or TargetInvocationException) and stores nothing, a null activation stores null, and a constructed fresh instance is stored; other entries are kept |
| DependencyInjection.TestDependencyInjection.RegisterDependencyInstance | Src/Gandalf.Core/Helpers/TestDependencyInjection.cs:27-34 | no-op when the type is registered, else stores exactly the given instance |
| DependencyInjection.TestDependencyInjection.GetDependency | Src/Gandalf.Core/Helpers/TestDependencyInjection.cs:39-51 | returns the stored instance and leaves the map unchanged when present; otherwise a throwing activation propagates its exception and stores nothing, and a fresh instance is stored and returned; the null case is stated too, but the `class` constraint on `T` means it never occurs here |
| DependencyInjection.TestDependencyInjection.Reset | Src/Gandalf.Core/Helpers/TestDependencyInjection.cs:56-59 | clearing leaves no registrations |
| DependencyInjection.GetTwice | Src/Gandalf.Core/Helpers/TestDependencyInjection.cs:39-51 | two requests for one type return the same object, or both throw |
| DependencyInjection.GetAfterReset | Src/Gandalf.Core/Helpers/TestDependencyInjection.cs:47-59 | after Reset a request for a constructible type constructs a fresh instance, different from what was returned before |
| Registry.DiscoveredTests.constructor | Src/Gandalf.Core/Helpers/DiscoveredTests.cs:9 | the registry starts empty |
| Registry.DiscoveredTests.Register | Src/Gandalf.Core/Helpers/DiscoveredTests.cs:10-15 | registering appends the descriptor; All grows by one and earlier entries keep their values and order |
| Registry.RegisterDuplicate | Src/Gandalf.Core/Helpers/DiscoveredTests.cs:12-15 | two descriptors with the same uid are both kept, in order |
| Descriptor.NewDiscoveredTest | Src/Gandalf.Core/Models/DiscoveredTest.cs:35-73 | every argument is stored unchanged, a null or empty ignore reason included; null categories become the empty list |
| Descriptor.OmittedArgumentsDefault | Src/Gandalf.Core/Models/DiscoveredTest.cs:48-55 | omitted parameters, parent uid, categories and ignore reason leave the descriptor without them, with empty categories |
| Descriptor.HashTexts | Src/Gandalf.Core/Models/DiscoveredTest.cs:77 | a null parameter makes hashing fail; otherwise one decimal text per parameter, in order, each its hash code |
| Descriptor.FullName | Src/Gandalf.Core/Models/DiscoveredTest.cs:75-77 | the name fails with NullReferenceException exactly when a parameter is null |
| Descriptor.FullNameWithoutArguments | Src/Gandalf.Core/Models/DiscoveredTest.cs:75-77 | null parameters and an empty parameter array both give "Namespace.Class.Method()" |
| Descriptor.FullNameArguments | Src/Gandalf.Core/Models/DiscoveredTest.cs:75-77 | with non-null parameters, the text in parentheses splits on "." into one piece per parameter, and each piece parses back to that parameter's hash code |
| CodeHelpers.InjectedPropertiesSpec | Src/Gandalf.Engine.SourceGenerators/Helpers/SourceGenCodeHelpers.cs:11-15 | a property is injected iff it is a member carrying the full-named InjectAttribute |
| CodeHelpers.Lifetime | Src/Gandalf.Engine.SourceGenerators/Helpers/SourceGenCodeHelpers.cs:24-39 | no argument or a null one gives 0; an int gives itself; any other value gives its text parsed as an int, or 0 when that fails |
| CodeHelpers.PropertyReference | Src/Gandalf.Engine.SourceGenerators/Helpers/SourceGenCodeHelpers.cs:41-53 | lifetimes 1 and 2 give the property name with only its first character lower-cased; every other lifetime gives "new <type>()" |
| CodeHelpers.ReferenceNaming | Src/Gandalf.Engine.SourceGenerators/Helpers/SourceGenCodeHelpers.cs:48 | a scoped or singleton reference never starts with an upper-case letter, and equals the name when the name already does not |
| CodeHelpers.InitializerText | Src/Gandalf.Engine.SourceGenerators/Helpers/SourceGenCodeHelpers.cs:11-57 | the initializer is "()" exactly when there is no injected property, and otherwise is braced by " { " and " }" |
| CodeHelpers.InitializerEmpty | Src/Gandalf.Engine.SourceGenerators/Helpers/SourceGenCodeHelpers.cs:11-18 | the initializer is "()" iff no member is an injected property |
| CodeHelpers.BuildAssignment | Src/Gandalf.Engine.SourceGenerators/Helpers/SourceGenCodeHelpers.cs:23-55 | one property gives "Name = ref", with the lifetime read from its Inject attribute |
| CodeHelpers.BuildInjectedObjectInitializer | Src/Gandalf.Engine.SourceGenerators/Helpers/SourceGenCodeHelpers.cs:9-58 | "()" without injected properties, else " { " + the assignments in member order joined by ", " + " }" |
| CodeHelpers.DefaultArgument | Src/Gandalf.Engine.SourceGenerators/Helpers/SourceGenCodeHelpers.cs:72-87 | "\"\"" iff the type is string; "null" iff not string, not enum, and a reference type or type parameter; "default" otherwise |
| CodeHelpers.BuildCallArguments | Src/Gandalf.Engine.SourceGenerators/Helpers/SourceGenCodeHelpers.cs:60-91 | one entry per parameter, in order: the given argument where there is one, else the type's default; with enough arguments, exactly their prefix |
| AttributeHelpers.HasTestAttribute | Src/Gandalf.Engine.SourceGenerators/Helpers/SourceGenAttributeHelpers.cs:10-11 | true iff some attribute's full name is "Gandalf.Core.Attributes.TestAttribute" |
| AttributeHelpers.CategoryOf | Src/Gandalf.Engine.SourceGenerators/Helpers/SourceGenAttributeHelpers.cs:20-28 | a Category attribute with an argument contributes one category, "" for a null value; anything else contributes none |
| AttributeHelpers.Categories | Src/Gandalf.Engine.SourceGenerators/Helpers/SourceGenAttributeHelpers.cs:18-28 | no more categories than attributes |
| AttributeHelpers.CategoriesCount | Src/Gandalf.Engine.SourceGenerators/Helpers/SourceGenAttributeHelpers.cs:18-28 | there are exactly as many categories as Category attributes with an argument; there is no deduplication |
| AttributeHelpers.CategoriesMembership | Src/Gandalf.Engine.SourceGenerators/Helpers/SourceGenAttributeHelpers.cs:18-28 | a category is listed iff some attribute contributes it |
| AttributeHelpers.IgnoreAfter | Src/Gandalf.Engine.SourceGenerators/Helpers/SourceGenAttributeHelpers.cs:29-35 | attributes without Ignore leave the reason as it was; with one there is a reason afterwards |
| AttributeHelpers.IgnoreAfterLastWins | Src/Gandalf.Engine.SourceGenerators/Helpers/SourceGenAttributeHelpers.cs:29-35 | with an Ignore, the reason is that of the last Ignore: its string argument, else "Ignored" |
| AttributeHelpers.IgnoreAfterOverrides | Src/Gandalf.Engine.SourceGenerators/Helpers/SourceGenAttributeHelpers.cs:29-35 | with an Ignore, the earlier reason does not matter |
| AttributeHelpers.IgnoreReason | Src/Gandalf.Engine.SourceGenerators/Helpers/SourceGenAttributeHelpers.cs:16-57 | the reason is null iff neither the method nor its class carries Ignore |
| AttributeHelpers.IgnoreReasonSpec | Src/Gandalf.Engine.SourceGenerators/Helpers/SourceGenAttributeHelpers.cs:16-57 | a class-level Ignore overrides a method-level one |
| AttributeHelpers.ExtractCategoriesAndIgnore | Src/Gandalf.Engine.SourceGenerators/Helpers/SourceGenAttributeHelpers.cs:13-59 | the method's categories in order followed by the class's, and the ignore reason after both attribute loops |
| AttributeHelpers.VisitAttributes | Src/Gandalf.Engine.SourceGenerators/Helpers/SourceGenAttributeHelpers.cs:18-36 | one attribute loop appends the categories of its attributes in order and leaves the reason of the last Ignore among them, else the incoming reason |
| AttributeHelpers.VisitAttribute | Src/Gandalf.Engine.SourceGenerators/Helpers/SourceGenAttributeHelpers.cs:20-35 | one attribute appends its category when it is a Category attribute with an argument, and overwrites the reason when it is an Ignore attribute |
| AttributeHelpers.VisitStep | Src/Gandalf.Engine.SourceGenerators/Helpers/SourceGenAttributeHelpers.cs:18-36 | visiting one more attribute extends the categories and the reason by that attribute alone |
| SourceGenerator.Contribution | Src/Gandalf.Engine.SourceGenerators/TestMethodSourceGenerator.cs:29-41 | a resolved method with a short-named TestAttribute contributes one entry with its assembly, namespace, class, name and staticness; others contribute none |
| SourceGenerator.TestMethods | Src/Gandalf.Engine.SourceGenerators/TestMethodSourceGenerator.cs:27-42 | no more entries than method declarations |
| SourceGenerator.TestMethodsAppend | Src/Gandalf.Engine.SourceGenerators/TestMethodSourceGenerator.cs:27-42 | collection distributes over concatenation, so input order is kept |
| SourceGenerator.TestMethodsCount | Src/Gandalf.Engine.SourceGenerators/TestMethodSourceGenerator.cs:27-42 | one entry per test declaration |
| SourceGenerator.TestMethodsMembership | Src/Gandalf.Engine.SourceGenerators/TestMethodSourceGenerator.cs:27-42 | an entry is collected iff some input method is a test declaration that it describes |
| SourceGenerator.CollectTestMethods | Src/Gandalf.Engine.SourceGenerators/TestMethodSourceGenerator.cs:25-42 | the collection loop skips unresolved and non-test methods and collects the rest in order |
| SourceGenerator.RenderedAppend | Src/Gandalf.Engine.SourceGenerators/TestMethodSourceGenerator.cs:48-72 | rendering lines distributes over concatenation |
| SourceGenerator.SplitRendered | Src/Gandalf.Engine.SourceGenerators/TestMethodSourceGenerator.cs:48-75 | with a one-character line terminator absent from every line, splitting the text on it gives back the lines and a final empty piece |
| SourceGenerator.StringBuilder.constructor | Src/Gandalf.Engine.SourceGenerators/TestMethodSourceGenerator.cs:48 | a new builder holds no lines |
| SourceGenerator.StringBuilder.AppendLine | Src/Gandalf.Engine.SourceGenerators/TestMethodSourceGenerator.cs:49 | appending a line adds exactly that line, and the text stays the rendering of the lines |
| SourceGenerator.StringBuilder.AppendEmptyLine | Src/Gandalf.Engine.SourceGenerators/TestMethodSourceGenerator.cs:54 | appends one empty line |
| SourceGenerator.SafeClassName | Src/Gandalf.Engine.SourceGenerators/TestMethodSourceGenerator.cs:45 | the class name is the assembly name with every '.' replaced by '_' plus "DiscoveredTests": 15 characters longer, with no '.' and the other characters kept |
| SourceGenerator.QualifiedTypeParts | Src/Gandalf.Engine.SourceGenerators/TestMethodSourceGenerator.cs:64 | the qualified type is the class name for an empty namespace, else namespace, '.', class |
| SourceGenerator.GeneratedLines | Src/Gandalf.Engine.SourceGenerators/TestMethodSourceGenerator.cs:49-72 | the file has 13 header lines, one line per test method and 3 closing lines |
| SourceGenerator.GeneratedDeclarations | Src/Gandalf.Engine.SourceGenerators/TestMethodSourceGenerator.cs:55-57 | the namespace is the raw assembly name and the class is the safe class name |
| SourceGenerator.GeneratedRegistration | Src/Gandalf.Engine.SourceGenerators/TestMethodSourceGenerator.cs:62-69 | line 13 + k is the registration of the k-th test method |
| SourceGenerator.GeneratedFooter | Src/Gandalf.Engine.SourceGenerators/TestMethodSourceGenerator.cs:70-72 | the file ends with the closing braces of Initialize, the class and the namespace |
| SourceGenerator.RegisterLine | Src/Gandalf.Engine.SourceGenerators/TestMethodSourceGenerator.cs:64-68 | each registration line starts with the DiscoveredTests.Register prefix |
| SourceGenerator.RegistrationLines | Src/Gandalf.Engine.SourceGenerators/TestMethodSourceGenerator.cs:59-70 | a line is a registration iff it is one of the per-method lines, so exactly one registration is emitted per collected method |
| SourceGenerator.DiffersFromRegistration | Src/Gandalf.Engine.SourceGenerators/TestMethodSourceGenerator.cs:68 | a line that differs from the registration prefix at some position is not a registration |
| SourceGenerator.HeaderNotRegistration | Src/Gandalf.Engine.SourceGenerators/TestMethodSourceGenerator.cs:49-61 | no header line is a registration |
| SourceGenerator.FooterNotRegistration | Src/Gandalf.Engine.SourceGenerators/TestMethodSourceGenerator.cs:70-72 | no closing line is a registration |
| SourceGenerator.EmitSource | Src/Gandalf.Engine.SourceGenerators/TestMethodSourceGenerator.cs:44-75 | the file name is "{assembly}.DiscoveredTests.g.cs", with "UnknownAssembly" for a missing name, and the text is the generated lines, each ended by the newline |
| SourceGenerator.AppendUsings | Src/Gandalf.Engine.SourceGenerators/TestMethodSourceGenerator.cs:49-54 | an empty builder receives the comment, the four usings and a blank line |
| SourceGenerator.AppendOpening | Src/Gandalf.Engine.SourceGenerators/TestMethodSourceGenerator.cs:55-61 | the builder receives the namespace, class and Initialize openings |
| SourceGenerator.AppendRegistrations | Src/Gandalf.Engine.SourceGenerators/TestMethodSourceGenerator.cs:62-69 | the builder receives one registration line per test method, in order |
| SourceGenerator.BuildRegisterLine | Src/Gandalf.Engine.SourceGenerators/TestMethodSourceGenerator.cs:64-68 | the registration line for one test method, with a static or an instance call |
| SourceGenerator.AppendFooter | Src/Gandalf.Engine.SourceGenerators/TestMethodSourceGenerator.cs:70-72 | the builder receives the three closing braces |
| SourceGenerator.GenerateSource | Src/Gandalf.Engine.SourceGenerators/TestMethodSourceGenerator.cs:22-76 | the whole output step: collect the test methods, then emit their registration file |
| ArgumentCountRule.Check | Src/Gandalf.Analyzers/Rules/ArgumentAttributeAnalyzer.cs:42-61 | one diagnostic iff the attribute binds to ArgumentAttribute and its argument count, 0 without a list, differs from the parameter count |
| ArgumentCountRule.AnalyzeMethod | Src/Gandalf.Analyzers/Rules/ArgumentAttributeAnalyzer.cs:31-64 | the nested loops report, in attribute order, exactly what each attribute's check reports; nothing for an unresolved method |
| ArgumentCountRule.ReportsMembership | Src/Gandalf.Analyzers/Rules/ArgumentAttributeAnalyzer.cs:34-62 | a diagnostic is reported iff the method resolves and some Argument attribute on it mismatches; it is at that attribute and carries both counts |
| ArgumentCountRule.Reports | Src/Gandalf.Analyzers/Rules/ArgumentAttributeAnalyzer.cs:31-64 | nothing for an unresolved method; otherwise one diagnostic per mismatching Argument attribute |
| ArgumentTypeRule.PositionReports | Src/Gandalf.Analyzers/Rules/ArgumentAttributeTypeAnalyzer.cs:55-72 | checking k positions reports at most k diagnostics |
| ArgumentTypeRule.CheckedPositions | Src/Gandalf.Analyzers/Rules/ArgumentAttributeTypeAnalyzer.cs:55 | the checked positions stop at the shorter of the argument and parameter lists |
| ArgumentTypeRule.Check | Src/Gandalf.Analyzers/Rules/ArgumentAttributeTypeAnalyzer.cs:42-72 | nothing for a non-Argument or list-less attribute; at most one GANDALF002 diagnostic per checked position |
| ArgumentTypeRule.Reports | Src/Gandalf.Analyzers/Rules/ArgumentAttributeTypeAnalyzer.cs:31-75 | nothing for an unresolved method; every diagnostic is GANDALF002 |
| ArgumentTypeRule.AnalyzeMethod | Src/Gandalf.Analyzers/Rules/ArgumentAttributeTypeAnalyzer.cs:31-75 | the nested loops report, in attribute and position order, exactly what each attribute's check reports; nothing for an unresolved method |
| ArgumentTypeRule.CheckAttribute | Src/Gandalf.Analyzers/Rules/ArgumentAttributeTypeAnalyzer.cs:42-72 | the positional loop reports the rejected positions of one Argument attribute; unresolved, non-Argument and list-less attributes report nothing |
| ArgumentTypeRule.PositionReportsMembership | Src/Gandalf.Analyzers/Rules/ArgumentAttributeTypeAnalyzer.cs:55-71 | position i is reported iff i is checked and its argument type is unknown or not implicitly convertible; the diagnostic carries i + 1, the type or "unknown", and the parameter type |
| ArgumentTypeRule.CheckSpec | Src/Gandalf.Analyzers/Rules/ArgumentAttributeTypeAnalyzer.cs:46-72 | an attribute reports iff it is an Argument attribute with a list and some position below both lengths is rejected |
| ArgumentTypeRule.ReportsMembership | Src/Gandalf.Analyzers/Rules/ArgumentAttributeTypeAnalyzer.cs:34-74 | a diagnostic is reported iff the method resolves and one of its attributes reports it |
| InjectPropertyRule.Reports | Src/Gandalf.Analyzers/Rules/InjectAttributeAnalyzer.cs:60-64 | at most one diagnostic per property |
| InjectPropertyRule.AnalyzeProperty | Src/Gandalf.Analyzers/Rules/InjectAttributeAnalyzer.cs:31-65 | the accessor loop finds get and init wherever they appear, and the property is reported as the rule says |
| InjectPropertyRule.AlwaysReported | Src/Gandalf.Analyzers/Rules/InjectAttributeAnalyzer.cs:47-64 | an injected property without an accessor list, or not required, is reported with its name |
| InjectPropertyRule.ReportedIff | Src/Gandalf.Analyzers/Rules/InjectAttributeAnalyzer.cs:34-64 | reported iff resolved, carrying a short-named InjectAttribute, and lacking `required`, an accessor list, a get or an init accessor |
| ReturnTaskRule.AnalyzeMethod | Src/Gandalf.Analyzers/Rules/TestsReturnTasksAnalyzer.cs:32-56 | at most one diagnostic; reported iff the method resolves, has the full-named Test attribute and does not return exactly System.Threading.Tasks.Task; it is at the identifier and names the method |
| ReturnTaskRule.GenericTaskReported | Src/Gandalf.Analyzers/Rules/TestsReturnTasksAnalyzer.cs:47-48 | a test returning Task<int> or ValueTask is reported |
| ReturnTaskRule.ForeignTestAttributeUnchecked | Src/Gandalf.Analyzers/Rules/TestsReturnTasksAnalyzer.cs:40-44 | a method whose only attribute is some other TestAttribute is collected by the generator but not checked by this rule |
| ScopedGroupRule.AnalyzeSymbol | Src/Gandalf.Analyzers/Rules/ScopedGroupAttributeAnalyzer.cs:35-55 | at most one diagnostic, at the symbol's first location |
| ScopedGroupRule.AcceptedIff | Src/Gandalf.Analyzers/Rules/ScopedGroupAttributeAnalyzer.cs:38-52 | nothing is reported iff the symbol has no ScopedGroup attribute, or its first Inject attribute has exactly one argument, the int 1 (Scoped) |
| ScopedGroupRule.ParameterlessInjectReported | Src/Gandalf.Analyzers/Rules/ScopedGroupAttributeAnalyzer.cs:42-54 | a ScopedGroup symbol whose Inject attributes take no arguments, as InjectAttribute's declaration forces, is always reported |
| Text.ToLowerInvariant | Src/Gandalf.Engine.SourceGenerators/Helpers/SourceGenCodeHelpers.cs:48 | A-Z and the Latin-1 capitals U+00C0-U+00DE except U+00D7 map to lower case; every other character is kept |
| Text.SplitJoin | Src/Gandalf.Engine/GandalfTestingFramework.cs:178 | joining comma-free pieces and splitting again gives the pieces back |
| Text.JoinSplit | Src/Gandalf.Engine/GandalfTestingFramework.cs:178 | splitting and joining again gives the text back |
| Text.ParseOfToString | Src/Gandalf.Engine.SourceGenerators/Helpers/SourceGenCodeHelpers.cs:31 | int.TryParse reads back every 32-bit integer's decimal text |
| Text.IntToString | Src/Gandalf.Core/Models/DiscoveredTest.cs:77 | a "-" exactly for a negative value, followed by the decimal digits of its magnitude |
| Text.TryParseInt32 | Src/Gandalf.Engine.SourceGenerators/Helpers/SourceGenCodeHelpers.cs:31 | a non-empty run of digits within int range parses to its value; a successful parse saw a digit |
| Text.ReplaceChar | Src/Gandalf.Engine.SourceGenerators/TestMethodSourceGenerator.cs:45 | replacing a character keeps the length and changes exactly the occurrences |

## Left out

- The `ActionBlock` worker (default parallelism 1) is modelled as a sequential loop that runs after the dispatch loop. The worker's notifications may interleave with the dispatch loop's Skipped notifications; this is not modelled.
- I/O and ambient state are not modelled: the output device, the logger, `Console.SetOut`, `AsyncLocalTextWriter`, `CurrentTest` and `TestContext`. A test's captured output is part of its given behaviour.
- The message bus is a list of published notifications.
- The framework's `Uid`, `Version`, `DisplayName`, `Description`, `DataTypesProduced` and the session open/close calls are constants with nothing to prove.
- A null `_configuration` is not modelled; the configuration is a map, and an absent key reads as null.
- `TestFramework.cs`, `Program.cs`, `TestingFrameworkExtensions.cs` and `TestServiceProvider.cs` are host wiring and are not part of this model. So is an older, unused engine.
- The attribute classes are data holders. Their declarations are used only as evidence.
- The generated code's scope and group caches, which `[Inject(Scoped)]` relies on, are not shown in the source. They are not modelled.
- The Roslyn pipeline is not modelled: syntax providers, `Initialize` registrations, `ClassifyConversion` (a parameter) and `ToDisplayString` (a given string). Diagnostic reporting is the returned list of diagnostics.
- `Activator.CreateInstance`, `GetHashCode` and `DateTimeOffset.UtcNow` are abstract: a given activation behaviour per type, a given function and a clock advanced by each test body.
- Engine.WorkOne: the clock is modelled as monotone and advancing only inside test bodies, by a non-negative elapsed time. `DateTimeOffset.UtcNow` is a wall clock: it can step back between the start and end readings, giving a negative duration, and it moves between tests. So "ends no earlier than it starts" holds of the model, not of the source.
- Engine.Work: the same clock abstraction as for Engine.WorkOne; the final time is no earlier than the start only in the model.
- Engine.WorkSpec: the same clock abstraction as for Engine.WorkOne; the final time is no earlier than the start only in the model.
- Engine.Execution: the same clock abstraction as for Engine.WorkOne; the final time is no earlier than the start only in the model.
- Descriptor.FullName: `string.Join` formats each hash code with the current culture's negative sign, while the model always writes "-".
- Text.TryParseInt32: trailing NUL characters, which .NET's `int.TryParse` also accepts, are not modelled.
- Text.ToLowerInvariant: lowers A-Z and the Latin-1 capitals U+00C0-U+00DE except U+00D7; every other capital that `char.ToLowerInvariant` lowers (Latin Extended, Greek, Cyrillic and others) is kept.
- CodeHelpers.PropertyReference: an empty property name is not modelled, because an identifier is never empty.
- `Environment.NewLine` is a parameter of the generator.
- The `StringBuilder` offers only the two `AppendLine` forms the generator uses.
- `RegisterSourceOutput` and `AddSource` are not modelled; the output is the returned file name and text.
