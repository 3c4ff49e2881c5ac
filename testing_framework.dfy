/** The test engine: request dispatch, test selection, skipping, and the notifications a run
    and a discovery publish on the message bus. The worker pool runs sequentially here: the
    ignored tests are reported while the queue is filled, then the queue is drained in order. */
module Engine {
  import opened Wrappers
  import opened Text
  import opened Seqs
  import opened Descriptor
  import Registry

  // ---------------------------------------------------------------------------
  // Requests and notifications

  /** The filter a request carries; only a uid list is interpreted. */
  datatype TestExecutionFilter = NoFilter | TestNodeUidListFilter(testNodeUids: seq<string>) | OtherFilter

  datatype Request =
    | DiscoverTestExecutionRequest(sessionUid: string, filter: TestExecutionFilter)
    | RunTestExecutionRequest(sessionUid: string, filter: TestExecutionFilter)
    | OtherRequest(requestType: string)

  datatype RequestOutcome = Handled | NotSupportedException(message: string)

  datatype TimingInfo = TimingInfo(startTime: int, endTime: int, duration: int)

  /** `TestMethodIdentifierProperty`. */
  datatype MethodIdentifier = MethodIdentifier(
    assembly: string, ns: string, typeName: string, methodName: string,
    methodArity: int, parameterTypeFullNames: seq<string>, returnTypeFullName: string)

  /** `TestFileLocationProperty`. */
  datatype FileLocation = FileLocation(
    filePath: Option<string>, line: int32, column: int32, endLine: int32, endColumn: int32)

  /** The state property a published test node carries, with the properties that go with it. */
  datatype NodeState =
    | Discovered(identifier: MethodIdentifier, location: FileLocation)
    | InProgress
    | Passed(timing: TimingInfo, standardOutput: string)
    | Failed(error: string, timing: TimingInfo, standardOutput: string)
    | Skipped(reason: string)

  datatype TestNode = TestNode(uid: string, displayName: string, state: NodeState)

  /** `TestNodeUpdateMessage`: the session, the node, and the parent uid it is filed under. */
  datatype Notification = TestNodeUpdateMessage(sessionUid: string, node: TestNode, parentUid: Option<string>)

  /** What running a test body does: how long it takes, what it writes to the console, and
      the exception it throws, if any. The clock is an abstraction of the wall clock: it
      advances only while a test body runs, and never goes back. */
  datatype Behaviour = Behaviour(elapsed: nat, output: string, error: Option<string>)

  /** The node for `test` in `state`, filed under its parent when it has one. */
  function Address(session: string, test: DiscoveredTest, state: NodeState): (n: Notification)
    ensures n.sessionUid == session && n.parentUid == test.parentUid
    ensures n.node == TestNode(test.uid, test.methodName, state)
  {
    TestNodeUpdateMessage(session, TestNode(test.uid, test.methodName, state), test.parentUid)
  }

  // ---------------------------------------------------------------------------
  // Selection

  /** `_configuration[key]`, null when the key is absent. */
  function Lookup(configuration: map<string, string>, key: string): Option<string> {
    if key in configuration then Some(configuration[key]) else None
  }

  /** The category option: the first of the three configuration keys that is set. */
  function CategoryString(configuration: map<string, string>): (r: Option<string>)
    ensures "category" in configuration ==> r == Some(configuration["category"])
    ensures "category" !in configuration && "CategoryOption" in configuration ==>
              r == Some(configuration["CategoryOption"])
    ensures "category" !in configuration && "CategoryOption" !in configuration ==>
              r == Lookup(configuration, "TestingFrameworkCommandLineOptions:category")
  {
    OrElse(Lookup(configuration, "category"),
           OrElse(Lookup(configuration, "CategoryOption"),
                  Lookup(configuration, "TestingFrameworkCommandLineOptions:category")))
  }

  /** The category allow-list: empty for a null or blank option, else its comma-separated pieces. */
  function CategoryFilter(configuration: map<string, string>): (r: seq<string>)
    ensures |r| == 0 <==> IsNullOrWhiteSpace(CategoryString(configuration))
  {
    var catStr := CategoryString(configuration);
    if IsNullOrWhiteSpace(catStr) then [] else Split(catStr.value, ',')
  }

  /** For a set option, the allow-list's pieces, untrimmed, join back to the option text, and
      none holds a comma. */
  lemma CategoryFilterParsing(configuration: map<string, string>)
    ensures !IsNullOrWhiteSpace(CategoryString(configuration)) ==>
              Join(",", CategoryFilter(configuration)) == CategoryString(configuration).value
    ensures forall i :: 0 <= i < |CategoryFilter(configuration)| ==> ',' !in CategoryFilter(configuration)[i]
  {
    var catStr := CategoryString(configuration);
    if !IsNullOrWhiteSpace(catStr) {
      JoinSplit(catStr.value, ',');
      SplitPiecesFree(catStr.value, ',');
    }
  }

  /** `_assemblies.Any(assembly => assembly.GetName().Name == test.Assembly)`. */
  predicate InAssemblies(test: DiscoveredTest, assemblyNames: seq<string>) {
    test.assembly in assemblyNames
  }

  /** `t.Categories.Any(cat => categoryFilter.Contains(cat))`. */
  predicate MatchesCategories(test: DiscoveredTest, categoryFilter: seq<string>) {
    exists c :: c in test.categories && c in categoryFilter
  }

  function SelectAssemblies(tests: seq<DiscoveredTest>, assemblyNames: seq<string>): seq<DiscoveredTest> {
    Filter(tests, t => InAssemblies(t, assemblyNames))
  }

  function SelectCategories(tests: seq<DiscoveredTest>, categoryFilter: seq<string>): seq<DiscoveredTest> {
    Filter(tests, t => MatchesCategories(t, categoryFilter))
  }

  /** `testsToRun`: the tests of the configured assemblies, then, for a non-empty allow-list,
      those with an allowed category. */
  function TestsToRun(all: seq<DiscoveredTest>, assemblyNames: seq<string>, categoryFilter: seq<string>): (r: seq<DiscoveredTest>)
    ensures |r| <= |all|
    ensures forall t :: t in r ==> t in all && InAssemblies(t, assemblyNames)
    ensures |categoryFilter| > 0 ==> forall t :: t in r ==> MatchesCategories(t, categoryFilter)
  {
    var inAssemblies := SelectAssemblies(all, assemblyNames);
    if |categoryFilter| > 0 then SelectCategories(inAssemblies, categoryFilter) else inAssemblies
  }

  /** Whether a test passes both selection steps. */
  function SelectedBy(assemblyNames: seq<string>, categoryFilter: seq<string>): DiscoveredTest -> bool {
    t => InAssemblies(t, assemblyNames) && (|categoryFilter| == 0 || MatchesCategories(t, categoryFilter))
  }

  /** Selection keeps, in their registration order, exactly the tests of a configured assembly
      that (when a category allow-list is given) carry an allowed category; so a test without
      categories is dropped by a non-empty allow-list. */
  lemma SelectionSpec(all: seq<DiscoveredTest>, assemblyNames: seq<string>, categoryFilter: seq<string>, t: DiscoveredTest)
    ensures TestsToRun(all, assemblyNames, categoryFilter) == Filter(all, SelectedBy(assemblyNames, categoryFilter))
    ensures t in TestsToRun(all, assemblyNames, categoryFilter) <==>
              t in all && InAssemblies(t, assemblyNames) &&
              (|categoryFilter| == 0 || MatchesCategories(t, categoryFilter))
    ensures |categoryFilter| > 0 && t.categories == [] ==> t !in TestsToRun(all, assemblyNames, categoryFilter)
  {
    var byAssembly: DiscoveredTest -> bool := t => InAssemblies(t, assemblyNames);
    var selected := SelectedBy(assemblyNames, categoryFilter);
    if |categoryFilter| > 0 {
      FilterFilter(all, byAssembly, t => MatchesCategories(t, categoryFilter), selected);
    } else {
      FilterFilter(all, byAssembly, _ => true, selected);
      FilterAll(Filter(all, byAssembly), _ => true);
    }
    FilterMembership(all, selected, t);
  }

  // ---------------------------------------------------------------------------
  // Skipping

  /** A non-empty ignore reason. */
  predicate IsIgnored(test: DiscoveredTest) {
    !IsNullOrEmpty(test.ignoreReason)
  }

  predicate NotIgnored(test: DiscoveredTest) {
    !IsIgnored(test)
  }

  /** The Skipped notifications the dispatch loop publishes for `tests`, in order. */
  function Skips(session: string, tests: seq<DiscoveredTest>): (r: seq<Notification>)
    ensures |r| <= |tests|
    ensures forall n :: n in r ==> n.sessionUid == session && n.node.state.Skipped?
  {
    if |tests| == 0 then [] else
      var last := tests[|tests| - 1];
      Skips(session, tests[..|tests| - 1]) +
        (if IsIgnored(last) then [Address(session, last, Skipped(last.ignoreReason.value))] else [])
  }

  /** One Skipped notification per ignored test, in order, carrying its reason. */
  lemma {:induction false} SkipsSpec(session: string, tests: seq<DiscoveredTest>)
    ensures var ignored := Filter(tests, IsIgnored);
            |Skips(session, tests)| == |ignored| &&
            forall k :: 0 <= k < |ignored| ==>
              IsIgnored(ignored[k]) &&
              Skips(session, tests)[k] == Address(session, ignored[k], Skipped(ignored[k].ignoreReason.value))
  {
    if |tests| > 0 {
      SkipsSpec(session, tests[..|tests| - 1]);
    }
  }

  /** Every ignored selected test is reported Skipped. */
  lemma {:induction false} SkipsReport(session: string, tests: seq<DiscoveredTest>, t: DiscoveredTest)
    requires t in tests && IsIgnored(t)
    ensures Address(session, t, Skipped(t.ignoreReason.value)) in Skips(session, tests)
  {
    var init := tests[..|tests| - 1];
    if tests[|tests| - 1] != t {
      assert t in init by {
        var i :| 0 <= i < |tests| && tests[i] == t;
        assert init[i] == t;
      }
      SkipsReport(session, init, t);
    }
  }

  // ---------------------------------------------------------------------------
  // The worker

  /** The uid filter admits the test (no uid-list filter admits every test). */
  predicate Admits(filter: TestExecutionFilter, test: DiscoveredTest) {
    filter.TestNodeUidListFilter? ==> test.uid in filter.testNodeUids
  }

  function AdmittedBy(filter: TestExecutionFilter): DiscoveredTest -> bool {
    t => Admits(filter, t)
  }

  /** The terminal state of a finished invocation. */
  function Outcome(b: Behaviour, timing: TimingInfo): NodeState {
    if b.error.None? then Passed(timing, b.output) else Failed(b.error.value, timing, b.output)
  }

  /** What the worker publishes and invokes, and the clock after it. */
  datatype WorkResult = WorkResult(notes: seq<Notification>, invoked: seq<DiscoveredTest>, now: int)

  /** One test in the worker, starting at clock `now`. */
  function WorkOne(session: string, filter: TestExecutionFilter, test: DiscoveredTest,
                   behaviourOf: Callable -> Behaviour, now: int): (r: WorkResult)
    ensures r.invoked == (if Admits(filter, test) then [test] else [])
    ensures |r.notes| == 2 * |r.invoked| && r.now >= now
  {
    if !Admits(filter, test) then WorkResult([], [], now) else
      var b := behaviourOf(test.invokeAsync);
      var endTime := now + b.elapsed;
      var timing := TimingInfo(now, endTime, endTime - now);
      WorkResult([Address(session, test, InProgress), Address(session, test, Outcome(b, timing))], [test], endTime)
  }

  /** The worker draining `queue` in order, starting at clock `now`. */
  function Work(session: string, filter: TestExecutionFilter, queue: seq<DiscoveredTest>,
                behaviourOf: Callable -> Behaviour, now: int): (r: WorkResult)
    ensures |r.invoked| <= |queue| && |r.notes| == 2 * |r.invoked| && r.now >= now
  {
    if |queue| == 0 then WorkResult([], [], now) else
      var w := Work(session, filter, queue[..|queue| - 1], behaviourOf, now);
      var s := WorkOne(session, filter, queue[|queue| - 1], behaviourOf, w.now);
      WorkResult(w.notes + s.notes, w.invoked + s.invoked, s.now)
  }

  /** `n` is the terminal notification of `test` for an invocation that behaved as `b`:
      Passed exactly when nothing was thrown, Failed with the exception otherwise, both with
      the captured output and a timing whose duration is end minus start. */
  predicate ReportsOutcome(n: Notification, session: string, test: DiscoveredTest, b: Behaviour) {
    && n.sessionUid == session && n.parentUid == test.parentUid
    && n.node.uid == test.uid && n.node.displayName == test.methodName
    && (n.node.state.Passed? || n.node.state.Failed?)
    && (n.node.state.Passed? <==> b.error.None?)
    && (n.node.state.Failed? ==> n.node.state.error == b.error.value)
    && n.node.state.standardOutput == b.output
    && n.node.state.timing.duration == n.node.state.timing.endTime - n.node.state.timing.startTime == b.elapsed
  }

  /** The worker invokes exactly the admitted tests, in queue order; for each it publishes an
      in-progress notification followed by exactly one terminal one; the clock never goes back. */
  lemma {:induction false} WorkSpec(session: string, filter: TestExecutionFilter, queue: seq<DiscoveredTest>,
                                    behaviourOf: Callable -> Behaviour, now: int)
    ensures var w := Work(session, filter, queue, behaviourOf, now);
            && w.invoked == Filter(queue, AdmittedBy(filter))
            && |w.notes| == 2 * |w.invoked|
            && w.now >= now
            && forall k :: 0 <= k < |w.invoked| ==>
                 && w.notes[2 * k] == Address(session, w.invoked[k], InProgress)
                 && ReportsOutcome(w.notes[2 * k + 1], session, w.invoked[k], behaviourOf(w.invoked[k].invokeAsync))
  {
    if |queue| > 0 {
      var init := queue[..|queue| - 1];
      var last := queue[|queue| - 1];
      WorkSpec(session, filter, init, behaviourOf, now);
      var w0 := Work(session, filter, init, behaviourOf, now);
      var s := WorkOne(session, filter, last, behaviourOf, w0.now);
      var w := Work(session, filter, queue, behaviourOf, now);
      assert w.notes == w0.notes + s.notes && w.invoked == w0.invoked + s.invoked;
      forall k | 0 <= k < |w.invoked|
        ensures w.notes[2 * k] == Address(session, w.invoked[k], InProgress)
        ensures ReportsOutcome(w.notes[2 * k + 1], session, w.invoked[k], behaviourOf(w.invoked[k].invokeAsync))
      {
        if k < |w0.invoked| {
          assert w.invoked[k] == w0.invoked[k];
          assert w.notes[2 * k] == w0.notes[2 * k] && w.notes[2 * k + 1] == w0.notes[2 * k + 1];
        } else {
          assert w.invoked[k] == last;
          assert w.notes[2 * k] == s.notes[0] && w.notes[2 * k + 1] == s.notes[1];
        }
      }
    }
  }

  // ---------------------------------------------------------------------------
  // A whole run and a whole discovery

  /** The notifications a run request publishes, the tests it invokes, and the final clock. */
  function Execution(session: string, filter: TestExecutionFilter, all: seq<DiscoveredTest>,
                     assemblyNames: seq<string>, configuration: map<string, string>,
                     behaviourOf: Callable -> Behaviour, now: int): (r: WorkResult)
    ensures |r.invoked| <= |all| && r.now >= now
    ensures |r.notes| == |Skips(session, TestsToRun(all, assemblyNames, CategoryFilter(configuration)))| + 2 * |r.invoked|
  {
    var tests := TestsToRun(all, assemblyNames, CategoryFilter(configuration));
    var w := Work(session, filter, Filter(tests, NotIgnored), behaviourOf, now);
    WorkResult(Skips(session, tests) + w.notes, w.invoked, w.now)
  }

  /** A selected test is invoked exactly when it is not ignored and the uid filter admits it;
      an ignored test is never invoked. */
  lemma ExecutionInvokes(session: string, filter: TestExecutionFilter, all: seq<DiscoveredTest>,
                         assemblyNames: seq<string>, configuration: map<string, string>,
                         behaviourOf: Callable -> Behaviour, now: int, t: DiscoveredTest)
    ensures var tests := TestsToRun(all, assemblyNames, CategoryFilter(configuration));
            t in Execution(session, filter, all, assemblyNames, configuration, behaviourOf, now).invoked <==>
              t in tests && !IsIgnored(t) && Admits(filter, t)
  {
    var tests := TestsToRun(all, assemblyNames, CategoryFilter(configuration));
    var queue := Filter(tests, NotIgnored);
    WorkSpec(session, filter, queue, behaviourOf, now);
    FilterMembership(queue, AdmittedBy(filter), t);
    FilterMembership(tests, NotIgnored, t);
  }

  /** An ignored selected test is reported Skipped whatever the uid filter says: the uid filter
      is applied only to the tests handed to the worker. */
  lemma SkippedRegardlessOfUidFilter(session: string, filter: TestExecutionFilter, all: seq<DiscoveredTest>,
                                     assemblyNames: seq<string>, configuration: map<string, string>,
                                     behaviourOf: Callable -> Behaviour, now: int, t: DiscoveredTest)
    requires t in TestsToRun(all, assemblyNames, CategoryFilter(configuration)) && IsIgnored(t)
    ensures Address(session, t, Skipped(t.ignoreReason.value)) in
              Execution(session, filter, all, assemblyNames, configuration, behaviourOf, now).notes
    ensures t !in Execution(session, filter, all, assemblyNames, configuration, behaviourOf, now).invoked
  {
    SkipsReport(session, TestsToRun(all, assemblyNames, CategoryFilter(configuration)), t);
    ExecutionInvokes(session, filter, all, assemblyNames, configuration, behaviourOf, now, t);
  }

  /** The node a discovery publishes for a test. */
  function DiscoveredNode(session: string, test: DiscoveredTest): Notification {
    Address(session, test, Discovered(
      MethodIdentifier(test.assembly, test.ns, test.className, test.methodName, 0, [], "System.Threading.Tasks.Task"),
      FileLocation(test.filePath, test.lineNumber, test.linePosition, test.endLineNumber, test.endLinePosition)))
  }

  /** The notifications a discovery publishes for `tests`, in order. */
  function Discoveries(session: string, tests: seq<DiscoveredTest>): (r: seq<Notification>)
    ensures |r| == |tests|
    ensures forall k :: 0 <= k < |tests| ==> r[k] == DiscoveredNode(session, tests[k])
  {
    if |tests| == 0 then [] else
      var init := tests[..|tests| - 1];
      var r := Discoveries(session, init) + [DiscoveredNode(session, tests[|tests| - 1])];
      assert forall k :: 0 <= k < |init| ==> tests[k] == init[k];
      r
  }

  /** Discovery publishes one Discovered node per test of a configured assembly, in order, filed
      under its parent when it has one; no category filter applies. */
  lemma {:induction false} DiscoverySpec(session: string, all: seq<DiscoveredTest>, assemblyNames: seq<string>)
    ensures var found := SelectAssemblies(all, assemblyNames);
            var notes := Discoveries(session, found);
            |notes| == |found| &&
            forall k :: 0 <= k < |found| ==>
              && notes[k].sessionUid == session && notes[k].parentUid == found[k].parentUid
              && notes[k].node.uid == found[k].uid && notes[k].node.displayName == found[k].methodName
              && notes[k].node.state.Discovered?
              && notes[k].node.state.identifier.methodName == found[k].methodName
              && notes[k].node.state.location.filePath == found[k].filePath
  {
  }

  // ---------------------------------------------------------------------------
  // The imperative engine

  /** The request context: its message bus and the number of `Complete()` calls. */
  class ExecuteRequestContext {
    /** The run-time type name of the context object. */
    const runtimeType: string
    var published: seq<Notification>
    var completions: nat

    constructor (runtimeType: string)
      ensures this.runtimeType == runtimeType && published == [] && completions == 0
    {
      this.runtimeType := runtimeType;
      published := [];
      completions := 0;
    }

    /** `MessageBus.PublishAsync`. */
    method Publish(n: Notification)
      modifies this
      ensures published == old(published) + [n] && completions == old(completions)
    {
      published := published + [n];
    }

    method Complete()
      modifies this
      ensures published == old(published) && completions == old(completions) + 1
    {
      completions := completions + 1;
    }
  }

  /** The ambient world a worker touches: the UTC clock and the test bodies it invokes. */
  class TestHost {
    var now: int
    /** The tests whose `InvokeAsync` has been called, in call order. */
    var invoked: seq<DiscoveredTest>
    const behaviourOf: Callable -> Behaviour

    constructor (now: int, behaviourOf: Callable -> Behaviour)
      ensures this.now == now && invoked == [] && this.behaviourOf == behaviourOf
    {
      this.now := now;
      invoked := [];
      this.behaviourOf := behaviourOf;
    }

    /** `DateTimeOffset.UtcNow`. */
    method UtcNow() returns (t: int)
      ensures t == now
    {
      t := now;
    }

    /** `await test.InvokeAsync()`: runs the body, which takes time and may throw. */
    method InvokeAsync(test: DiscoveredTest) returns (b: Behaviour)
      modifies this
      ensures b == behaviourOf(test.invokeAsync)
      ensures now == old(now) + b.elapsed && invoked == old(invoked) + [test]
    {
      b := behaviourOf(test.invokeAsync);
      now := now + b.elapsed;
      invoked := invoked + [test];
    }
  }

  class GandalfTestingFramework {
    const configuration: map<string, string>
    /** The names of the test assemblies the host loaded. */
    const assemblyNames: seq<string>
    /** The process-wide registry the generated initialisers filled. */
    const registry: Registry.DiscoveredTests

    constructor (configuration: map<string, string>, assemblyNames: seq<string>, registry: Registry.DiscoveredTests)
      ensures this.configuration == configuration && this.assemblyNames == assemblyNames
      ensures this.registry == registry
    {
      this.configuration := configuration;
      this.assemblyNames := assemblyNames;
      this.registry := registry;
    }

    /** `ExecuteRequestAsync`: discovery and run requests go to their handlers, which complete
        the request; any other request throws `NotSupportedException`, whose message names the
        context's type rather than the request's. */
    method ExecuteRequest(context: ExecuteRequestContext, request: Request, host: TestHost)
      returns (outcome: RequestOutcome)
      modifies context, host
      ensures request.OtherRequest? <==> outcome.NotSupportedException?
      ensures request.OtherRequest? ==>
                outcome.message == "Request " + context.runtimeType + " not supported" &&
                context.published == old(context.published) && context.completions == old(context.completions) &&
                host.now == old(host.now) && host.invoked == old(host.invoked)
      ensures request.DiscoverTestExecutionRequest? ==>
                context.published == old(context.published) + Discoveries(request.sessionUid, SelectAssemblies(registry.All(), assemblyNames)) &&
                context.completions == old(context.completions) + 1 &&
                host.now == old(host.now) && host.invoked == old(host.invoked)
      ensures request.RunTestExecutionRequest? ==>
                var e := Execution(request.sessionUid, request.filter, registry.All(), assemblyNames,
                                   configuration, host.behaviourOf, old(host.now));
                context.published == old(context.published) + e.notes &&
                context.completions == old(context.completions) + 1 &&
                host.now == e.now && host.invoked == old(host.invoked) + e.invoked
    {
      match request
      case DiscoverTestExecutionRequest(session, _) =>
        HandleTestDiscovery(context, session);
        outcome := Handled;
      case RunTestExecutionRequest(session, filter) =>
        HandleTestExecution(context, session, filter, host);
        outcome := Handled;
      case OtherRequest(_) =>
        outcome := NotSupportedException("Request " + context.runtimeType + " not supported");
    }

    /** `HandleTestExecutionAsync`. */
    method HandleTestExecution(context: ExecuteRequestContext, session: string, filter: TestExecutionFilter, host: TestHost)
      modifies context, host
      ensures var e := Execution(session, filter, registry.All(), assemblyNames, configuration,
                                 host.behaviourOf, old(host.now));
              context.published == old(context.published) + e.notes &&
              context.completions == old(context.completions) + 1 &&
              host.now == e.now && host.invoked == old(host.invoked) + e.invoked
    {
      var categoryFilter := ReadCategoryFilter();
      var testsToRun := SelectAssemblies(registry.All(), assemblyNames);
      if |categoryFilter| > 0 {
        testsToRun := SelectCategories(testsToRun, categoryFilter);
      }
      var queue := Dispatch(context, session, testsToRun);
      ghost var w := Work(session, filter, queue, host.behaviourOf, host.now);
      DrainQueue(context, session, filter, queue, host);
      AppendAssociates(old(context.published), Skips(session, testsToRun), w.notes);
      context.Complete();
    }

    /** The category allow-list read from the configuration at the start of a run. */
    method ReadCategoryFilter() returns (categoryFilter: seq<string>)
      ensures categoryFilter == CategoryFilter(configuration)
    {
      categoryFilter := [];
      var catStr := CategoryString(configuration);
      if !IsNullOrWhiteSpace(catStr) {
        categoryFilter := categoryFilter + Split(catStr.value, ',');
      }
    }

    /** The dispatch loop: each ignored test is reported Skipped, every other one is queued
        for the worker, in order. */
    method Dispatch(context: ExecuteRequestContext, session: string, testsToRun: seq<DiscoveredTest>)
      returns (queue: seq<DiscoveredTest>)
      modifies context
      ensures context.published == old(context.published) + Skips(session, testsToRun)
      ensures queue == Filter(testsToRun, NotIgnored)
      ensures context.completions == old(context.completions)
    {
      queue := [];
      var i := 0;
      while i < |testsToRun|
        invariant 0 <= i <= |testsToRun|
        invariant context.published == old(context.published) + Skips(session, testsToRun[..i])
        invariant queue == Filter(testsToRun[..i], NotIgnored)
        invariant context.completions == old(context.completions)
      {
        var testInfo := testsToRun[i];
        assert testsToRun[..i + 1][..i] == testsToRun[..i];
        if IsIgnored(testInfo) {
          context.Publish(Address(session, testInfo, Skipped(testInfo.ignoreReason.value)));
        } else {
          queue := queue + [testInfo];
        }
        i := i + 1;
      }
      assert testsToRun[..i] == testsToRun;
    }

    /** The worker draining the queue once it is complete. */
    method DrainQueue(context: ExecuteRequestContext, session: string, filter: TestExecutionFilter,
                      queue: seq<DiscoveredTest>, host: TestHost)
      modifies context, host
      ensures var w := Work(session, filter, queue, host.behaviourOf, old(host.now));
              context.published == old(context.published) + w.notes &&
              context.completions == old(context.completions) &&
              host.now == w.now && host.invoked == old(host.invoked) + w.invoked
    {
      var j := 0;
      while j < |queue|
        invariant 0 <= j <= |queue|
        invariant var w := Work(session, filter, queue[..j], host.behaviourOf, old(host.now));
                  context.published == old(context.published) + w.notes &&
                  host.now == w.now && host.invoked == old(host.invoked) + w.invoked
        invariant context.completions == old(context.completions)
      {
        ghost var w := Work(session, filter, queue[..j], host.behaviourOf, old(host.now));
        ghost var step := WorkOne(session, filter, queue[j], host.behaviourOf, host.now);
        assert queue[..j + 1][..j] == queue[..j];
        RunTest(context, session, filter, queue[j], host);
        AppendAssociates(old(context.published), w.notes, step.notes);
        AppendAssociates(old(host.invoked), w.invoked, step.invoked);
        j := j + 1;
      }
      assert queue[..j] == queue;
    }

    /** The worker's body for one test: tests outside a uid-list filter are dropped silently;
        otherwise an in-progress notification, the invocation, and one terminal notification. */
    method RunTest(context: ExecuteRequestContext, session: string, filter: TestExecutionFilter,
                   test: DiscoveredTest, host: TestHost)
      modifies context, host
      ensures var s := WorkOne(session, filter, test, host.behaviourOf, old(host.now));
              context.published == old(context.published) + s.notes &&
              context.completions == old(context.completions) &&
              host.now == s.now && host.invoked == old(host.invoked) + s.invoked
    {
      if filter.TestNodeUidListFilter? && test.uid !in filter.testNodeUids {
        return;
      }
      var startTime := host.UtcNow();
      context.Publish(Address(session, test, InProgress));
      var b := host.InvokeAsync(test);
      var endTime := host.UtcNow();
      var timing := TimingInfo(startTime, endTime, endTime - startTime);
      if b.error.None? {
        context.Publish(Address(session, test, Passed(timing, b.output)));
      } else {
        context.Publish(Address(session, test, Failed(b.error.value, timing, b.output)));
      }
    }

    /** `HandleTestDiscoveryAsync`: one Discovered node per test of a configured assembly. */
    method HandleTestDiscovery(context: ExecuteRequestContext, session: string)
      modifies context
      ensures context.published == old(context.published) + Discoveries(session, SelectAssemblies(registry.All(), assemblyNames))
      ensures context.completions == old(context.completions) + 1
    {
      var testsFound := SelectAssemblies(registry.All(), assemblyNames);
      var i := 0;
      while i < |testsFound|
        invariant 0 <= i <= |testsFound|
        invariant context.published == old(context.published) + Discoveries(session, testsFound[..i])
        invariant context.completions == old(context.completions)
      {
        assert testsFound[..i + 1][..i] == testsFound[..i];
        context.Publish(DiscoveredNode(session, testsFound[i]));
        i := i + 1;
      }
      assert testsFound[..i] == testsFound;
      context.Complete();
    }
  }
}
