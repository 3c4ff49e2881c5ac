/** The incremental source generator: it collects the methods that carry a Test attribute and
    emits one C# file whose module initializer registers a descriptor for each of them. */
module SourceGenerator {
  import opened Wrappers
  import opened Text
  import opened Roslyn
  import Seqs

  // ---------------------------------------------------------------------------
  // Collecting test methods

  /** The tuple collected per test method: the containing type's assembly, namespace and
      name, the method's name, and whether it is static. */
  datatype TestMethod = TestMethod(assembly: string, ns: string, className: string, methodName: string, isStatic: bool)

  /** A method is collected when its symbol resolves and one of its attributes has the short
      name "TestAttribute" (from any namespace). */
  predicate IsTestDeclaration(d: MethodDeclaration) {
    d.symbol.Some? && AnyShortName(d.symbol.value.attributes, "TestAttribute")
  }

  /** The tuple for a resolved method symbol. */
  function Describe(symbol: MethodSymbolInfo): TestMethod {
    TestMethod(symbol.containingType.assemblyName, symbol.containingType.ns,
               symbol.containingType.name, symbol.name, symbol.isStatic)
  }

  /** The tuple a declaration contributes: one for a test method, none otherwise. */
  function Contribution(d: MethodDeclaration): (r: seq<TestMethod>)
    ensures |r| == if IsTestDeclaration(d) then 1 else 0
    ensures IsTestDeclaration(d) ==> r[0] == Describe(d.symbol.value)
  {
    if IsTestDeclaration(d) then [Describe(d.symbol.value)] else []
  }

  /** `testMethods` after the loop over `methods`. */
  function TestMethods(methods: seq<MethodDeclaration>): (r: seq<TestMethod>)
    ensures |r| <= |methods|
  {
    if |methods| == 0 then [] else TestMethods(methods[..|methods| - 1]) + Contribution(methods[|methods| - 1])
  }

  /** Collecting over two runs of declarations collects over each in turn, so input order
      is kept. */
  lemma {:induction false} TestMethodsAppend(a: seq<MethodDeclaration>, b: seq<MethodDeclaration>)
    ensures TestMethods(a + b) == TestMethods(a) + TestMethods(b)
    decreases |b|
  {
    if |b| == 0 {
      assert a + b == a;
    } else {
      var init := b[..|b| - 1];
      assert (a + b)[..|a + b| - 1] == a + init;
      TestMethodsAppend(a, init);
    }
  }

  /** One tuple per test declaration, and nothing for the rest. */
  lemma {:induction false} TestMethodsCount(methods: seq<MethodDeclaration>)
    ensures |TestMethods(methods)| == |Seqs.Filter(methods, IsTestDeclaration)|
  {
    if |methods| > 0 {
      TestMethodsCount(methods[..|methods| - 1]);
    }
  }

  /** `d` is a test declaration whose tuple is `t`. */
  predicate Describes(d: MethodDeclaration, t: TestMethod) {
    IsTestDeclaration(d) && Describe(d.symbol.value) == t
  }

  /** A tuple is collected exactly when some resolved test declaration describes it. */
  lemma {:induction false} TestMethodsMembership(methods: seq<MethodDeclaration>, t: TestMethod)
    ensures t in TestMethods(methods) <==> exists i :: 0 <= i < |methods| && Describes(methods[i], t)
  {
    if |methods| > 0 {
      var init := methods[..|methods| - 1];
      var last := methods[|methods| - 1];
      TestMethodsMembership(init, t);
      assert TestMethods(methods) == TestMethods(init) + Contribution(last);
      assert t in Contribution(last) <==> Describes(last, t);
      if exists i :: 0 <= i < |methods| && Describes(methods[i], t) {
        var i :| 0 <= i < |methods| && Describes(methods[i], t);
        if i < |init| {
          assert init[i] == methods[i];
        }
      }
    }
  }

  /** The first loop of the output callback: unresolved symbols are skipped, and each test
      method's tuple is appended. */
  method CollectTestMethods(methods: seq<MethodDeclaration>) returns (testMethods: seq<TestMethod>)
    ensures testMethods == TestMethods(methods)
  {
    testMethods := [];
    var i := 0;
    while i < |methods|
      invariant 0 <= i <= |methods|
      invariant testMethods == TestMethods(methods[..i])
    {
      var method_ := methods[i];
      assert methods[..i + 1][..i] == methods[..i];
      if method_.symbol.None? {
        i := i + 1;
        continue;
      }
      var symbol := method_.symbol.value;
      if AnyShortName(symbol.attributes, "TestAttribute") {
        var classSymbol := symbol.containingType;
        testMethods := testMethods + [TestMethod(classSymbol.assemblyName, classSymbol.ns, classSymbol.name, symbol.name, symbol.isStatic)];
      }
      i := i + 1;
    }
    assert methods[..i] == methods;
  }

  // ---------------------------------------------------------------------------
  // The text builder

  /** The text of `lines`, each followed by the line terminator. */
  function Rendered(lines: seq<string>, newLine: string): string {
    if |lines| == 0 then "" else Rendered(lines[..|lines| - 1], newLine) + lines[|lines| - 1] + newLine
  }

  /** Rendering distributes over concatenation of line sequences. */
  lemma {:induction false} RenderedAppend(a: seq<string>, b: seq<string>, newLine: string)
    ensures Rendered(a + b, newLine) == Rendered(a, newLine) + Rendered(b, newLine)
    decreases |b|
  {
    if |b| == 0 {
      assert a + b == a;
    } else {
      var init := b[..|b| - 1];
      assert (a + b)[..|a + b| - 1] == a + init;
      RenderedAppend(a, init, newLine);
    }
  }

  /** With a one-character terminator that no line contains, splitting the text on it gives
      the lines back, followed by the empty piece after the last terminator. */
  lemma {:induction false} SplitRendered(lines: seq<string>, c: char)
    requires forall i :: 0 <= i < |lines| ==> c !in lines[i]
    ensures Split(Rendered(lines, [c]), c) == lines + [""]
    decreases |lines|
  {
    if |lines| > 0 {
      var rest := lines[1..];
      assert lines == [lines[0]] + rest;
      RenderedAppend([lines[0]], rest, [c]);
      assert Rendered([lines[0]], [c]) == lines[0] + [c] by {
        assert [lines[0]][..0] == [];
      }
      SplitRendered(rest, c);
      SplitPrefix(lines[0], Rendered(rest, [c]), c);
    }
  }

  /** A `StringBuilder` used only through `AppendLine`; `lines` records what was appended. */
  class StringBuilder {
    var text: string
    ghost var lines: seq<string>
    const newLine: string

    ghost predicate Valid()
      reads this
    {
      text == Rendered(lines, newLine)
    }

    constructor (newLine: string)
      ensures Valid() && lines == [] && this.newLine == newLine
    {
      text := "";
      lines := [];
      this.newLine := newLine;
    }

    /** `AppendLine(line)`: the line and then the terminator. */
    method AppendLine(line: string)
      requires Valid()
      modifies this
      ensures Valid() && lines == old(lines) + [line]
    {
      assert (lines + [line])[..|lines|] == lines;
      text := text + line + newLine;
      lines := lines + [line];
    }

    /** `AppendLine()`: an empty line. */
    method AppendEmptyLine()
      requires Valid()
      modifies this
      ensures Valid() && lines == old(lines) + [""]
    {
      AppendLine("");
    }

    /** `ToString()`. */
    function ToString(): string
      reads this
    {
      text
    }
  }

  // ---------------------------------------------------------------------------
  // The emitted file

  const UnknownAssembly: string := "UnknownAssembly"

  /** The generated class: the assembly name with every '.' turned into '_', then "DiscoveredTests". */
  function SafeClassName(assemblyName: string): (r: string)
    ensures |r| == |assemblyName| + 15
    ensures forall i :: 0 <= i < |r| ==> r[i] != '.'
    ensures forall i :: 0 <= i < |assemblyName| && assemblyName[i] != '.' ==> r[i] == assemblyName[i]
  {
    ReplaceChar(assemblyName, '.', '_') + "DiscoveredTests"
  }

  /** The type a test method is called on: its class name, qualified by a non-empty namespace.
      Roslyn displays the global namespace as "<global namespace>", so the unqualified case is
      never reached from collected methods. */
  function QualifiedType(t: TestMethod): string {
    if |t.ns| == 0 then t.className else t.ns + "." + t.className
  }

  /** A namespaced type name splits back into the namespace, a '.', and the class name. */
  lemma QualifiedTypeParts(t: TestMethod)
    ensures |t.ns| == 0 ==> QualifiedType(t) == t.className
    ensures |t.ns| > 0 ==> |QualifiedType(t)| == |t.ns| + 1 + |t.className| &&
                           QualifiedType(t)[..|t.ns|] == t.ns && QualifiedType(t)[|t.ns|] == '.' &&
                           QualifiedType(t)[|t.ns| + 1..] == t.className
  {
    if |t.ns| > 0 {
      var q := QualifiedType(t);
      assert q == t.ns + "." + t.className;
      assert q[..|t.ns|] == t.ns;
      assert q[|t.ns| + 1..] == t.className;
    }
  }

  /** The delegate registered for a test method. */
  function Call(t: TestMethod): string {
    if t.isStatic then "() => " + QualifiedType(t) + "." + t.methodName + "()"
    else "() => new " + QualifiedType(t) + "()." + t.methodName + "()"
  }

  const Indent: string := "            "
  const RegisterPrefix: string := Indent + "DiscoveredTests.Register(" + "new DiscoveredTest(\""

  /** The line registering one test method; it starts with the registration prefix. */
  function RegisterLine(t: TestMethod): (r: string)
    ensures IsRegisterLine(r)
  {
    var line := RegisterPrefix + t.assembly + "\", \"" + t.ns + "\", \"" + t.className + "\", \"" + t.methodName + "\", " + Call(t) + "));";
    assert line[..|RegisterPrefix|] == RegisterPrefix;
    line
  }

  predicate IsRegisterLine(line: string) {
    |RegisterPrefix| <= |line| && line[..|RegisterPrefix|] == RegisterPrefix
  }

  /** The comment and using directives that open the file, and a blank line. */
  const Usings: seq<string> := [
    "// Auto-generated file",
    "using System;",
    "using System.Runtime.CompilerServices;",
    "using Gandalf.Core.Helpers;",
    "using Gandalf.Core.Models;",
    ""]

  /** The namespace, class and initializer heads. */
  function Opening(ns: string, cls: string): seq<string> {
    ["namespace " + ns,
     "{",
     "    public static class " + cls,
     "    {",
     "       [ModuleInitializer]",
     "       public static void Initialize()",
     "        {"]
  }

  /** The lines before the registrations. */
  function Header(ns: string, cls: string): seq<string> {
    Usings + Opening(ns, cls)
  }

  /** The lines closing the initializer, the class and the namespace. */
  const Footer: seq<string> := ["        }", "    }", "}"]

  /** Every line of the generated file, in order: the 13 header lines, one line per collected
      method and the 3 closing lines. */
  function GeneratedLines(assemblyName: string, testMethods: seq<TestMethod>): (r: seq<string>)
    ensures |r| == 13 + |testMethods| + 3
  {
    Seqs.MapSpec(testMethods, RegisterLine);
    Header(assemblyName, SafeClassName(assemblyName)) + Seqs.Map(testMethods, RegisterLine) + Footer
  }

  /** The namespace is the assembly name and the class is its safe name. */
  lemma GeneratedDeclarations(assemblyName: string, testMethods: seq<TestMethod>)
    ensures |GeneratedLines(assemblyName, testMethods)| > 8
    ensures GeneratedLines(assemblyName, testMethods)[6] == "namespace " + assemblyName
    ensures GeneratedLines(assemblyName, testMethods)[8] == "    public static class " + SafeClassName(assemblyName)
  {
  }

  /** Line 13 + k registers the k-th collected method, so registrations keep collection order. */
  lemma GeneratedRegistration(assemblyName: string, testMethods: seq<TestMethod>, k: nat)
    requires k < |testMethods|
    ensures |GeneratedLines(assemblyName, testMethods)| > 13 + k
    ensures GeneratedLines(assemblyName, testMethods)[13 + k] == RegisterLine(testMethods[k])
  {
    Seqs.MapSpec(testMethods, RegisterLine);
    var header := Header(assemblyName, SafeClassName(assemblyName));
    var body := Seqs.Map(testMethods, RegisterLine);
    assert (header + body + Footer)[|header| + k] == body[k];
  }

  /** The file ends with the closing lines. */
  lemma GeneratedFooter(assemblyName: string, testMethods: seq<TestMethod>)
    ensures |GeneratedLines(assemblyName, testMethods)| >= 16 + |testMethods|
    ensures GeneratedLines(assemblyName, testMethods)[13 + |testMethods|..] == Footer
  {
    Seqs.MapSpec(testMethods, RegisterLine);
    var header := Header(assemblyName, SafeClassName(assemblyName));
    var body := Seqs.Map(testMethods, RegisterLine);
    assert (header + body + Footer)[|header + body|..] == Footer;
  }

  /** Exactly the lines between the header and the footer register a test. */
  lemma RegistrationLines(assemblyName: string, testMethods: seq<TestMethod>, i: nat)
    requires i < |GeneratedLines(assemblyName, testMethods)|
    ensures IsRegisterLine(GeneratedLines(assemblyName, testMethods)[i]) <==> 13 <= i < 13 + |testMethods|
  {
    var lines := GeneratedLines(assemblyName, testMethods);
    var n := |testMethods|;
    if i < 13 {
      HeaderNotRegistration(assemblyName, SafeClassName(assemblyName));
      assert lines[i] == Header(assemblyName, SafeClassName(assemblyName))[i];
    } else if i < 13 + n {
      GeneratedRegistration(assemblyName, testMethods, i - 13);
    } else {
      GeneratedFooter(assemblyName, testMethods);
      FooterNotRegistration();
      assert lines[i] == lines[13 + n..][i - 13 - n];
    }
  }

  /** A line that differs from the registration prefix at some position inside both is not
      a registration. */
  lemma DiffersFromRegistration(line: string, k: nat)
    requires k < |RegisterPrefix| && k < |line| && line[k] != RegisterPrefix[k]
    ensures !IsRegisterLine(line)
  {
  }

  /** No header line starts like a registration. */
  lemma HeaderNotRegistration(ns: string, cls: string)
    ensures forall j :: 0 <= j < |Header(ns, cls)| ==> !IsRegisterLine(Header(ns, cls)[j])
  {
    var o := Opening(ns, cls);
    assert forall j :: 0 <= j < |Usings| ==> |Usings[j]| < |RegisterPrefix|;
    assert RegisterPrefix[0] == ' ' && RegisterPrefix[4] == ' ' && RegisterPrefix[7] == ' ';
    DiffersFromRegistration(o[0], 0);
    DiffersFromRegistration(o[2], 4);
    DiffersFromRegistration(o[4], 7);
    DiffersFromRegistration(o[5], 7);
    assert forall j :: 0 <= j < |o| ==> !IsRegisterLine(o[j]);
  }

  /** No footer line is long enough to be a registration. */
  lemma FooterNotRegistration()
    ensures forall j :: 0 <= j < |Footer| ==> !IsRegisterLine(Footer[j])
  {
    assert |RegisterPrefix| > 9;
  }

  /** The output callback after collection: the assembly name (or "UnknownAssembly") names
      the namespace, the class and the file, and the text is the generated lines. */
  method EmitSource(compilationAssemblyName: Option<string>, testMethods: seq<TestMethod>, newLine: string)
    returns (fileName: string, source: string)
    ensures fileName == compilationAssemblyName.GetOr(UnknownAssembly) + ".DiscoveredTests.g.cs"
    ensures source == Rendered(GeneratedLines(compilationAssemblyName.GetOr(UnknownAssembly), testMethods), newLine)
  {
    var assemblyName := if compilationAssemblyName.Some? then compilationAssemblyName.value else UnknownAssembly;
    var safeClassName := ReplaceChar(assemblyName, '.', '_') + "DiscoveredTests";
    var safeNamespace := assemblyName;

    var sb := new StringBuilder(newLine);
    AppendUsings(sb);
    AppendOpening(sb, safeNamespace, safeClassName);
    AppendRegistrations(sb, testMethods);
    AppendFooter(sb);
    fileName := assemblyName + ".DiscoveredTests.g.cs";
    source := sb.ToString();
  }

  /** The first six lines of the file. */
  method AppendUsings(sb: StringBuilder)
    requires sb.Valid() && sb.lines == []
    modifies sb
    ensures sb.Valid() && sb.lines == Usings
  {
    sb.AppendLine("// Auto-generated file");
    sb.AppendLine("using System;");
    sb.AppendLine("using System.Runtime.CompilerServices;");
    sb.AppendLine("using Gandalf.Core.Helpers;");
    sb.AppendLine("using Gandalf.Core.Models;");
    sb.AppendEmptyLine();
  }

  /** The namespace, class and initializer heads. */
  method AppendOpening(sb: StringBuilder, safeNamespace: string, safeClassName: string)
    requires sb.Valid()
    modifies sb
    ensures sb.Valid() && sb.lines == old(sb.lines) + Opening(safeNamespace, safeClassName)
  {
    sb.AppendLine("namespace " + safeNamespace);
    sb.AppendLine("{");
    sb.AppendLine("    public static class " + safeClassName);
    sb.AppendLine("    {");
    sb.AppendLine("       [ModuleInitializer]");
    sb.AppendLine("       public static void Initialize()");
    sb.AppendLine("        {");
  }

  /** The loop over collected methods: one registration line each, in order. */
  method AppendRegistrations(sb: StringBuilder, testMethods: seq<TestMethod>)
    requires sb.Valid()
    modifies sb
    ensures sb.Valid() && sb.lines == old(sb.lines) + Seqs.Map(testMethods, RegisterLine)
  {
    ghost var start := sb.lines;
    var i := 0;
    while i < |testMethods|
      invariant 0 <= i <= |testMethods|
      invariant sb.Valid()
      invariant sb.lines == start + Seqs.Map(testMethods[..i], RegisterLine)
    {
      var line := BuildRegisterLine(testMethods[i]);
      sb.AppendLine(line);
      Seqs.MapPrefix(testMethods, i, RegisterLine);
      Seqs.AppendAssociates(start, Seqs.Map(testMethods[..i], RegisterLine), [line]);
      i := i + 1;
    }
    assert testMethods[..i] == testMethods;
  }

  /** The body of the loop over collected methods: the qualified type, the delegate, then the line. */
  method BuildRegisterLine(t: TestMethod) returns (line: string)
    ensures line == RegisterLine(t)
  {
    var fqType := if |t.ns| == 0 then t.className else t.ns + "." + t.className;
    var call := if t.isStatic then "() => " + fqType + "." + t.methodName + "()"
                else "() => new " + fqType + "()." + t.methodName + "()";
    line := RegisterPrefix + t.assembly + "\", \"" + t.ns + "\", \"" + t.className + "\", \"" + t.methodName + "\", " + call + "));";
  }

  /** The three closing lines. */
  method AppendFooter(sb: StringBuilder)
    requires sb.Valid()
    modifies sb
    ensures sb.Valid() && sb.lines == old(sb.lines) + Footer
  {
    sb.AppendLine("        }");
    sb.AppendLine("    }");
    sb.AppendLine("}");
  }

  /** The whole output callback: collect, then emit. */
  method GenerateSource(compilationAssemblyName: Option<string>, methods: seq<MethodDeclaration>, newLine: string)
    returns (fileName: string, source: string)
    ensures fileName == compilationAssemblyName.GetOr(UnknownAssembly) + ".DiscoveredTests.g.cs"
    ensures source == Rendered(GeneratedLines(compilationAssemblyName.GetOr(UnknownAssembly), TestMethods(methods)), newLine)
  {
    var testMethods := CollectTestMethods(methods);
    fileName, source := EmitSource(compilationAssemblyName, testMethods, newLine);
  }
}
