/** Analyzer rule GANDALF003: a method marked with the Test attribute must return `Task`. */
module ReturnTaskRule {
  import opened Wrappers
  import opened Roslyn
  import SourceGenerator

  const DiagnosticId: string := "GANDALF003"
  const TaskTypeName: string := "System.Threading.Tasks.Task"

  /** The rule applies to methods carrying the Test attribute, matched by its full name. */
  predicate IsTest(symbol: MethodSymbolInfo) {
    AnyDisplayName(symbol.attributes, TestAttributeName)
  }

  /** The return type is exactly `System.Threading.Tasks.Task` (a missing return type is not). */
  predicate ReturnsTask(symbol: MethodSymbolInfo) {
    symbol.returnType.Some? && symbol.returnType.value.display == TaskTypeName
  }

  /** `AnalyzeMethod`: at most one diagnostic, at the method's identifier and naming the
      method, for a resolved test method that does not return `Task`. */
  function AnalyzeMethod(decl: MethodDeclaration): (r: seq<Diagnostic>)
    ensures |r| <= 1
    ensures r != [] <==> decl.symbol.Some? && IsTest(decl.symbol.value) && !ReturnsTask(decl.symbol.value)
    ensures r != [] ==> r[0].id == DiagnosticId && r[0].location == decl.identifierLocation &&
                        r[0].args == [TextArg(decl.symbol.value.name)]
  {
    if decl.symbol.None? then []
    else
      var methodSymbol := decl.symbol.value;
      var hasTestAttribute := AnyDisplayName(methodSymbol.attributes, TestAttributeName);
      if !hasTestAttribute then []
      else
        var returnType := methodSymbol.returnType;
        if returnType.None? || returnType.value.display != TaskTypeName
        then [Diagnostic(DiagnosticId, decl.identifierLocation, [TextArg(methodSymbol.name)])]
        else []
  }

  /** The comparison is on the display string alone, so `Task<T>` and `ValueTask` are reported. */
  lemma GenericTaskReported(decl: MethodDeclaration)
    requires decl.symbol.Some? && IsTest(decl.symbol.value)
    requires decl.symbol.value.returnType == Some(TypeRef("System.Threading.Tasks.Task<int>")) ||
             decl.symbol.value.returnType == Some(TypeRef("System.Threading.Tasks.ValueTask"))
    ensures |AnalyzeMethod(decl)| == 1
  {
    assert !ReturnsTask(decl.symbol.value) by {
      assert |decl.symbol.value.returnType.value.display| == 32;
    }
  }

  /** The source generator collects any attribute named "TestAttribute", from any namespace,
      while this rule checks only the one from `Gandalf.Core.Attributes`: a method marked
      with a foreign TestAttribute is registered as a test but never checked. */
  lemma ForeignTestAttributeUnchecked(decl: MethodDeclaration)
    requires decl.symbol.Some?
    requires decl.symbol.value.attributes == [AttributeData(Some(NamedType("TestAttribute", "Other.TestAttribute")), [])]
    ensures SourceGenerator.IsTestDeclaration(decl)
    ensures AnalyzeMethod(decl) == []
  {
    var a := decl.symbol.value.attributes[0];
    assert ShortNameIs(a, "TestAttribute");
    assert !DisplayNameIs(a, TestAttributeName) by {
      assert a.attributeClass.value.displayString[0] != TestAttributeName[0];
    }
  }
}
