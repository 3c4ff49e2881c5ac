/** Analyzer rule GANDALF001: every `[Argument(...)]` on a method must give as many arguments
    as the method has parameters. */
module ArgumentCountRule {
  import opened Wrappers
  import opened Roslyn
  import Seqs

  const DiagnosticId: string := "GANDALF001"

  /** The attribute binds to a constructor of `ArgumentAttribute`; an attribute that does
      not bind is skipped. */
  predicate IsArgumentAttribute(a: AttributeSyntax) {
    a.constructorType == Some(ArgumentAttributeName)
  }

  /** The number of arguments written, 0 when the attribute has no argument list. */
  function ArgumentCount(a: AttributeSyntax): nat {
    if a.argumentList.Some? then |a.argumentList.value| else 0
  }

  predicate Mismatches(a: AttributeSyntax, paramCount: nat) {
    IsArgumentAttribute(a) && ArgumentCount(a) != paramCount
  }

  function MismatchesFor(paramCount: nat): AttributeSyntax -> bool {
    a => Mismatches(a, paramCount)
  }

  /** The diagnostic for one attribute, at its location, carrying both counts. */
  function CountDiagnostic(a: AttributeSyntax, paramCount: nat): Diagnostic {
    Diagnostic(DiagnosticId, a.location, [IntArg(ArgumentCount(a)), IntArg(paramCount)])
  }

  /** What the inner loop body reports for one attribute. */
  function Check(a: AttributeSyntax, paramCount: nat): (r: seq<Diagnostic>)
    ensures |r| == if Mismatches(a, paramCount) then 1 else 0
  {
    if Mismatches(a, paramCount) then [CountDiagnostic(a, paramCount)] else []
  }

  function CheckFor(paramCount: nat): AttributeSyntax -> seq<Diagnostic> {
    a => Check(a, paramCount)
  }

  /** The diagnostics `AnalyzeMethod` reports for a declaration, in attribute order. */
  function Reports(decl: MethodDeclaration): (r: seq<Diagnostic>)
    ensures decl.symbol.None? ==> r == []
    ensures decl.symbol.Some? ==>
              |r| == |Seqs.Filter(Seqs.Flatten(decl.attributeLists), MismatchesFor(|decl.symbol.value.parameterTypes|))|
  {
    if decl.symbol.None? then []
    else
      var n := |decl.symbol.value.parameterTypes|;
      Seqs.FlatMapCount(Seqs.Flatten(decl.attributeLists), CheckFor(n), MismatchesFor(n));
      Seqs.FlatMap(Seqs.Flatten(decl.attributeLists), CheckFor(n))
  }

  /** `AnalyzeMethod`: nothing for an unresolved method; otherwise each attribute of each
      attribute list is checked in turn. */
  method AnalyzeMethod(decl: MethodDeclaration) returns (diagnostics: seq<Diagnostic>)
    ensures diagnostics == Reports(decl)
  {
    diagnostics := [];
    if decl.symbol.None? {
      return;
    }
    var methodSymbol := decl.symbol.value;
    var lists := decl.attributeLists;
    var check := CheckFor(|methodSymbol.parameterTypes|);
    var i := 0;
    while i < |lists|
      invariant 0 <= i <= |lists|
      invariant diagnostics == Seqs.FlatMap(Seqs.Flatten(lists[..i]), check)
    {
      var attrList := lists[i];
      ghost var done := Seqs.Flatten(lists[..i]);
      assert done + attrList[..0] == done;
      var j := 0;
      while j < |attrList|
        invariant 0 <= j <= |attrList|
        invariant diagnostics == Seqs.FlatMap(done + attrList[..j], check)
      {
        var attr := attrList[j];
        Seqs.FlatMapExtend(done, attrList, j, check);
        if attr.constructorType.None? {
          j := j + 1;
          continue;
        }
        if attr.constructorType.value != ArgumentAttributeName {
          j := j + 1;
          continue;
        }
        var argCount := if attr.argumentList.Some? then |attr.argumentList.value| else 0;
        var paramCount := |methodSymbol.parameterTypes|;
        if argCount != paramCount {
          diagnostics := diagnostics + [Diagnostic(DiagnosticId, attr.location, [IntArg(argCount), IntArg(paramCount)])];
        }
        j := j + 1;
      }
      assert attrList[..j] == attrList;
      Seqs.FlattenPrefix(lists, i);
      i := i + 1;
    }
    assert lists[..i] == lists;
  }

  /** A diagnostic is reported exactly for a resolved method and an Argument attribute on it
      whose argument count differs from the parameter count. */
  lemma ReportsMembership(decl: MethodDeclaration, d: Diagnostic)
    ensures d in Reports(decl) <==>
              decl.symbol.Some? &&
              exists a :: a in Seqs.Flatten(decl.attributeLists) &&
                          Mismatches(a, |decl.symbol.value.parameterTypes|) &&
                          d == CountDiagnostic(a, |decl.symbol.value.parameterTypes|)
  {
    if decl.symbol.Some? {
      var attrs := Seqs.Flatten(decl.attributeLists);
      var n := |decl.symbol.value.parameterTypes|;
      Seqs.FlatMapMembership(attrs, CheckFor(n), d);
      if exists a :: a in attrs && Mismatches(a, n) && d == CountDiagnostic(a, n) {
        var a :| a in attrs && Mismatches(a, n) && d == CountDiagnostic(a, n);
        var i :| 0 <= i < |attrs| && attrs[i] == a;
        assert d in CheckFor(n)(attrs[i]);
      }
    }
  }
}
