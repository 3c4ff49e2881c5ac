/** Analyzer rule GANDALF002: each argument of an `[Argument(...)]` must convert implicitly to
    the type of the parameter at its position. Whether a conversion is implicit is the
    compiler's answer, passed in as `implicitConversion`. */
module ArgumentTypeRule {
  import opened Wrappers
  import opened Roslyn
  import Seqs

  const DiagnosticId: string := "GANDALF002"

  predicate IsArgumentAttribute(a: AttributeSyntax) {
    a.constructorType == Some(ArgumentAttributeName)
  }

  /** An argument is rejected when its type is unknown or does not convert implicitly. */
  predicate Rejected(arg: ArgumentSyntax, paramType: TypeRef, implicitConversion: (TypeRef, TypeRef) -> bool) {
    arg.exprType.None? || !implicitConversion(arg.exprType.value, paramType)
  }

  /** The diagnostic for position `i`: at the argument, carrying the 1-based position, the
      argument's type (or "unknown") and the parameter's type. */
  function TypeDiagnostic(i: nat, arg: ArgumentSyntax, paramType: TypeRef): Diagnostic {
    Diagnostic(DiagnosticId, arg.location,
               [IntArg(i + 1), TextArg(if arg.exprType.Some? then arg.exprType.value.display else "unknown"),
                TextArg(paramType.display)])
  }

  /** The diagnostics for positions `0 .. k-1`. */
  function PositionReports(args: seq<ArgumentSyntax>, params: seq<TypeRef>,
                           implicitConversion: (TypeRef, TypeRef) -> bool, k: nat): (r: seq<Diagnostic>)
    requires k <= |args| && k <= |params|
    ensures |r| <= k
    ensures forall d :: d in r ==> d.id == DiagnosticId
  {
    if k == 0 then []
    else
      PositionReports(args, params, implicitConversion, k - 1) +
        (if Rejected(args[k - 1], params[k - 1], implicitConversion)
         then [TypeDiagnostic(k - 1, args[k - 1], params[k - 1])] else [])
  }

  /** The positions checked: those that have both an argument and a parameter. */
  function CheckedPositions(args: seq<ArgumentSyntax>, params: seq<TypeRef>): (r: nat)
    ensures r <= |args| && r <= |params|
    ensures r == |args| || r == |params|
  {
    if |args| < |params| then |args| else |params|
  }

  /** What the inner loop body reports for one attribute: nothing unless it is an Argument
      attribute with an argument list; then one diagnostic per rejected checked position. */
  function Check(a: AttributeSyntax, params: seq<TypeRef>, implicitConversion: (TypeRef, TypeRef) -> bool): (r: seq<Diagnostic>)
    ensures !IsArgumentAttribute(a) || a.argumentList.None? ==> r == []
    ensures |r| <= |params| && (a.argumentList.Some? ==> |r| <= |a.argumentList.value|)
    ensures forall d :: d in r ==> d.id == DiagnosticId
  {
    if !IsArgumentAttribute(a) || a.argumentList.None? then []
    else PositionReports(a.argumentList.value, params, implicitConversion, CheckedPositions(a.argumentList.value, params))
  }

  function CheckFor(params: seq<TypeRef>, implicitConversion: (TypeRef, TypeRef) -> bool): AttributeSyntax -> seq<Diagnostic> {
    a => Check(a, params, implicitConversion)
  }

  /** The diagnostics `AnalyzeMethod` reports for a declaration, in attribute and position order. */
  function Reports(decl: MethodDeclaration, implicitConversion: (TypeRef, TypeRef) -> bool): (r: seq<Diagnostic>)
    ensures decl.symbol.None? ==> r == []
    ensures forall d :: d in r ==> d.id == DiagnosticId
  {
    if decl.symbol.None? then []
    else
      var attrs := Seqs.Flatten(decl.attributeLists);
      var check := CheckFor(decl.symbol.value.parameterTypes, implicitConversion);
      assert forall d :: d in Seqs.FlatMap(attrs, check) ==> d.id == DiagnosticId by {
        forall d | d in Seqs.FlatMap(attrs, check) ensures d.id == DiagnosticId {
          Seqs.FlatMapMembership(attrs, check, d);
        }
      }
      Seqs.FlatMap(attrs, check)
  }

  /** `AnalyzeMethod`: nothing for an unresolved method; otherwise, for each Argument attribute
      with an argument list, each position that has both an argument and a parameter. */
  method AnalyzeMethod(decl: MethodDeclaration, implicitConversion: (TypeRef, TypeRef) -> bool)
    returns (diagnostics: seq<Diagnostic>)
    ensures diagnostics == Reports(decl, implicitConversion)
  {
    diagnostics := [];
    if decl.symbol.None? {
      return;
    }
    var methodSymbol := decl.symbol.value;
    var lists := decl.attributeLists;
    var check := CheckFor(methodSymbol.parameterTypes, implicitConversion);
    var i := 0;
    while i < |lists|
      invariant 0 <= i <= |lists|
      invariant diagnostics == Seqs.FlatMap(Seqs.Flatten(lists[..i]), check)
    {
      var attrList := lists[i];
      ghost var done := Seqs.Flatten(lists[..i]);
      assert done + attrList[..0] == done;
      var j := 0;
      while j < |attrList|
        invariant 0 <= j <= |attrList|
        invariant diagnostics == Seqs.FlatMap(done + attrList[..j], check)
      {
        var attr := attrList[j];
        Seqs.FlatMapExtend(done, attrList, j, check);
        var reports := CheckAttribute(attr, methodSymbol.parameterTypes, implicitConversion);
        diagnostics := diagnostics + reports;
        j := j + 1;
      }
      assert attrList[..j] == attrList;
      Seqs.FlattenPrefix(lists, i);
      i := i + 1;
    }
    assert lists[..i] == lists;
  }

  /** The body of the inner loop: the attribute is skipped unless it binds to
      `ArgumentAttribute` and has an argument list; then positions are checked in order while
      both an argument and a parameter remain. */
  method CheckAttribute(attr: AttributeSyntax, params: seq<TypeRef>, implicitConversion: (TypeRef, TypeRef) -> bool)
    returns (reports: seq<Diagnostic>)
    ensures reports == Check(attr, params, implicitConversion)
  {
    reports := [];
    if attr.constructorType.None? {
      return;
    }
    if attr.constructorType.value != ArgumentAttributeName {
      return;
    }
    var paramCount := |params|;
    if attr.argumentList.None? {
      return;
    }
    var argList := attr.argumentList.value;
    var i := 0;
    while i < |argList| && i < paramCount
      invariant 0 <= i <= |argList| && i <= paramCount
      invariant reports == PositionReports(argList, params, implicitConversion, i)
    {
      var argType := argList[i].exprType;
      var paramType := params[i];
      if argType.None? || !implicitConversion(argType.value, paramType) {
        var argTypeName := if argType.Some? then argType.value.display else "unknown";
        var paramTypeName := paramType.display;
        reports := reports + [Diagnostic(DiagnosticId, argList[i].location, [IntArg(i + 1), TextArg(argTypeName), TextArg(paramTypeName)])];
      }
      i := i + 1;
    }
  }

  /** Position `i` is reported exactly when it is below `k` and its argument is rejected. */
  lemma {:induction false} PositionReportsMembership(args: seq<ArgumentSyntax>, params: seq<TypeRef>,
                                                     implicitConversion: (TypeRef, TypeRef) -> bool, k: nat, d: Diagnostic)
    requires k <= |args| && k <= |params|
    ensures d in PositionReports(args, params, implicitConversion, k) <==>
              exists i :: 0 <= i < k && Rejected(args[i], params[i], implicitConversion) &&
                          d == TypeDiagnostic(i, args[i], params[i])
  {
    if k > 0 {
      PositionReportsMembership(args, params, implicitConversion, k - 1, d);
    }
  }

  /** Positions past the shorter of the argument and parameter lists are never reported, and
      when every checked argument converts there is nothing to report. */
  lemma CheckSpec(a: AttributeSyntax, params: seq<TypeRef>, implicitConversion: (TypeRef, TypeRef) -> bool, d: Diagnostic)
    ensures d in Check(a, params, implicitConversion) <==>
              IsArgumentAttribute(a) && a.argumentList.Some? &&
              exists i :: 0 <= i < |a.argumentList.value| && i < |params| &&
                          Rejected(a.argumentList.value[i], params[i], implicitConversion) &&
                          d == TypeDiagnostic(i, a.argumentList.value[i], params[i])
  {
    if IsArgumentAttribute(a) && a.argumentList.Some? {
      var args := a.argumentList.value;
      PositionReportsMembership(args, params, implicitConversion, CheckedPositions(args, params), d);
    }
  }

  /** A diagnostic is reported exactly for a resolved method and one of its attributes whose
      own check reports it. */
  lemma ReportsMembership(decl: MethodDeclaration, implicitConversion: (TypeRef, TypeRef) -> bool, d: Diagnostic)
    ensures d in Reports(decl, implicitConversion) <==>
              decl.symbol.Some? &&
              exists a :: a in Seqs.Flatten(decl.attributeLists) &&
                          d in Check(a, decl.symbol.value.parameterTypes, implicitConversion)
  {
    if decl.symbol.Some? {
      var attrs := Seqs.Flatten(decl.attributeLists);
      var check := CheckFor(decl.symbol.value.parameterTypes, implicitConversion);
      Seqs.FlatMapMembership(attrs, check, d);
      if exists a :: a in attrs && d in Check(a, decl.symbol.value.parameterTypes, implicitConversion) {
        var a :| a in attrs && d in Check(a, decl.symbol.value.parameterTypes, implicitConversion);
        var i :| 0 <= i < |attrs| && attrs[i] == a;
        assert d in check(attrs[i]);
      }
    }
  }
}
