/** Analyzer rule GANDALF004: a property marked `[Inject]` must be `required` and declare both
    a `get` and an `init` accessor. */
module InjectPropertyRule {
  import opened Wrappers
  import opened Roslyn

  const DiagnosticId: string := "GANDALF004"

  /** The property carries an attribute whose short name is "InjectAttribute". */
  predicate IsInjected(symbol: PropertySymbolInfo) {
    AnyShortName(symbol.attributes, "InjectAttribute")
  }

  /** The declaration is `required` and lists a get accessor and an init accessor. */
  predicate Conforms(decl: PropertyDeclaration) {
    decl.isRequired && decl.accessorList.Some? &&
    GetAccessor in decl.accessorList.value && InitAccessor in decl.accessorList.value
  }

  /** The diagnostics `AnalyzeProperty` reports for a declaration. */
  function Reports(decl: PropertyDeclaration): (r: seq<Diagnostic>)
    ensures |r| <= 1
  {
    if decl.symbol.None? || !IsInjected(decl.symbol.value) || Conforms(decl) then []
    else [Diagnostic(DiagnosticId, decl.location, [TextArg(decl.symbol.value.name)])]
  }

  /** `AnalyzeProperty`: nothing for an unresolved or non-injected property; otherwise the
      accessors are scanned for get and init, and one diagnostic naming the property is
      reported unless it is required and has both. */
  method AnalyzeProperty(decl: PropertyDeclaration) returns (diagnostics: seq<Diagnostic>)
    ensures diagnostics == Reports(decl)
  {
    diagnostics := [];
    if decl.symbol.None? {
      return;
    }
    var symbol := decl.symbol.value;
    var hasInject := AnyShortName(symbol.attributes, "InjectAttribute");
    if !hasInject {
      return;
    }
    var isRequired := decl.isRequired;
    var hasGet, hasInit := false, false;
    if decl.accessorList.Some? {
      var accessors := decl.accessorList.value;
      var k := 0;
      while k < |accessors|
        invariant 0 <= k <= |accessors|
        invariant hasGet <==> GetAccessor in accessors[..k]
        invariant hasInit <==> InitAccessor in accessors[..k]
      {
        assert accessors[..k + 1] == accessors[..k] + [accessors[k]];
        if accessors[k] == GetAccessor {
          hasGet := true;
        }
        if accessors[k] == InitAccessor {
          hasInit := true;
        }
        k := k + 1;
      }
      assert accessors[..k] == accessors;
    }
    if !isRequired || !hasGet || !hasInit {
      diagnostics := [Diagnostic(DiagnosticId, decl.location, [TextArg(symbol.name)])];
    }
  }

  /** An injected property without an accessor list (expression-bodied) is always reported,
      and so is one that is not `required`, whatever its accessors. */
  lemma AlwaysReported(decl: PropertyDeclaration)
    requires decl.symbol.Some? && IsInjected(decl.symbol.value)
    requires decl.accessorList.None? || !decl.isRequired
    ensures Reports(decl) == [Diagnostic(DiagnosticId, decl.location, [TextArg(decl.symbol.value.name)])]
  {
  }

  /** A diagnostic is reported exactly for an injected property that is not required or lacks
      a get or an init accessor; accessor order, duplicates and extra `set` accessors do not matter. */
  lemma ReportedIff(decl: PropertyDeclaration)
    ensures Reports(decl) != [] <==>
              decl.symbol.Some? && IsInjected(decl.symbol.value) &&
              (!decl.isRequired || decl.accessorList.None? ||
               (forall i :: 0 <= i < |decl.accessorList.value| ==> decl.accessorList.value[i] != GetAccessor) ||
               (forall i :: 0 <= i < |decl.accessorList.value| ==> decl.accessorList.value[i] != InitAccessor))
  {
  }
}
