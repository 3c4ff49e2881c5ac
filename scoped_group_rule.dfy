/** Analyzer rule for `[ScopedGroup]` on a property or parameter: it must come with
    `[Inject(InstanceType.Scoped)]`. */
module ScopedGroupRule {
  import opened Wrappers
  import opened Text
  import opened Roslyn
  import Seqs

  const DiagnosticId: string := "GANDALF0012"

  /** `InstanceType.Scoped`. */
  const Scoped: int32 := 1

  predicate IsScopedGroup(a: AttributeData) {
    ShortNameIs(a, "ScopedGroupAttribute")
  }

  predicate IsInject(a: AttributeData) {
    ShortNameIs(a, "InjectAttribute")
  }

  /** `AnalyzeSymbol`: nothing without a ScopedGroup attribute; otherwise the first Inject
      attribute must have exactly one argument, the integer 1, or one diagnostic is reported
      at the symbol's first location. */
  function AnalyzeSymbol(symbol: AttributedSymbol): (r: seq<Diagnostic>)
    ensures |r| <= 1
    ensures r != [] ==> r == [Diagnostic(DiagnosticId, symbol.location, [])]
  {
    var scopedGroupAttr := Seqs.First(symbol.attributes, IsScopedGroup);
    if scopedGroupAttr.None? then []
    else
      var injectAttr := Seqs.First(symbol.attributes, IsInject);
      if injectAttr.None? then [Diagnostic(DiagnosticId, symbol.location, [])]
      else
        var args := injectAttr.value.constructorArguments;
        if |args| == 1 && args[0].IntValue? && args[0].i == Scoped then []
        else [Diagnostic(DiagnosticId, symbol.location, [])]
  }

  /** A symbol is accepted exactly when it has no ScopedGroup attribute, or its first Inject
      attribute has the single argument `Scoped`; a later Inject attribute is not looked at. */
  lemma AcceptedIff(symbol: AttributedSymbol)
    ensures AnalyzeSymbol(symbol) == [] <==>
              (forall i :: 0 <= i < |symbol.attributes| ==> !IsScopedGroup(symbol.attributes[i])) ||
              exists i :: 0 <= i < |symbol.attributes| && IsInject(symbol.attributes[i]) &&
                          (forall j :: 0 <= j < i ==> !IsInject(symbol.attributes[j])) &&
                          symbol.attributes[i].constructorArguments == [IntValue(Scoped)]
  {
    var attrs := symbol.attributes;
    var inject := Seqs.First(attrs, IsInject);
    if inject.Some? {
      var k :| 0 <= k < |attrs| && attrs[k] == inject.value && IsInject(attrs[k]) &&
               forall j :: 0 <= j < k ==> !IsInject(attrs[j]);
      forall i | 0 <= i < |attrs| && IsInject(attrs[i]) && (forall j :: 0 <= j < i ==> !IsInject(attrs[j]))
        ensures i == k
      {
        assert !(i < k) && !(k < i);
      }
      var args := inject.value.constructorArguments;
      assert (|args| == 1 && args[0].IntValue? && args[0].i == Scoped) <==> args == [IntValue(Scoped)];
    }
  }

  /** `InjectAttribute` declares no constructor arguments, so every Inject attribute as it can
      be written has none, and a ScopedGroup symbol is always reported. */
  lemma ParameterlessInjectReported(symbol: AttributedSymbol)
    requires exists i :: 0 <= i < |symbol.attributes| && IsScopedGroup(symbol.attributes[i])
    requires forall i :: 0 <= i < |symbol.attributes| && IsInject(symbol.attributes[i]) ==>
               symbol.attributes[i].constructorArguments == []
    ensures AnalyzeSymbol(symbol) == [Diagnostic(DiagnosticId, symbol.location, [])]
  {
    AcceptedIff(symbol);
  }
}
