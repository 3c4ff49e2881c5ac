/** The attribute queries of the source generator: whether a method is a test, and the
    categories and ignore reason its own and its class's attributes give it. */
module AttributeHelpers {
  import opened Wrappers
  import opened Roslyn

  const CategoryAttributeName: string := "Gandalf.Core.Attributes.CategoryAttribute"
  const IgnoreAttributeName: string := "Gandalf.Core.Attributes.IgnoreAttribute"

  /** `HasTestAttribute`: some attribute's class has exactly the full name of `TestAttribute`. */
  function HasTestAttribute(symbol: MethodSymbolInfo): (r: bool)
    ensures r <==> exists i :: 0 <= i < |symbol.attributes| && DisplayNameIs(symbol.attributes[i], TestAttributeName)
  {
    AnyDisplayName(symbol.attributes, TestAttributeName)
  }

  predicate IsIgnore(a: AttributeData) {
    DisplayNameIs(a, IgnoreAttributeName)
  }

  /** A Category attribute with a constructor argument. */
  predicate HasCategoryArgument(a: AttributeData) {
    DisplayNameIs(a, CategoryAttributeName) && |a.constructorArguments| > 0
  }

  /** The category one attribute contributes: none unless it is a Category attribute with a
      constructor argument; the argument's text, or "" for a null argument. */
  function CategoryOf(a: AttributeData): (r: seq<string>)
    ensures |r| == if HasCategoryArgument(a) then 1 else 0
  {
    if HasCategoryArgument(a) then [ValueText(a.constructorArguments[0]).GetOr("")] else []
  }

  /** The categories `attrs` contribute, in attribute order. */
  function Categories(attrs: seq<AttributeData>): (r: seq<string>)
    ensures |r| <= |attrs|
  {
    if |attrs| == 0 then [] else Categories(attrs[..|attrs| - 1]) + CategoryOf(attrs[|attrs| - 1])
  }

  /** One category per Category attribute with an argument, with no deduplication. */
  lemma {:induction false} CategoriesCount(attrs: seq<AttributeData>)
    ensures |Categories(attrs)| == |Seqs.Filter(attrs, HasCategoryArgument)|
  {
    if |attrs| > 0 {
      CategoriesCount(attrs[..|attrs| - 1]);
    }
  }

  /** Every contributed category comes from a Category attribute with an argument, and every
      such attribute contributes its category. */
  lemma {:induction false} CategoriesMembership(attrs: seq<AttributeData>, c: string)
    ensures c in Categories(attrs) <==> exists i :: 0 <= i < |attrs| && CategoryOf(attrs[i]) == [c]
  {
    if |attrs| > 0 {
      var init := attrs[..|attrs| - 1];
      var last := attrs[|attrs| - 1];
      CategoriesMembership(init, c);
      assert Categories(attrs) == Categories(init) + CategoryOf(last);
      if c in Categories(attrs) && c !in Categories(init) {
        assert CategoryOf(last) == [c];
      }
      if exists i :: 0 <= i < |attrs| && CategoryOf(attrs[i]) == [c] {
        var i :| 0 <= i < |attrs| && CategoryOf(attrs[i]) == [c];
        if i < |init| {
          assert init[i] == attrs[i];
        }
      }
    }
  }

  /** The reason an Ignore attribute gives: its string argument, or "Ignored" when it has no
      argument or the argument is not a string. */
  function IgnoreText(a: AttributeData): string {
    if |a.constructorArguments| > 0 && a.constructorArguments[0].StringValue?
    then a.constructorArguments[0].s
    else "Ignored"
  }

  predicate NoIgnore(attrs: seq<AttributeData>) {
    forall i :: 0 <= i < |attrs| ==> !IsIgnore(attrs[i])
  }

  /** The ignore reason after visiting `attrs` in order starting from `reason`: every Ignore
      attribute overwrites it, so without one the reason is left as it was, and with one
      there is a reason afterwards. */
  function IgnoreAfter(reason: Option<string>, attrs: seq<AttributeData>): (r: Option<string>)
    ensures NoIgnore(attrs) ==> r == reason
    ensures !NoIgnore(attrs) ==> r.Some?
  {
    if |attrs| == 0 then reason
    else if IsIgnore(attrs[|attrs| - 1]) then Some(IgnoreText(attrs[|attrs| - 1]))
    else
      var init := attrs[..|attrs| - 1];
      assert NoIgnore(attrs) ==> NoIgnore(init) by {
        if NoIgnore(attrs) {
          forall i | 0 <= i < |init| ensures !IsIgnore(init[i]) {
            assert init[i] == attrs[i];
          }
        }
      }
      assert !NoIgnore(attrs) ==> !NoIgnore(init) by {
        if !NoIgnore(attrs) {
          var i :| 0 <= i < |attrs| && IsIgnore(attrs[i]);
          assert i < |init| && init[i] == attrs[i];
        }
      }
      IgnoreAfter(reason, init)
  }

  /** With an Ignore attribute, the last one decides the reason. */
  lemma {:induction false} IgnoreAfterLastWins(reason: Option<string>, attrs: seq<AttributeData>)
    requires !NoIgnore(attrs)
    ensures exists i :: 0 <= i < |attrs| && IsIgnore(attrs[i]) &&
              (forall j :: i < j < |attrs| ==> !IsIgnore(attrs[j])) &&
              IgnoreAfter(reason, attrs) == Some(IgnoreText(attrs[i]))
  {
    var n := |attrs| - 1;
    if !IsIgnore(attrs[n]) {
      var init := attrs[..n];
      assert !NoIgnore(init) by {
        var i :| 0 <= i < |attrs| && IsIgnore(attrs[i]);
        assert i < n && init[i] == attrs[i];
      }
      IgnoreAfterLastWins(reason, init);
      var k :| 0 <= k < |init| && IsIgnore(init[k]) &&
               (forall j :: k < j < |init| ==> !IsIgnore(init[j])) &&
               IgnoreAfter(reason, init) == Some(IgnoreText(init[k]));
      assert attrs[k] == init[k];
      forall j | k < j < |attrs| ensures !IsIgnore(attrs[j]) {
        if j < n { assert attrs[j] == init[j]; }
      }
    }
  }

  /** With an Ignore attribute, the reason before the visit does not matter. */
  lemma {:induction false} IgnoreAfterOverrides(reason: Option<string>, other: Option<string>, attrs: seq<AttributeData>)
    requires !NoIgnore(attrs)
    ensures IgnoreAfter(reason, attrs) == IgnoreAfter(other, attrs)
  {
    var n := |attrs| - 1;
    if !IsIgnore(attrs[n]) {
      var init := attrs[..n];
      assert !NoIgnore(init) by {
        var i :| 0 <= i < |attrs| && IsIgnore(attrs[i]);
        assert i < n && init[i] == attrs[i];
      }
      IgnoreAfterOverrides(reason, other, init);
    }
  }

  /** The ignore reason `ExtractCategoriesAndIgnore` returns: the method's attributes are
      visited first, then the class's. It is null exactly when neither carries Ignore. */
  function IgnoreReason(symbol: MethodSymbolInfo): (r: Option<string>)
    ensures r.None? <==> NoIgnore(symbol.attributes) && NoIgnore(symbol.containingType.attributes)
  {
    IgnoreAfter(IgnoreAfter(None, symbol.attributes), symbol.containingType.attributes)
  }

  /** A class-level Ignore overrides any method-level one. */
  lemma IgnoreReasonSpec(symbol: MethodSymbolInfo)
    ensures !NoIgnore(symbol.containingType.attributes) ==>
              IgnoreReason(symbol) == IgnoreAfter(None, symbol.containingType.attributes)
  {
    var c := symbol.containingType.attributes;
    if !NoIgnore(c) {
      IgnoreAfterOverrides(IgnoreAfter(None, symbol.attributes), None, c);
    }
  }

  /** `ExtractCategoriesAndIgnore`: the method's categories then the class's, and the ignore
      reason left by the last Ignore attribute visited. */
  method ExtractCategoriesAndIgnore(symbol: MethodSymbolInfo) returns (categories: seq<string>, ignoreReason: Option<string>)
    ensures categories == Categories(symbol.attributes) + Categories(symbol.containingType.attributes)
    ensures ignoreReason == IgnoreReason(symbol)
  {
    categories, ignoreReason := VisitAttributes(symbol.attributes, [], None);
    categories, ignoreReason := VisitAttributes(symbol.containingType.attributes, categories, ignoreReason);
  }

  /** One of the two attribute loops: categories are appended and the reason overwritten, in
      attribute order. */
  method VisitAttributes(attrs: seq<AttributeData>, categories: seq<string>, ignoreReason: Option<string>)
    returns (categories': seq<string>, ignoreReason': Option<string>)
    ensures categories' == categories + Categories(attrs)
    ensures ignoreReason' == IgnoreAfter(ignoreReason, attrs)
  {
    categories', ignoreReason' := categories, ignoreReason;
    var i := 0;
    while i < |attrs|
      invariant 0 <= i <= |attrs|
      invariant categories' == categories + Categories(attrs[..i])
      invariant ignoreReason' == IgnoreAfter(ignoreReason, attrs[..i])
    {
      VisitStep(attrs, i, ignoreReason);
      categories', ignoreReason' := VisitAttribute(attrs[i], categories', ignoreReason');
      i := i + 1;
    }
    assert attrs[..i] == attrs;
  }

  /** Visiting one more attribute extends both the categories and the reason by that attribute. */
  lemma VisitStep(attrs: seq<AttributeData>, i: nat, reason: Option<string>)
    requires i < |attrs|
    ensures Categories(attrs[..i + 1]) == Categories(attrs[..i]) + CategoryOf(attrs[i])
    ensures IgnoreAfter(reason, attrs[..i + 1]) ==
              if IsIgnore(attrs[i]) then Some(IgnoreText(attrs[i])) else IgnoreAfter(reason, attrs[..i])
  {
    assert attrs[..i + 1][..i] == attrs[..i];
  }

  /** The body shared by both attribute loops: a Category attribute with an argument appends
      its category, and an Ignore attribute overwrites the reason. */
  method VisitAttribute(attr: AttributeData, categories: seq<string>, ignoreReason: Option<string>)
    returns (categories': seq<string>, ignoreReason': Option<string>)
    ensures categories' == categories + CategoryOf(attr)
    ensures ignoreReason' == if IsIgnore(attr) then Some(IgnoreText(attr)) else ignoreReason
  {
    categories', ignoreReason' := categories, ignoreReason;
    if DisplayNameIs(attr, CategoryAttributeName) {
      if |attr.constructorArguments| > 0 {
        var cat := ValueText(attr.constructorArguments[0]).GetOr("");
        categories' := categories' + [cat];
      }
    }
    if DisplayNameIs(attr, IgnoreAttributeName) {
      if |attr.constructorArguments| > 0 && attr.constructorArguments[0].StringValue? {
        ignoreReason' := Some(attr.constructorArguments[0].s);
      } else {
        ignoreReason' := Some("Ignored");
      }
    }
  }
}
