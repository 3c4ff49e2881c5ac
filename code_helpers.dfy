/** Text the source generator builds from symbols: the object initializer that fills a test
    class's injected properties, and the argument list of a call. */
module CodeHelpers {
  import opened Wrappers
  import opened Text
  import opened Roslyn

  // ---------------------------------------------------------------------------
  // Object initializer for injected properties

  /** A C# identifier: never empty. */
  type Identifier = s: string | |s| > 0 witness "_"

  /** A property of a test class: its name, its type in fully qualified format
      (`global::A.B.C`), and its attributes. */
  datatype PropertySymbol = PropertySymbol(name: Identifier, fullyQualifiedType: string, attributes: seq<AttributeData>)

  /** A member returned by `GetMembers()`; only properties matter here. */
  datatype MemberSymbol = PropertyMember(property: PropertySymbol) | OtherMember(name: string)

  const InjectAttributeName: string := "Gandalf.Core.Attributes.InjectAttribute"

  predicate IsInjectAttribute(a: AttributeData) {
    DisplayNameIs(a, InjectAttributeName)
  }

  /** A property carrying `InjectAttribute`, matched by its full name. */
  predicate IsInjected(p: PropertySymbol) {
    AnyDisplayName(p.attributes, InjectAttributeName)
  }

  /** `injectedProps`: the injected properties in member order. */
  function InjectedProperties(members: seq<MemberSymbol>): seq<PropertySymbol> {
    if |members| == 0 then [] else
      var last := members[|members| - 1];
      InjectedProperties(members[..|members| - 1]) +
        (if last.PropertyMember? && IsInjected(last.property) then [last.property] else [])
  }

  /** A property is collected exactly when it is an injected member. */
  lemma {:induction false} InjectedPropertiesSpec(members: seq<MemberSymbol>, p: PropertySymbol)
    ensures p in InjectedProperties(members) <==> PropertyMember(p) in members && IsInjected(p)
  {
    if |members| > 0 {
      var init := members[..|members| - 1];
      InjectedPropertiesSpec(init, p);
      assert members == init + [members[|members| - 1]];
    }
  }

  /** The lifetime selected by an Inject attribute's constructor arguments: the first argument
      (or `0`, Transient, when there is none) is turned into text and parsed as an `int`; text
      that does not parse falls back to the value itself when it is an `int`, else to 0.
      So no argument or a null one selects 0; an `int` (or enum) argument selects itself; a
      string or other constant selects its parsed text, or 0 when that does not parse, and
      the fallback to the `int` value is never reached. */
  function Lifetime(args: seq<ConstValue>): (r: int32)
    ensures |args| == 0 ==> r == 0
    ensures |args| > 0 && args[0].NullValue? ==> r == 0
    ensures |args| > 0 && args[0].IntValue? ==> r == args[0].i
    ensures |args| > 0 && args[0].StringValue? ==> r == TryParseInt32(args[0].s).GetOr(0)
    ensures |args| > 0 && args[0].OtherValue? ==> r == TryParseInt32(args[0].text).GetOr(0)
  {
    ParseOfToString(0);
    ParseOfToString(if |args| > 0 && args[0].IntValue? then args[0].i else 0);
    var value := if |args| > 0 then args[0] else IntValue(0);
    match ValueText(value)
    case None => 0
    case Some(text) =>
      match TryParseInt32(text)
      case Some(parsed) => parsed
      case None => if value.IntValue? then value.i else 0
  }

  /** The lifetime of an injected property, read from its first Inject attribute. */
  function InjectLifetime(p: PropertySymbol): int32 {
    match Seqs.First(p.attributes, IsInjectAttribute)
    case None => 0
    case Some(a) => Lifetime(a.constructorArguments)
  }

  /** `propRef`: Scoped (1) and Singleton (2) refer to a variable named after the property
      with its first character lower-cased; Transient (0) and every other value construct a
      new instance of the property's type. */
  function PropertyReference(p: PropertySymbol, lifetime: int32): (r: string)
    ensures lifetime == 1 || lifetime == 2 ==>
              |r| == |p.name| && r[0] == ToLowerInvariant(p.name[0]) && r[1..] == p.name[1..]
    ensures lifetime != 1 && lifetime != 2 ==> r == "new " + p.fullyQualifiedType + "()"
  {
    if lifetime == 0 then "new " + p.fullyQualifiedType + "()"
    else if lifetime == 1 || lifetime == 2 then [ToLowerInvariant(p.name[0])] + p.name[1..]
    else "new " + p.fullyQualifiedType + "()"
  }

  /** A scoped or singleton reference is the property name itself when that already starts
      with a character that is not an upper-case letter, and lower-casing it again changes nothing. */
  lemma ReferenceNaming(p: PropertySymbol, lifetime: int32)
    requires lifetime == 1 || lifetime == 2
    ensures !IsUpperLatin(p.name[0]) ==> PropertyReference(p, lifetime) == p.name
    ensures !IsUpperLatin(PropertyReference(p, lifetime)[0])
  {
    var r := PropertyReference(p, lifetime);
    if !IsUpperLatin(p.name[0]) {
      assert r == [p.name[0]] + p.name[1..];
    }
  }

  /** "Name = ref" for one property. */
  function Assignment(p: PropertySymbol): string
  {
    p.name + " = " + PropertyReference(p, InjectLifetime(p))
  }

  /** The initializer text: "()" without injected properties, else the assignments joined by
      ", " between " { " and " }". */
  function InitializerText(members: seq<MemberSymbol>): (r: string)
    ensures r == "()" <==> |InjectedProperties(members)| == 0
    ensures r != "()" ==> |r| >= 5 && r[..3] == " { " && r[|r| - 2..] == " }"
  {
    var props := InjectedProperties(members);
    if |props| == 0 then "()"
    else
      var text := " { " + Join(", ", Seqs.Map(props, Assignment)) + " }";
      assert text[0] == ' ';
      text
  }

  /** "()" is produced exactly when no member is an injected property. */
  lemma InitializerEmpty(members: seq<MemberSymbol>)
    ensures InitializerText(members) == "()" <==>
              forall i :: 0 <= i < |members| ==> !(members[i].PropertyMember? && IsInjected(members[i].property))
  {
    var props := InjectedProperties(members);
    if |props| > 0 {
      InjectedPropertiesSpec(members, props[0]);
      var i :| 0 <= i < |members| && members[i] == PropertyMember(props[0]);
      var text := " { " + Join(", ", Seqs.Map(props, Assignment)) + " }";
      assert text[0] == ' ';
      assert InitializerText(members) == text;
    } else {
      forall i | 0 <= i < |members| ensures !(members[i].PropertyMember? && IsInjected(members[i].property)) {
        if members[i].PropertyMember? {
          InjectedPropertiesSpec(members, members[i].property);
        }
      }
    }
  }

  /** The body of the loop over injected properties: the lifetime from the first Inject
      attribute, then the reference it selects. */
  method BuildAssignment(prop: PropertySymbol) returns (assignment: string)
    ensures assignment == Assignment(prop)
  {
    var injectAttr := Seqs.First(prop.attributes, IsInjectAttribute);
    var instanceTypeInt := if injectAttr.Some? then Lifetime(injectAttr.value.constructorArguments) else 0;
    var propRef := PropertyReference(prop, instanceTypeInt);
    assignment := prop.name + " = " + propRef;
  }

  /** `BuildInjectedObjectInitializer`: collects the injected properties, then appends one
      assignment per property. */
  method BuildInjectedObjectInitializer(members: seq<MemberSymbol>) returns (r: string)
    ensures r == InitializerText(members)
  {
    var injectedProps := InjectedProperties(members);
    if |injectedProps| == 0 {
      return "()";
    }
    var props: seq<string> := [];
    var i := 0;
    while i < |injectedProps|
      invariant 0 <= i <= |injectedProps|
      invariant props == Seqs.Map(injectedProps[..i], Assignment)
    {
      var assignment := BuildAssignment(injectedProps[i]);
      assert injectedProps[..i + 1][..i] == injectedProps[..i];
      props := props + [assignment];
      i := i + 1;
    }
    assert injectedProps[..i] == injectedProps;
    r := " { " + Join(", ", props) + " }";
  }

  // ---------------------------------------------------------------------------
  // Call arguments

  datatype TypeKind = EnumKind | TypeParameterKind | ClassKind | InterfaceKind | StructKind | ArrayKind | DelegateKind | OtherKind

  /** The parts of a parameter's type that choose its default argument. */
  datatype TypeSymbol = TypeSymbol(isSystemString: bool, typeKind: TypeKind, isReferenceType: bool)

  datatype ParameterSymbol = ParameterSymbol(name: string, parameterType: TypeSymbol)

  /** The placeholder for a parameter no argument is given for: checked in the order string,
      enum, reference type or type parameter, anything else. */
  function DefaultArgument(t: TypeSymbol): (r: string)
    ensures r == "\"\"" <==> t.isSystemString
    ensures r == "null" <==>
              !t.isSystemString && t.typeKind != EnumKind && (t.isReferenceType || t.typeKind == TypeParameterKind)
    ensures r == "default" <==>
              !t.isSystemString && (t.typeKind == EnumKind || (!t.isReferenceType && t.typeKind != TypeParameterKind))
  {
    if t.isSystemString then "\"\""
    else if t.typeKind == EnumKind then "default"
    else if t.isReferenceType || t.typeKind == TypeParameterKind then "null"
    else "default"
  }

  /** The argument at position `i`: the given one when there is one, else the default. */
  function ArgumentAt(parameters: seq<ParameterSymbol>, argList: Option<seq<string>>, i: nat): string
    requires i < |parameters|
  {
    if argList.Some? && i < |argList.value| then argList.value[i] else DefaultArgument(parameters[i].parameterType)
  }

  /** `BuildCallArguments`: one entry per parameter, in order; given arguments are used as
      they are and the remaining positions get their type's default. */
  method BuildCallArguments(parameters: seq<ParameterSymbol>, argList: Option<seq<string>>)
    returns (callArguments: seq<string>)
    ensures |callArguments| == |parameters|
    ensures forall i :: 0 <= i < |parameters| ==> callArguments[i] == ArgumentAt(parameters, argList, i)
    ensures argList.Some? && |argList.value| >= |parameters| ==> callArguments == argList.value[..|parameters|]
    ensures argList.None? ==>
              forall i :: 0 <= i < |parameters| ==> callArguments[i] == DefaultArgument(parameters[i].parameterType)
  {
    callArguments := [];
    var i := 0;
    while i < |parameters|
      invariant 0 <= i <= |parameters|
      invariant |callArguments| == i
      invariant forall k :: 0 <= k < i ==> callArguments[k] == ArgumentAt(parameters, argList, k)
    {
      var parameter := parameters[i];
      if argList.Some? && i < |argList.value| {
        callArguments := callArguments + [argList.value[i]];
      } else if parameter.parameterType.isSystemString {
        callArguments := callArguments + ["\"\""];
      } else if parameter.parameterType.typeKind == EnumKind {
        callArguments := callArguments + ["default"];
      } else if parameter.parameterType.isReferenceType || parameter.parameterType.typeKind == TypeParameterKind {
        callArguments := callArguments + ["null"];
      } else {
        callArguments := callArguments + ["default"];
      }
      i := i + 1;
    }
  }
}
