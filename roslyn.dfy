/** Plain records standing for the compiler symbols and syntax that the source generator
    and the analyzers inspect. Each field is the answer the compiler API would give
    (`AttributeClass?.Name`, `AttributeClass?.ToDisplayString()`, `TypedConstant.Value`, ...);
    `None` stands for a `null` answer. */
module Roslyn {
  import opened Wrappers
  import opened Text
  import Seqs

  /** A position in a source file, as carried by a reported diagnostic. */
  datatype Location = Location(path: string, line: int, column: int)

  /** `TypedConstant.Value` of an attribute constructor argument. An enum argument
      arrives as its underlying `int`; `OtherValue` keeps the `ToString()` text of
      any other constant (a bool, a double, a type). */
  datatype ConstValue =
    | NullValue
    | IntValue(i: int32)
    | StringValue(s: string)
    | OtherValue(text: string)

  /** `value?.ToString()`. */
  function ValueText(v: ConstValue): (r: Option<string>)
    ensures r.None? <==> v.NullValue?
  {
    match v
    case NullValue => None
    case IntValue(i) => Some(IntToString(i as int))
    case StringValue(s) => Some(s)
    case OtherValue(text) => Some(text)
  }

  /** An attribute's class: its short `Name` and its `ToDisplayString()`. */
  datatype NamedType = NamedType(name: string, displayString: string)

  /** `AttributeData`: the class (absent when it did not bind) and the constructor arguments. */
  datatype AttributeData = AttributeData(attributeClass: Option<NamedType>, constructorArguments: seq<ConstValue>)

  /** `a.AttributeClass?.ToDisplayString() == fullName`. */
  predicate DisplayNameIs(a: AttributeData, fullName: string) {
    a.attributeClass.Some? && a.attributeClass.value.displayString == fullName
  }

  /** `a.AttributeClass?.Name == name`. */
  predicate ShortNameIs(a: AttributeData, name: string) {
    a.attributeClass.Some? && a.attributeClass.value.name == name
  }

  /** Whether some attribute has the given short name (`Any(a => a.AttributeClass?.Name == name)`). */
  function AnyShortName(attrs: seq<AttributeData>, name: string): (r: bool)
    ensures r <==> exists i :: 0 <= i < |attrs| && ShortNameIs(attrs[i], name)
  {
    Seqs.Any(attrs, a => ShortNameIs(a, name))
  }

  /** Whether some attribute has the given full name. */
  function AnyDisplayName(attrs: seq<AttributeData>, fullName: string): (r: bool)
    ensures r <==> exists i :: 0 <= i < |attrs| && DisplayNameIs(attrs[i], fullName)
  {
    Seqs.Any(attrs, a => DisplayNameIs(a, fullName))
  }

  /** The message arguments of a diagnostic. */
  datatype DiagnosticArg = IntArg(n: int) | TextArg(s: string)

  /** A reported diagnostic: rule id, location and message arguments. */
  datatype Diagnostic = Diagnostic(id: string, location: Location, args: seq<DiagnosticArg>)

  /** The display string of a type (`ITypeSymbol.ToDisplayString()`). */
  datatype TypeRef = TypeRef(display: string)

  /** An argument of an attribute's syntax: its location and the type the semantic model
      gives its expression (`GetTypeInfo(expr).Type`, absent when unknown). */
  datatype ArgumentSyntax = ArgumentSyntax(location: Location, exprType: Option<TypeRef>)

  /** An attribute as written on a declaration: the type containing the attribute
      constructor it binds to (absent when it does not bind), and its argument list
      (absent when written without parentheses). */
  datatype AttributeSyntax = AttributeSyntax(
    location: Location,
    constructorType: Option<string>,
    argumentList: Option<seq<ArgumentSyntax>>)

  /** The type a method is declared in: its `Name`, its namespace's `ToDisplayString()`
      ("<global namespace>" for the global namespace, so never empty), its assembly's `Name`,
      and its attributes. */
  datatype ContainingType = ContainingType(name: string, ns: string, assemblyName: string, attributes: seq<AttributeData>)

  /** The method symbol the semantic model declares for a method declaration. */
  datatype MethodSymbolInfo = MethodSymbolInfo(
    name: string,
    isStatic: bool,
    attributes: seq<AttributeData>,
    parameterTypes: seq<TypeRef>,
    returnType: Option<TypeRef>,
    containingType: ContainingType)

  /** A method declaration: the location of its identifier, its attribute lists, and the
      symbol the semantic model declares for it (absent when it does not resolve). */
  datatype MethodDeclaration = MethodDeclaration(
    identifierLocation: Location,
    attributeLists: seq<seq<AttributeSyntax>>,
    symbol: Option<MethodSymbolInfo>)

  /** The kinds of accessor a property declaration can list. */
  datatype AccessorKind = GetAccessor | SetAccessor | InitAccessor

  /** A property symbol: its name and attributes. */
  datatype PropertySymbolInfo = PropertySymbolInfo(name: string, attributes: seq<AttributeData>)

  /** A property declaration: its location, whether it carries the `required` modifier, its
      accessor list (absent for an expression-bodied property), and its symbol. */
  datatype PropertyDeclaration = PropertyDeclaration(
    location: Location,
    isRequired: bool,
    accessorList: Option<seq<AccessorKind>>,
    symbol: Option<PropertySymbolInfo>)

  /** A property or parameter symbol: its attributes and its first location. */
  datatype AttributedSymbol = AttributedSymbol(attributes: seq<AttributeData>, location: Location)

  const TestAttributeName: string := "Gandalf.Core.Attributes.TestAttribute"
  const ArgumentAttributeName: string := "Gandalf.Core.Attributes.ArgumentAttribute"
}
