/** The test descriptor: one runnable test case, immutable once constructed. */
module Descriptor {
  import opened Wrappers
  import opened Text

  /** A literal argument of a parameterised test: null, or a value identified by its source
      text. Only a value's hash code is ever observed. */
  datatype Literal = Null | Value(text: string)

  /** The `Func<Task>` that runs the test body, identified by the code that builds it. */
  datatype Callable = Callable(code: string)

  datatype DiscoveredTest = DiscoveredTest(
    uid: string,
    parentUid: Option<string>,
    filePath: Option<string>,
    assembly: string,
    ns: string,
    className: string,
    methodName: string,
    lineNumber: int32,
    linePosition: int32,
    endLineNumber: int32,
    endLinePosition: int32,
    parameters: Option<seq<Literal>>,
    invokeAsync: Callable,
    categories: seq<string>,
    ignoreReason: Option<string>)

  /** The constructor. Every argument is stored as given, optional ones defaulting to null,
      except that a null category array becomes the empty one. */
  function NewDiscoveredTest(
    uid: string,
    assembly: string,
    ns: string,
    className: string,
    methodName: string,
    invokeAsync: Callable,
    filePath: Option<string>,
    lineNumber: int32,
    linePosition: int32,
    endLineNumber: int32,
    endLinePosition: int32,
    parameters: Option<seq<Literal>> := None,
    parentUid: Option<string> := None,
    categories: Option<seq<string>> := None,
    ignoreReason: Option<string> := None): (t: DiscoveredTest)
    ensures t.uid == uid && t.assembly == assembly && t.ns == ns
    ensures t.className == className && t.methodName == methodName
    ensures t.invokeAsync == invokeAsync && t.filePath == filePath
    ensures t.lineNumber == lineNumber && t.linePosition == linePosition
    ensures t.endLineNumber == endLineNumber && t.endLinePosition == endLinePosition
    ensures t.parameters == parameters && t.parentUid == parentUid && t.ignoreReason == ignoreReason
    ensures categories.None? ==> t.categories == []
    ensures categories.Some? ==> t.categories == categories.value
  {
    DiscoveredTest(uid, parentUid, filePath, assembly, ns, className, methodName,
                   lineNumber, linePosition, endLineNumber, endLinePosition,
                   parameters, invokeAsync, categories.GetOr([]), ignoreReason)
  }

  /** Omitted optional arguments leave the descriptor without parameters, parent, categories
      or ignore reason. */
  lemma OmittedArgumentsDefault(uid: string, assembly: string, ns: string, className: string,
                                methodName: string, invokeAsync: Callable, filePath: Option<string>,
                                line: int32, column: int32, endLine: int32, endColumn: int32)
    ensures var t := NewDiscoveredTest(uid, assembly, ns, className, methodName, invokeAsync,
                                       filePath, line, column, endLine, endColumn);
            t.parameters.None? && t.parentUid.None? && t.categories == [] && t.ignoreReason.None?
  {
  }

  /** "{Namespace}.{ClassName}.{MethodName}". */
  function MethodPath(t: DiscoveredTest): string {
    t.ns + "." + t.className + "." + t.methodName
  }

  /** The decimal text of each parameter's hash code, in order; `None` when a parameter is
      null, on which `GetHashCode` throws `NullReferenceException`. */
  function HashTexts(ps: seq<Literal>, hashCode: string -> int32): (r: Option<seq<string>>)
    ensures r.None? <==> Null in ps
    ensures r.Some? ==> |r.value| == |ps| &&
                        forall i :: 0 <= i < |ps| ==> r.value[i] == IntToString(hashCode(ps[i].text) as int)
  {
    if |ps| == 0 then Some([])
    else match ps[0]
      case Null => None
      case Value(text) =>
        match HashTexts(ps[1..], hashCode)
        case None =>
          assert Null in ps[1..];
          None
        case Some(rest) => Some([IntToString(hashCode(text) as int)] + rest)
  }

  /** `FullName`: the method path followed by the parameters' hash codes joined by "."
      in parentheses; `hashCode` stands for `object.GetHashCode` on a non-null literal.
      `None` is the `NullReferenceException` a null parameter raises. */
  function FullName(t: DiscoveredTest, hashCode: string -> int32): (r: Option<string>)
    ensures r.None? <==> t.parameters.Some? && Null in t.parameters.value
  {
    match t.parameters
    case None => Some(MethodPath(t) + "()")
    case Some(ps) =>
      match HashTexts(ps, hashCode)
      case None => None
      case Some(texts) => Some(MethodPath(t) + "(" + Join(".", texts) + ")")
  }

  /** No parameters and an empty parameter array give the same "()" suffix. */
  lemma FullNameWithoutArguments(t: DiscoveredTest, hashCode: string -> int32)
    requires t.parameters.None? || t.parameters == Some([])
    ensures FullName(t, hashCode) == Some(MethodPath(t) + "()")
  {
    if t.parameters.Some? {
      assert HashTexts([], hashCode) == Some([]);
      assert Join(".", []) == "";
      assert MethodPath(t) + "(" + "" + ")" == MethodPath(t) + "()";
    }
  }

  /** With non-null parameters, the text inside the parentheses splits on "." into exactly one
      piece per parameter, and each piece reads back as that parameter's hash code. */
  lemma FullNameArguments(t: DiscoveredTest, hashCode: string -> int32)
    requires t.parameters.Some? && |t.parameters.value| > 0 && Null !in t.parameters.value
    ensures exists inner :: FullName(t, hashCode) == Some(MethodPath(t) + "(" + inner + ")") &&
                            |Split(inner, '.')| == |t.parameters.value| &&
                            forall i :: 0 <= i < |t.parameters.value| ==>
                              TryParseInt32(Split(inner, '.')[i]) == Some(hashCode(t.parameters.value[i].text))
  {
    var ps := t.parameters.value;
    var texts := HashTexts(ps, hashCode).value;
    forall i | 0 <= i < |texts| ensures '.' !in texts[i] {
      IntToStringFree(hashCode(ps[i].text) as int, '.');
    }
    SplitJoin(texts, '.');
    forall i | 0 <= i < |ps| ensures TryParseInt32(texts[i]) == Some(hashCode(ps[i].text)) {
      ParseOfToString(hashCode(ps[i].text));
    }
    var inner := Join(".", texts);
    assert FullName(t, hashCode) == Some(MethodPath(t) + "(" + inner + ")");
  }
}
