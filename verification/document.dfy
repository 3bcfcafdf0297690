/**
 * The generic document that crosses the Flutter method channel: the values
 * Flutter's standard message codec carries (null, booleans, integers,
 * doubles, strings, double arrays, lists and string-keyed maps), and the
 * single reply a method call ends with.
 */
module Document {
  import opened Wrappers

  /** The range of a Java `int`; the codec delivers a Dart integer outside it as a `Long`. */
  const IntMin: int := -0x8000_0000
  const IntMax: int := 0x7fff_ffff

  predicate InIntRange(i: int)
  {
    IntMin <= i <= IntMax
  }

  /** A Java `String` reference: `None` is `null`. */
  type JStr = Option<string>

  datatype Doc =
    | Null
    | Bool(b: bool)
    | Int(i: int)            // java.lang.Integer / Long
    | Double(d: real)        // java.lang.Double, and Float widened by the codec
    | Str(s: string)
    | Bytes(data: seq<bv8>)        // a Java byte[] (a Uint8List on the Dart side)
    | Doubles(values: seq<real>)  // a Java double[] (a Float64List on the Dart side)
    | List(items: seq<Doc>)       // a java.util.List
    | Obj(fields: map<string, Doc>)  // a java.util.Map<String, Object>

  /** How `map.put(key, s)` stores a nullable string: null stays an explicit null. */
  function StrDoc(s: JStr): (d: Doc)
    ensures d == Null <==> s.None?
    ensures s.Some? ==> d.Str? && d.s == s.value
  {
    match s
    case None => Null
    case Some(v) => Str(v)
  }

  /** A list of nullable strings, as `Arrays.asList(String[])` stores it. */
  function StrListDoc(ss: seq<JStr>): (d: Doc)
    ensures d.List? && |d.items| == |ss|
    ensures forall i :: 0 <= i < |ss| ==> d.items[i] == StrDoc(ss[i])
  {
    List(seq(|ss|, i requires 0 <= i < |ss| => StrDoc(ss[i])))
  }

  /** `map.get(key)` / `call.argument(key)`: a missing key reads as null. */
  function Get(m: map<string, Doc>, key: string): (d: Doc)
    ensures key !in m ==> d == Null
    ensures key in m ==> d == m[key]
  {
    if key in m then m[key] else Null
  }

  /**
   * The cast `(Integer) x`: null passes the cast, an `Integer` is read, and
   * anything else (a `Long` included) fails with a `ClassCastException`.
   */
  function CastInteger(d: Doc): (r: Result<Option<int>, JavaException>)
    ensures r == Ok(None) <==> d == Null
    ensures r.Ok? && r.value.Some? <==> d.Int? && InIntRange(d.i)
    ensures r.Ok? && r.value.Some? ==> d.Int? && r.value.value == d.i
    ensures r.Err? ==> r.error == ClassCastException
  {
    if d == Null then Ok(None)
    else if d.Int? && InIntRange(d.i) then Ok(Some(d.i))
    else Err(ClassCastException)
  }

  /** `(Integer) x` used as an `int`: a null additionally fails to unbox. */
  function UnboxInteger(d: Doc): (r: Result<int, JavaException>)
    ensures r.Ok? <==> d.Int? && InIntRange(d.i)
    ensures r.Ok? ==> r.value == d.i
    ensures r.Err? ==> (r.error == NullPointerException <==> d == Null)
    ensures r.Err? ==> r.error == NullPointerException || r.error == ClassCastException
  {
    var boxed :- CastInteger(d);
    if boxed.None? then Err(NullPointerException) else Ok(boxed.value)
  }

  /** `(String) x`: null passes, another type fails the cast. */
  function CastString(d: Doc): (r: Result<JStr, JavaException>)
    ensures r == Ok(None) <==> d == Null
    ensures r.Ok? && r.value.Some? <==> d.Str?
    ensures r.Ok? && r.value.Some? ==> d.Str? && r.value.value == d.s
    ensures r.Err? ==> r.error == ClassCastException
  {
    if d == Null then Ok(None) else if d.Str? then Ok(Some(d.s)) else Err(ClassCastException)
  }

  /** `(Double) x`: an `Integer` is not a `Double`, so it fails the cast. */
  function CastDouble(d: Doc): (r: Result<Option<real>, JavaException>)
    ensures r == Ok(None) <==> d == Null
    ensures r.Ok? && r.value.Some? <==> d.Double?
    ensures r.Ok? && r.value.Some? ==> d.Double? && r.value.value == d.d
    ensures r.Err? ==> r.error == ClassCastException
  {
    if d == Null then Ok(None) else if d.Double? then Ok(Some(d.d)) else Err(ClassCastException)
  }

  /** `(Map<String, Object>) x`. */
  function CastMap(d: Doc): (r: Result<Option<map<string, Doc>>, JavaException>)
    ensures r == Ok(None) <==> d == Null
    ensures r.Ok? && r.value.Some? <==> d.Obj?
    ensures r.Ok? && r.value.Some? ==> d.Obj? && r.value.value == d.fields
    ensures r.Err? ==> r.error == ClassCastException
  {
    if d == Null then Ok(None) else if d.Obj? then Ok(Some(d.fields)) else Err(ClassCastException)
  }

  /** `(byte[]) x`. */
  function CastBytes(d: Doc): (r: Result<Option<seq<bv8>>, JavaException>)
    ensures r == Ok(None) <==> d == Null
    ensures r.Ok? && r.value.Some? <==> d.Bytes?
    ensures r.Ok? && r.value.Some? ==> d.Bytes? && r.value.value == d.data
    ensures r.Err? ==> r.error == ClassCastException
  {
    if d == Null then Ok(None) else if d.Bytes? then Ok(Some(d.data)) else Err(ClassCastException)
  }

  /** Why an `IllegalArgumentException` was thrown. */
  datatype Reason =
    | HandleAlreadyExists(handle: int)
    | HandleDoesNotExist(handle: int)
    | NoImageType(imageType: string)
    | NotAMode(mode: string)
    | RejectedImage

  /** The unchecked Java exceptions that can escape the bridge. */
  datatype JavaException =
    | NullPointerException
    | ClassCastException
    | IllegalArgumentException(reason: Reason)

  /**
   * What a method call ends with: one of the three replies of
   * `MethodChannel.Result` (`success`, `error`, `notImplemented`), or an
   * exception thrown out of the handler instead of a reply.
   */
  datatype Reply =
    | Success(result: Doc)
    | Error(code: string, message: JStr)
    | NotImplemented
    | Threw(exception: JavaException)
}
