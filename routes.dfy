/** The arpeggio endpoint's request handling: defaults for absent fields,
    then a chain of checks that each answer 400 with a fixed message, then
    the generator on the coerced numbers. */
module Routes {
  import opened Js
  import opened Arpeggio

  /** The fields of the request body the handler reads. A missing body, or
      one that is not an object, reads as every field `Undefined`. */
  datatype Body = Body(key: Value, chord: Value, pattern: Value, position: Value,
                       length: Value, tempo: Value, subdivision: Value)

  const EMPTY_BODY := Body(Undefined, Undefined, Undefined, Undefined, Undefined, Undefined, Undefined)

  datatype Response = Success(result: ArpeggioResult) | BadRequest(error: string)

  /** A destructuring default: it applies only when the field is absent,
      not when it is `null`. */
  function WithDefault(v: Value, d: Value): Value
  {
    if v.Undefined? then d else v
  }

  /** The key and chord test: a truthy value of type string, that is, a
      non-empty string. */
  predicate IsRequiredString(v: Value)
  {
    v.Str? && v.s != ""
  }

  /** `Number(v)`, keeping only finite results: `null` is 0, booleans are 0
      and 1, the empty string is 0, a string of decimal digits is its value.
      An array reads as the number of its `String` form: the empty array is
      0, a one-element array reads as its element (with `null` and
      `undefined` joining as the empty string), and two or more elements
      join with a comma, which is NaN. Everything else is NaN or infinite. */
  function ToFiniteNumber(v: Value): (r: Option<real>)
    ensures v.Num? ==> r == Some(v.r)
    ensures v.Undefined? || v.NonFinite? || v.Obj? ==> r.None?
    ensures v == Str("") || v == Null || v == Bool(false) ==> r == Some(0.0)
    ensures v == Bool(true) ==> r == Some(1.0)
    ensures v == Arr([]) ==> r == Some(0.0)
    ensures v.Arr? && |v.elems| >= 2 ==> r.None?
    ensures v.Arr? && |v.elems| == 1 && (v.elems[0].Num? || v.elems[0].Str?) ==> r == ToFiniteNumber(v.elems[0])
    ensures v.Arr? && |v.elems| == 1 && v.elems[0].Bool? ==> r.None?
    decreases v
  {
    match v
    case Undefined => None
    case Null => Some(0.0)
    case Bool(b) => Some(if b then 1.0 else 0.0)
    case Num(x) => Some(x)
    case NonFinite => None
    case Str(s) =>
      if forall i :: 0 <= i < |s| ==> IsDigit(s[i]) then Some(DigitsValue(s) as real) else None
    case Arr(elems) =>
      if |elems| == 0 then Some(0.0)
      else if |elems| >= 2 then None
      else (
        match elems[0]
        case Undefined => Some(0.0)
        case Null => Some(0.0)
        case Bool(_) => None
        case _ => ToFiniteNumber(elems[0]))
    case Obj => None
  }

  /** A finite number within [lo, hi]. */
  predicate InRange(n: Option<real>, lo: real, hi: real)
  {
    n.Some? && lo <= n.value <= hi
  }

  /** The generator input the handler builds once every check has passed. */
  function InputOf(body: Body): (input: ArpeggioInput)
    requires IsRequiredString(body.key) && IsRequiredString(body.chord)
    requires ToFiniteNumber(WithDefault(body.length, Num(16.0))).Some?
    requires ToFiniteNumber(WithDefault(body.tempo, Num(120.0))).Some?
    requires ToFiniteNumber(WithDefault(body.subdivision, Num(2.0))).Some?
    ensures input.key == body.key.s && input.chord == body.chord.s
    ensures input.pattern == WithDefault(body.pattern, Str("ascending"))
    ensures input.position == WithDefault(body.position, Str("low"))
    ensures Some(input.length) == ToFiniteNumber(WithDefault(body.length, Num(16.0)))
    ensures Some(input.tempo) == ToFiniteNumber(WithDefault(body.tempo, Num(120.0)))
    ensures Some(input.subdivision) == ToFiniteNumber(WithDefault(body.subdivision, Num(2.0)))
  {
    ArpeggioInput(
      body.key.s, body.chord.s,
      WithDefault(body.pattern, Str("ascending")), WithDefault(body.position, Str("low")),
      ToFiniteNumber(WithDefault(body.length, Num(16.0))).value,
      ToFiniteNumber(WithDefault(body.tempo, Num(120.0))).value,
      ToFiniteNumber(WithDefault(body.subdivision, Num(2.0))).value)
  }

  /** The handler: the first failing check answers with its message, in the
      order key, chord, length, tempo, subdivision; otherwise the generated
      arpeggio. */
  function Handle(body: Body): (r: Response)
    ensures r == BadRequest("key is required") <==> !IsRequiredString(body.key)
    ensures r == BadRequest("chord is required")
      <==> IsRequiredString(body.key) && !IsRequiredString(body.chord)
    ensures r == BadRequest("invalid length")
      <==> && IsRequiredString(body.key) && IsRequiredString(body.chord)
           && !InRange(ToFiniteNumber(WithDefault(body.length, Num(16.0))), 1.0, 128.0)
    ensures r == BadRequest("invalid tempo")
      <==> && IsRequiredString(body.key) && IsRequiredString(body.chord)
           && InRange(ToFiniteNumber(WithDefault(body.length, Num(16.0))), 1.0, 128.0)
           && !InRange(ToFiniteNumber(WithDefault(body.tempo, Num(120.0))), 30.0, 300.0)
    ensures r == BadRequest("invalid subdivision")
      <==> && IsRequiredString(body.key) && IsRequiredString(body.chord)
           && InRange(ToFiniteNumber(WithDefault(body.length, Num(16.0))), 1.0, 128.0)
           && InRange(ToFiniteNumber(WithDefault(body.tempo, Num(120.0))), 30.0, 300.0)
           && !InRange(ToFiniteNumber(WithDefault(body.subdivision, Num(2.0))), 1.0, 8.0)
    ensures r.Success? || r.error in {"key is required", "chord is required", "invalid length", "invalid tempo", "invalid subdivision"}
  {
    var lengthNum := ToFiniteNumber(WithDefault(body.length, Num(16.0)));
    var tempoNum := ToFiniteNumber(WithDefault(body.tempo, Num(120.0)));
    var subNum := ToFiniteNumber(WithDefault(body.subdivision, Num(2.0)));
    if !IsRequiredString(body.key) then BadRequest("key is required")
    else if !IsRequiredString(body.chord) then BadRequest("chord is required")
    else if !InRange(lengthNum, 1.0, 128.0) then BadRequest("invalid length")
    else if !InRange(tempoNum, 30.0, 300.0) then BadRequest("invalid tempo")
    else if !InRange(subNum, 1.0, 8.0) then BadRequest("invalid subdivision")
    else Success(GenerateArpeggio(InputOf(body)))
  }

  /** A request passes exactly when every check passes, and then the
      generator runs on the request's strings, its pattern and position
      unchecked, and its coerced numbers, all within their ranges. */
  lemma HandleSuccess(body: Body)
    ensures Handle(body).Success? <==>
      && IsRequiredString(body.key) && IsRequiredString(body.chord)
      && InRange(ToFiniteNumber(WithDefault(body.length, Num(16.0))), 1.0, 128.0)
      && InRange(ToFiniteNumber(WithDefault(body.tempo, Num(120.0))), 30.0, 300.0)
      && InRange(ToFiniteNumber(WithDefault(body.subdivision, Num(2.0))), 1.0, 8.0)
    ensures Handle(body).Success? ==>
      var input := InputOf(body);
      && 1.0 <= input.length <= 128.0 && 30.0 <= input.tempo <= 300.0 && 1.0 <= input.subdivision <= 8.0
      && Handle(body).result == GenerateArpeggio(input)
  {
  }

  /** A successful response echoes the request in its meta block and holds
      at most `length`, so at most 128, events. */
  lemma SuccessBounded(body: Body)
    requires Handle(body).Success?
    ensures Handle(body).result.meta
      == Meta(body.key.s, body.chord.s, WithDefault(body.pattern, Str("ascending")),
              WithDefault(body.position, Str("low")), InputOf(body).tempo, InputOf(body).subdivision)
    ensures |Handle(body).result.events| <= InputOf(body).length.Floor <= 128
  {
    HandleSuccess(body);
    GenerateArpeggioMeaning(InputOf(body));
  }

  /** With only a key and a chord, the defaults apply: ascending, low
      position, 16 steps at 120 beats per minute, two steps per beat. */
  lemma DefaultsApply(key: string, chord: string)
    requires key != "" && chord != ""
    ensures Handle(EMPTY_BODY.(key := Str(key), chord := Str(chord)))
      == Success(GenerateArpeggio(ArpeggioInput(key, chord, Str("ascending"), Str("low"), 16.0, 120.0, 2.0)))
  {
    var body := EMPTY_BODY.(key := Str(key), chord := Str(chord));
    assert WithDefault(body.length, Num(16.0)) == Num(16.0);
    assert WithDefault(body.tempo, Num(120.0)) == Num(120.0);
    assert WithDefault(body.subdivision, Num(2.0)) == Num(2.0);
    assert InputOf(body) == ArpeggioInput(key, chord, Str("ascending"), Str("low"), 16.0, 120.0, 2.0);
  }

  /** An array length of one number is served as that number. */
  lemma SingletonArrayLengthServed(key: string, chord: string)
    requires key != "" && chord != ""
    ensures Handle(EMPTY_BODY.(key := Str(key), chord := Str(chord), length := Arr([Num(16.0)])))
      == Success(GenerateArpeggio(ArpeggioInput(key, chord, Str("ascending"), Str("low"), 16.0, 120.0, 2.0)))
  {
    var body := EMPTY_BODY.(key := Str(key), chord := Str(chord), length := Arr([Num(16.0)]));
    assert ToFiniteNumber(WithDefault(body.length, Num(16.0))) == Some(16.0);
    assert WithDefault(body.tempo, Num(120.0)) == Num(120.0);
    assert WithDefault(body.subdivision, Num(2.0)) == Num(2.0);
    assert InputOf(body) == ArpeggioInput(key, chord, Str("ascending"), Str("low"), 16.0, 120.0, 2.0);
  }

  /** An array length of two numbers reads as NaN and is refused. */
  lemma PairArrayLengthRefused(key: string, chord: string)
    requires key != "" && chord != ""
    ensures Handle(EMPTY_BODY.(key := Str(key), chord := Str(chord), length := Arr([Num(1.0), Num(2.0)])))
      == BadRequest("invalid length")
  {
  }

  /** A missing body is refused for its key first. */
  lemma EmptyBodyRefused()
    ensures Handle(EMPTY_BODY) == BadRequest("key is required")
  {
  }

  /** `null` is not absent: it takes no default, and as a number it reads
      as 0, so a `null` length is refused. */
  lemma NullLengthRefused(key: string, chord: string)
    requires key != "" && chord != ""
    ensures Handle(EMPTY_BODY.(key := Str(key), chord := Str(chord), length := Null)) == BadRequest("invalid length")
  {
  }
}
