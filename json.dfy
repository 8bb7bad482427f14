/**
 * The value that juce::JSON::parse hands to the processor: a juce::var.
 *
 * Only the shape of the var matters to the processor (is it an object, an
 * array, something else) and the two conversions it applies to leaves:
 * `toString()` and the implicit conversion to float. Those conversions are
 * library code, so a parsed number carries its text rendering and a parsed
 * string carries the number juce reads from it.
 */
module Json {

  datatype Json =
    | Void                                   // JSON null, and what a missing property reads as
    | Bool(b: bool)
    | Num(number: real, text: string)        // text: juce's rendering of the number
    | Str(text: string, number: real)        // number: juce's numeric reading of the text
    | Arr(items: seq<Json>)
    | Obj(props: map<string, Json>)

  /** `v[key]`: a property of an object; anything else, or a missing key, reads as void. */
  function Get(v: Json, key: string): Json
  {
    if v.Obj? && key in v.props then v.props[key] else Void
  }

  /**
   * `v.isObject()`: true for objects and also for arrays, whose JUCE variant
   * type counts as an object type. Reading a property of an array gives void.
   */
  predicate IsObject(v: Json)
  {
    v.Obj? || v.Arr?
  }

  /** `v.toString()`. An array renders as "[Array]"; an object (an address in JUCE) as the empty string (see README). */
  function ToText(v: Json): string
  {
    match v
    case Void => ""
    case Bool(b) => if b then "1" else "0"
    case Num(_, text) => text
    case Str(text, _) => text
    case Arr(_) => "[Array]"
    case Obj(_) => ""
  }

  /** The implicit conversion `(float) v`: void, arrays and objects read as 0. */
  function ToFloat(v: Json): real
  {
    match v
    case Void => 0.0
    case Bool(b) => if b then 1.0 else 0.0
    case Num(number, _) => number
    case Str(_, number) => number
    case Arr(_) => 0.0
    case Obj(_) => 0.0
  }

  //--------------------------------------------------------------------------
  // Arrays.

  function Last<T>(s: seq<T>): T
    requires |s| > 0
  {
    s[|s| - 1]
  }

  /** The entries of an array that pass `isObject()` (objects and arrays), in order. */
  function ObjectEntries(items: seq<Json>): (r: seq<Json>)
    ensures |r| <= |items|
    ensures forall e | e in r :: IsObject(e)
    decreases |items|
  {
    if items == [] then []
    else
      var front := ObjectEntries(items[..|items| - 1]);
      if IsObject(Last(items)) then front + [Last(items)] else front
  }
}
