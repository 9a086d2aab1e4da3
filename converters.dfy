/** The value converters a registry entry names for each parameter, and the
    placement constants that say which part of a request a parameter goes to
    (toornament/functions_dictionary_helper.py). */
module Converters {
  import opened Exceptions
  import opened Wrappers
  import opened Text

  /** The Python values a caller passes as request arguments.  A `Range`
      object is given by the three fields it holds when the request is built. */
  datatype Value =
    | VNone
    | VBool(b: bool)
    | VInt(i: int)
    | VStr(s: string)
    | VList(items: seq<Value>)
    | VRange(start: Option<int>, end: Option<int>, unit: Option<string>)

  /** `Converter.none`, `Converter.to_str`, `Converter.range`,
      `Converter.to_date` and `Converter.to_datetime`, in that order. */
  datatype Converter = Identity | ToStr | RangeFormat | ToDate | ToDatetime

  /** The placement codes of `ParameterType`: the index of the bucket a
      parameter is sorted into. */
  const HEADER: nat := 0
  const PATH: nat := 1
  const QUERY: nat := 2
  const JSON: nat := 3

  /** The number of buckets `prepare_request` allocates. */
  const BUCKETS: nat := 4

  lemma PlacementsAreDistinctBucketIndices()
    ensures [HEADER, PATH, QUERY, JSON] == [0, 1, 2, 3]
    ensures HEADER < BUCKETS && PATH < BUCKETS && QUERY < BUCKETS && JSON < BUCKETS
  {
  }

  function Join(sep: string, parts: seq<string>): string {
    if parts == [] then ""
    else if |parts| == 1 then parts[0]
    else parts[0] + sep + Join(sep, parts[1..])
  }

  /** `str(v)`, which is also what `'{}'.format(v)` inserts. */
  function Str(v: Value): string
    decreases v, 0
  {
    match v
    case VNone => "None"
    case VBool(b) => if b then "True" else "False"
    case VInt(i) => IntToString(i)
    case VStr(s) => s
    case VList(items) =>
      "[" + Join(", ", seq(|items|, k requires 0 <= k < |items| => Repr(items[k]))) + "]"
    case VRange(_, _, _) => "<toornament.range.Range object>"
  }

  /** `repr(v)`, used by `str` on the elements of a list. */
  function Repr(v: Value): string
    decreases v, 1
  {
    if v.VStr? then "'" + v.s + "'" else Str(v)
  }

  /** How `'{}'.format` shows an attribute that is an integer or `None`. */
  function OptionalIntText(o: Option<int>): string {
    if o.Some? then IntToString(o.value) else "None"
  }

  /** Calls the converter on one value.  `Converter.range` reads the
      argument's `start` and `end` attributes, which only a Range has. */
  function Apply(c: Converter, v: Value): (r: Result<Value>)
    ensures c == Identity || c == ToDate || c == ToDatetime ==> r == Ok(v)
    ensures c == ToStr ==> r.Ok? && r.value.VStr?
    ensures c == RangeFormat ==> (r.Ok? <==> v.VRange?)
    ensures r.Err? ==> r.error == AttributeError
  {
    match c
    case Identity => Ok(v)
    case ToStr => Ok(VStr(Str(v)))
    case RangeFormat =>
      if v.VRange? then Ok(VStr(OptionalIntText(v.start) + "-" + OptionalIntText(v.end)))
      else Err(AttributeError)
    case ToDate => Ok(v)
    case ToDatetime => Ok(v)
  }

  /** `Converter.to_str` of an integer is its decimal numeral: `int` reads
      the number back. */
  lemma ToStrOfInt(i: int)
    ensures Apply(ToStr, VInt(i)) == Ok(VStr(IntToString(i)))
    ensures ParseInt(Apply(ToStr, VInt(i)).value.s) == Ok(i)
  {
    ParseIntOfIntToString(i);
  }

  /** `Converter.to_str` of a string is the string itself. */
  lemma ToStrOfStr(s: string)
    ensures Apply(ToStr, VStr(s)) == Ok(VStr(s))
  {
  }

  /** Reads a `"{start}-{end}"` span of two decimal numerals back. */
  function ParseSpan(s: string): Option<(nat, nat)> {
    var i := FindFirst(s, '-');
    if i < |s| && 0 < i && i + 1 < |s| && AllDigits(s[..i]) && AllDigits(s[i + 1..])
    then Some((DigitsValue(s[..i]), DigitsValue(s[i + 1..])))
    else None
  }

  /** `Converter.range` of a Range with bounds `a` and `b` is exactly
      `"a-b"`: no unit, and no check that `a <= b`. */
  lemma {:induction false} RangeFormatSpan(a: nat, b: nat, unit: Option<string>)
    ensures Apply(RangeFormat, VRange(Some(a), Some(b), unit)) == Ok(VStr(NatToString(a) + "-" + NatToString(b)))
    ensures ParseSpan(NatToString(a) + "-" + NatToString(b)) == Some((a, b))
  {
    var x, y := NatToString(a), NatToString(b);
    DigitsHaveNo(x, '-');
    FindFirstAt(x, '-', y);
    var s := x + "-" + y;
    assert s[..|x|] == x && s[|x| + 1..] == y;
    DigitsValueOfNatToString(a);
    DigitsValueOfNatToString(b);
  }

  /** The range converter passes a reversed window through unchanged. */
  lemma RangeFormatDoesNotCheckOrder()
    ensures Apply(RangeFormat, VRange(Some(5), Some(2), None)) == Ok(VStr("5-2"))
  {
    var v := VRange(Some(5), Some(2), None);
    assert Apply(RangeFormat, v) == Ok(VStr(OptionalIntText(v.start) + "-" + OptionalIntText(v.end)));
    assert OptionalIntText(v.start) == "5" && OptionalIntText(v.end) == "2";
    assert "5" + "-" + "2" == "5-2";
  }
}
