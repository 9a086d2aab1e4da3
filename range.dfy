/** The pagination window a caller passes as the `range` argument
    (toornament/range.py): a mutable object with a start, an end and a unit,
    whose setters validate their input and which renders itself as the value
    of an HTTP `Range` header. */
module RangeWindow {
  import opened Exceptions
  import opened Wrappers
  import opened Text
  import Converters

  /** `check_for_range(a, b)`: raises BadRange when the window is reversed. */
  function CheckForRange(a: int, b: int): (o: Outcome)
    ensures o.Fail? <==> a > b
    ensures o.Fail? ==> o.error == BadRange
  {
    if a > b then Fail(BadRange) else Pass
  }

  /** What `set_unit` stores: the unit trimmed and lower-cased. */
  function NormalizeUnit(u: string): string {
    Lower(Strip(u))
  }

  /** Lower-casing keeps whitespace where it was, so normalizing a normalized
      unit changes nothing. */
  lemma NormalizeUnitIdempotent(u: string)
    ensures NormalizeUnit(NormalizeUnit(u)) == NormalizeUnit(u)
  {
    var n := NormalizeUnit(u);
    var t := Strip(u);
    assert |n| == |t|;
    assert |n| > 0 ==> !IsSpace(t[0]) && !IsSpace(t[|t| - 1]);
    StripOfTrimmed(n);
    LowerIdempotent(t);
  }

  /** How `'{0.unit}'` shows the unit: the string, or `None` when unset. */
  function UnitText(u: Option<string>): string {
    if u.Some? then u.value else "None"
  }

  /** The wire form `"{unit}={start}-{end}"` of a pagination header. */
  function HeaderText(unit: string, start: nat, end: nat): string {
    unit + "=" + NatToString(start) + "-" + NatToString(end)
  }

  /** Reads a pagination header back: the unit is everything before the last
      `=`, the bounds are the numerals around the `-` after it. */
  function ParseHeaderText(h: string): Option<(string, nat, nat)> {
    var i := FindLast(h, '=');
    if i.None? then None
    else
      var span := Converters.ParseSpan(h[i.value + 1..]);
      if span.None? then None else Some((h[..i.value], span.value.0, span.value.1))
  }

  /** The header text determines the unit and both bounds, whatever
      characters the unit holds. */
  lemma {:induction false} HeaderTextRoundTrip(unit: string, start: nat, end: nat)
    ensures ParseHeaderText(HeaderText(unit, start, end)) == Some((unit, start, end))
  {
    var x, y := NatToString(start), NatToString(end);
    var span := x + "-" + y;
    DigitsHaveNo(x, '=');
    DigitsHaveNo(y, '=');
    assert '=' !in span by {
      assert forall k :: 0 <= k < |span| ==> span[k] == (if k < |x| then x[k] else if k == |x| then '-' else y[k - |x| - 1]);
    }
    var h := HeaderText(unit, start, end);
    assert h == unit + "=" + span;
    FindLastAt(unit, '=', span);
    assert h[|unit| + 1..] == span && h[..|unit|] == unit;
    Converters.RangeFormatSpan(start, end, None);
  }

  class Range {
    var start: Option<nat>
    var end: Option<nat>
    var unit: Option<string>

    /** The first three assignments of `__init__`: every field unset. */
    constructor Empty()
      ensures start == None && end == None && unit == None
    {
      start, end, unit := None, None, None;
    }

    /** `Range(start, end, unit=unit)`: each argument that is given goes
        through its setter, in the order start, end, unit.  The two bounds
        are NOT compared, so a reversed window can be constructed. */
    static method New(start: Option<int>, end: Option<int>, unit: Option<string>) returns (r: Result<Range>)
      ensures r.Ok? <==> (start.Some? ==> start.value >= 0) && (end.Some? ==> end.value >= 0)
      ensures r.Err? ==> r.error == ValueError
      ensures r.Ok? ==> fresh(r.value)
      ensures r.Ok? ==> r.value.start == (if start.Some? then Some(start.value as nat) else None)
      ensures r.Ok? ==> r.value.end == (if end.Some? then Some(end.value as nat) else None)
      ensures r.Ok? ==> r.value.unit == (if unit.Some? then Some(NormalizeUnit(unit.value)) else None)
    {
      var range := new Range.Empty();
      if start.Some? {
        var o := range.SetStart(start.value);
        if o.Fail? { return Err(o.error); }
      }
      if end.Some? {
        var o := range.SetEnd(end.value);
        if o.Fail? { return Err(o.error); }
      }
      if unit.Some? {
        range.SetUnit(unit.value);
      }
      return Ok(range);
    }

    /** `set_start`: a negative start raises ValueError before anything is
        stored. */
    method SetStart(v: int) returns (o: Outcome)
      modifies this`start
      ensures o == (if v < 0 then Fail(ValueError) else Pass)
      ensures start == (if v < 0 then old(start) else Some(v as nat))
    {
      if v < 0 {
        return Fail(ValueError);
      }
      start := Some(v as nat);
      return Pass;
    }

    /** `set_end`, likewise. */
    method SetEnd(v: int) returns (o: Outcome)
      modifies this`end
      ensures o == (if v < 0 then Fail(ValueError) else Pass)
      ensures end == (if v < 0 then old(end) else Some(v as nat))
    {
      if v < 0 {
        return Fail(ValueError);
      }
      end := Some(v as nat);
      return Pass;
    }

    /** `set_unit`: stores the unit trimmed and lower-cased. */
    method SetUnit(u: string)
      modifies this`unit
      ensures unit == Some(NormalizeUnit(u))
    {
      unit := Some(Lower(Strip(u)));
    }

    /** `set_range`: the list must have two entries, the first not above
        the second; then the two setters run.  Either both bounds are
        stored or neither is: once the order check has passed, a
        non-negative start implies a non-negative end, so the second setter
        cannot fail after the first has stored its value. */
    method SetRange(range: seq<int>) returns (o: Outcome)
      modifies this`start, this`end
      ensures o == (if |range| != 2 then Fail(ValueError)
                    else if range[0] > range[1] then Fail(BadRange)
                    else if range[0] < 0 then Fail(ValueError)
                    else Pass)
      ensures o.Pass? ==> start == Some(range[0] as nat) && end == Some(range[1] as nat)
      ensures o.Fail? ==> start == old(start) && end == old(end)
    {
      if |range| != 2 {
        return Fail(ValueError);
      }
      o := CheckForRange(range[0], range[1]);
      if o.Fail? {
        return;
      }
      o := SetStart(range[0]);
      if o.Fail? {
        return;
      }
      o := SetEnd(range[1]);
    }

    /** `get_header_value`: compares the bounds again (a comparison with an
        unset bound raises TypeError in Python) and renders
        `"{unit}={start}-{end}"`.  Nothing is changed. */
    method GetHeaderValue() returns (r: Result<string>)
      ensures r.Err? <==> start.None? || end.None? || start.value > end.value
      ensures r.Err? ==> r.error == (if start.None? || end.None? then TypeError else BadRange)
      ensures r.Ok? ==> r.value == HeaderText(UnitText(unit), start.value, end.value)
      ensures r.Ok? ==> ParseHeaderText(r.value) == Some((UnitText(unit), start.value, end.value))
    {
      if start.None? || end.None? {
        return Err(TypeError);
      }
      var o := CheckForRange(start.value, end.value);
      if o.Fail? {
        return Err(o.error);
      }
      r := Ok(UnitText(unit) + "=" + NatToString(start.value) + "-" + NatToString(end.value));
      HeaderTextRoundTrip(UnitText(unit), start.value, end.value);
    }

    /** The object as a request argument sees it: `Converter.range` and
        `str` read its start, end and unit as they are when the request is
        prepared. */
    function AsValue(): (v: Converters.Value)
      reads this
      ensures v == Converters.VRange(start, end, unit)
    {
      Converters.VRange(start, end, unit)
    }

    /** `Converter.range` reads the object's bounds as they are now: two set
        bounds give the text `start-end`, which reads back to them, and the
        unit plays no part. */
    lemma ConvertedSpan()
      requires start.Some? && end.Some?
      ensures Converters.Apply(Converters.RangeFormat, AsValue())
           == Ok(Converters.VStr(NatToString(start.value) + "-" + NatToString(end.value)))
      ensures Converters.ParseSpan(Converters.Apply(Converters.RangeFormat, AsValue()).value.s)
           == Some((start.value, end.value))
    {
      Converters.RangeFormatSpan(start.value, end.value, unit);
    }
  }
}
