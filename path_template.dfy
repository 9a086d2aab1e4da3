/** URL path templates such as `/tournaments/{tournament_id}/matches/{id}`
    and the substitution `path.format(**path_parameters)` that fills them
    (toornament/toornament_connection.py, line 22).

    A template is held the way Python's format-string parser splits it: a
    sequence of segments, each the literal text before a replacement field
    and the field's name, followed by the trailing literal text.  `Render`
    gives back the template string and `Parse` is the parser; `ParseRender`
    shows that nothing is lost by holding the parsed form. */
module PathTemplate {
  import opened Exceptions
  import opened Wrappers
  import Converters
  import Text

  datatype Segment = Segment(literal: string, field: string)

  datatype Template = Template(segments: seq<Segment>, tail: string)

  predicate NoBraces(s: string) {
    forall i :: 0 <= i < |s| ==> s[i] != '{' && s[i] != '}'
  }

  /** A field that names a positional argument: an empty field `{}`, which
      is numbered automatically, or a field of decimal digits such as `{0}`. */
  predicate Positional(field: string) {
    Text.AllDigits(field)
  }

  /** The templates the registry holds: no brace in literal text or in a
      field name, and every field a keyword name, which is not empty and
      does not start with a digit. */
  predicate WellFormed(t: Template) {
    && (forall s | s in t.segments ::
          NoBraces(s.literal) && NoBraces(s.field) && s.field != [] && !Text.IsDigit(s.field[0]))
    && NoBraces(t.tail)
  }

  function RenderSegments(ss: seq<Segment>): string {
    if ss == [] then "" else ss[0].literal + "{" + ss[0].field + "}" + RenderSegments(ss[1..])
  }

  /** The template as the source writes it. */
  function Render(t: Template): string {
    RenderSegments(t.segments) + t.tail
  }

  /** The names of the replacement fields. */
  function Names(t: Template): set<string> {
    set s | s in t.segments :: s.field
  }

  function FormatSegments(ss: seq<Segment>, args: map<string, Converters.Value>): (r: Result<string>)
    ensures r.Ok? <==> forall s | s in ss :: !Positional(s.field) && s.field in args
    ensures r.Err? ==> || (r.error == IndexError && exists s | s in ss :: Positional(s.field))
                       || (r.error.KeyError? && r.error.key !in args && exists s | s in ss :: s.field == r.error.key)
  {
    if ss == [] then Ok("")
    else
      var s := ss[0];
      assert forall x | x in ss :: x == s || x in ss[1..];
      if Positional(s.field) then Err(IndexError)
      else if s.field !in args then Err(KeyError(s.field))
      else
        var rest := FormatSegments(ss[1..], args);
        if rest.Ok? then Ok(s.literal + Converters.Str(args[s.field]) + rest.value) else rest
  }

  /** `template.format(**args)`: each field is replaced by `str` of the
      argument of that name; a named field without an argument raises
      KeyError, and a positional field (`{}` or `{0}`) asks for a positional
      argument, of which there are none, and raises IndexError. */
  function Format(t: Template, args: map<string, Converters.Value>): (r: Result<string>)
    ensures WellFormed(t) ==> (r.Ok? <==> Names(t) <= args.Keys)
    ensures r.Err? && WellFormed(t) ==> r.error.KeyError? && r.error.key in Names(t) && r.error.key !in args
    ensures r.Err? ==> r.error == IndexError || (r.error.KeyError? && r.error.key !in args)
  {
    var body := FormatSegments(t.segments, args);
    if body.Ok? then Ok(body.value + t.tail) else body
  }

  /** A keyword field is not positional. */
  lemma KeywordNotPositional(field: string)
    requires field != [] && !Text.IsDigit(field[0])
    ensures !Positional(field)
  {
  }

  /** A template with two keyword fields is filled with `str` of the two
      arguments, in place. */
  lemma FormatTwoFields(l1: string, f1: string, l2: string, f2: string, tail: string, args: map<string, Converters.Value>)
    requires f1 != [] && !Text.IsDigit(f1[0]) && f1 in args
    requires f2 != [] && !Text.IsDigit(f2[0]) && f2 in args
    ensures Format(Template([Segment(l1, f1), Segment(l2, f2)], tail), args)
         == Ok(l1 + Converters.Str(args[f1]) + l2 + Converters.Str(args[f2]) + tail)
  {
    var ss := [Segment(l1, f1), Segment(l2, f2)];
    var s1, s2 := Converters.Str(args[f1]), Converters.Str(args[f2]);
    KeywordNotPositional(f1);
    KeywordNotPositional(f2);
    assert ss[1..][1..] == [];
    assert FormatSegments(ss[1..][1..], args) == Ok("");
    assert FormatSegments(ss[1..], args) == Ok(l2 + s2 + "");
    assert FormatSegments(ss, args) == Ok(l1 + s1 + (l2 + s2 + ""));
    assert l1 + s1 + (l2 + s2 + "") + tail == l1 + s1 + l2 + s2 + tail;
  }

  /** The length of the brace-free prefix of `s`. */
  function FirstBrace(s: string): (j: nat)
    ensures j <= |s|
    ensures j < |s| ==> s[j] == '{' || s[j] == '}'
  {
    if s == [] || s[0] == '{' || s[0] == '}' then 0
    else 1 + FirstBrace(s[1..])
  }

  /** Python's parser for format strings whose fields are plain names:
      literal text runs up to the next brace, `{name}` is a field, and a
      lone `}`, a `{` inside a field or an unclosed `{` raises ValueError. */
  function Parse(s: string): (r: Result<Template>)
    ensures r.Err? ==> r.error == ValueError
    decreases |s|
  {
    var j := FirstBrace(s);
    if j == |s| then Ok(Template([], s))
    else if s[j] == '}' then Err(ValueError)
    else
      var rest := s[j + 1..];
      var close := Text.FindFirst(rest, '}');
      if close == |rest| || '{' in rest[..close] then Err(ValueError)
      else
        var more := Parse(rest[close + 1..]);
        if more.Err? then more
        else Ok(Template([Segment(s[..j], rest[..close])] + more.value.segments, more.value.tail))
  }

  lemma BracesNotIn(s: string)
    requires NoBraces(s)
    ensures '{' !in s && '}' !in s
  {
  }

  lemma {:induction false} FirstBraceOf(t: string, rest: string)
    requires NoBraces(t)
    requires rest == [] || rest[0] == '{' || rest[0] == '}'
    ensures FirstBrace(t + rest) == |t|
    decreases |t|
  {
    if t != [] {
      var s := t + rest;
      assert s[0] == t[0];
      assert s[1..] == t[1..] + rest;
      FirstBraceOf(t[1..], rest);
    }
  }

  lemma ParseTail(tail: string)
    requires NoBraces(tail)
    ensures Parse(tail) == Ok(Template([], tail))
  {
    FirstBraceOf(tail, []);
    assert tail + [] == tail;
  }

  /** One step of `Parse` on a string whose first brace opens a field. */
  lemma ParseStep(s: string, j: nat, close: nat, more: Template)
    requires FirstBrace(s) == j && j < |s| && s[j] == '{'
    requires Text.FindFirst(s[j + 1..], '}') == close && close < |s[j + 1..]|
    requires '{' !in s[j + 1..][..close]
    requires Parse(s[j + 1..][close + 1..]) == Ok(more)
    ensures Parse(s) == Ok(Template([Segment(s[..j], s[j + 1..][..close])] + more.segments, more.tail))
  {
    var rest := s[j + 1..];
    assert !(close == |rest| || '{' in rest[..close]);
  }

  /** Where the pieces of `lit{field}r` sit. */
  lemma SegmentSlices(lit: string, field: string, r: string)
    ensures var s := lit + "{" + field + "}" + r;
            && s[|lit|] == '{' && s[..|lit|] == lit && s[|lit| + 1..] == field + "}" + r
            && (field + "}" + r)[..|field|] == field && (field + "}" + r)[|field| + 1..] == r
  {
    var s := lit + "{" + field + "}" + r;
    assert s[|lit| + 1..] == field + "}" + r;
  }

  lemma ParseSegmentAt(lit: string, field: string, r: string, more: Template)
    requires FirstBrace(lit + "{" + field + "}" + r) == |lit|
    requires '{' !in field && '}' !in field
    requires Parse(r) == Ok(more)
    ensures Parse(lit + "{" + field + "}" + r) == Ok(Template([Segment(lit, field)] + more.segments, more.tail))
  {
    SegmentSlices(lit, field, r);
    Text.FindFirstAt(field, '}', r);
    ParseStep(lit + "{" + field + "}" + r, |lit|, |field|, more);
  }

  lemma Regroup(lit: string, field: string, r: string)
    ensures lit + ("{" + field + "}" + r) == lit + "{" + field + "}" + r
  {
  }

  lemma ParseSegment(lit: string, field: string, r: string, more: Template)
    requires NoBraces(lit) && NoBraces(field)
    requires Parse(r) == Ok(more)
    ensures Parse(lit + "{" + field + "}" + r) == Ok(Template([Segment(lit, field)] + more.segments, more.tail))
  {
    FirstBraceOf(lit, "{" + field + "}" + r);
    Regroup(lit, field, r);
    BracesNotIn(field);
    ParseSegmentAt(lit, field, r, more);
  }

  /** A template with a first segment: its rendering starts with that
      segment, and what follows is well formed when the whole is. */
  lemma FirstSegment(t: Template)
    requires t.segments != []
    ensures Render(t) == t.segments[0].literal + "{" + t.segments[0].field + "}" + Render(Template(t.segments[1..], t.tail))
    ensures [t.segments[0]] + t.segments[1..] == t.segments
    ensures WellFormed(t) ==> && NoBraces(t.segments[0].literal) && NoBraces(t.segments[0].field)
                              && WellFormed(Template(t.segments[1..], t.tail))
  {
    assert t.segments[0] in t.segments;
    if WellFormed(t) {
      forall x | x in t.segments[1..] ensures x in t.segments { }
    }
  }

  /** Parsing a rendered well-formed template gives back the template. */
  lemma {:induction false} ParseRender(t: Template)
    requires WellFormed(t)
    ensures Parse(Render(t)) == Ok(t)
    decreases |t.segments|
  {
    if t.segments == [] {
      assert Render(t) == t.tail;
      ParseTail(t.tail);
    } else {
      var s := t.segments[0];
      var more := Template(t.segments[1..], t.tail);
      FirstSegment(t);
      ParseRender(more);
      ParseSegment(s.literal, s.field, Render(more), more);
    }
  }

  /** Brace-free text parses as a template without fields. */
  lemma ParseBraceFree(s: string)
    requires NoBraces(s)
    ensures Parse(s) == Ok(Template([], s))
  {
    ParseTail(s);
  }

  lemma FirstBraceAt(s: string, j: nat)
    requires j < |s| && NoBraces(s[..j]) && (s[j] == '{' || s[j] == '}')
    ensures FirstBrace(s) == j
  {
    FirstBraceOf(s[..j], s[j..]);
    assert s[..j] + s[j..] == s;
  }

  /** A `}` before any `{` raises ValueError. */
  lemma ParseRejectsStrayClose(s: string, j: nat)
    requires j < |s| && NoBraces(s[..j]) && s[j] == '}'
    ensures Parse(s) == Err(ValueError)
  {
    FirstBraceAt(s, j);
  }

  /** A `{` that is never closed raises ValueError. */
  lemma ParseRejectsUnclosed(s: string, j: nat)
    requires j < |s| && NoBraces(s[..j]) && s[j] == '{' && '}' !in s[j + 1..]
    ensures Parse(s) == Err(ValueError)
  {
    FirstBraceAt(s, j);
  }

  /** A `{` inside a field raises ValueError. */
  lemma ParseRejectsNestedOpen(s: string, j: nat, k: nat)
    requires j < k < |s| && NoBraces(s[..j]) && s[j] == '{' && s[k] == '{' && '}' !in s[j + 1..k]
    ensures Parse(s) == Err(ValueError)
  {
    FirstBraceAt(s, j);
    var rest := s[j + 1..];
    assert rest[..k - j - 1] == s[j + 1..k];
    NestedOpenInField(rest, k - j - 1);
    var close := Text.FindFirst(rest, '}');
    assert close == |rest| || '{' in rest[..close];
  }

  lemma NestedOpenInField(rest: string, m: nat)
    requires m < |rest| && rest[m] == '{' && '}' !in rest[..m]
    ensures var close := Text.FindFirst(rest, '}'); close == |rest| || '{' in rest[..close]
  {
    var close := Text.FindFirst(rest, '}');
    Text.FindFirstIsFirst(rest, '}');
    if close < |rest| {
      assert rest[..close][m] == '{';
    }
  }

  /** Where the pieces of a string with a field at `j` sit. */
  lemma FieldSplit(s: string, j: nat, close: nat)
    requires j < |s| && s[j] == '{' && close < |s[j + 1..]| && s[j + 1..][close] == '}'
    ensures s == s[..j] + "{" + s[j + 1..][..close] + "}" + s[j + 1..][close + 1..]
  {
    var rest := s[j + 1..];
    assert rest == rest[..close] + "}" + rest[close + 1..];
    assert s == s[..j] + "{" + rest;
  }

  lemma RenderCons(seg: Segment, ss: seq<Segment>, tail: string)
    ensures Render(Template([seg] + ss, tail))
         == seg.literal + "{" + seg.field + "}" + Render(Template(ss, tail))
  {
    assert ([seg] + ss)[1..] == ss;
  }

  /** One step of a successful parse of a string whose first brace, at `j`,
      opens a field: the field closes at `close` and the rest parses. */
  lemma ParsedField(s: string, j: nat, rest: string, close: nat)
    requires Parse(s).Ok?
    requires FirstBrace(s) == j && j < |s| && rest == s[j + 1..] && Text.FindFirst(rest, '}') == close
    ensures s[j] == '{' && close < |rest| && rest[close] == '}'
    ensures Parse(rest[close + 1..]).Ok?
    ensures Parse(s).value == Template([Segment(s[..j], rest[..close])] + Parse(rest[close + 1..]).value.segments,
                                       Parse(rest[close + 1..]).value.tail)
  {
    var more := Parse(rest[close + 1..]);
    assert Parse(s) == if s[j] == '}' then Err(ValueError)
                       else if close == |rest| || '{' in rest[..close] then Err(ValueError)
                       else if more.Err? then more
                       else Ok(Template([Segment(s[..j], rest[..close])] + more.value.segments, more.value.tail));
  }

  lemma RenderJoin(s: string, j: nat, close: nat, t: Template, more: Template)
    requires j < |s| && s[j] == '{' && close < |s[j + 1..]| && s[j + 1..][close] == '}'
    requires t == Template([Segment(s[..j], s[j + 1..][..close])] + more.segments, more.tail)
    requires Render(more) == s[j + 1..][close + 1..]
    ensures Render(t) == s
  {
    RenderCons(Segment(s[..j], s[j + 1..][..close]), more.segments, more.tail);
    FieldSplit(s, j, close);
  }

  /** Whatever parses renders back to the text it came from. */
  lemma {:induction false} ParseThenRender(s: string)
    requires Parse(s).Ok?
    ensures Render(Parse(s).value) == s
    decreases |s|
  {
    var j := FirstBrace(s);
    if j == |s| {
      assert Parse(s).value == Template([], s);
    } else {
      var close := Text.FindFirst(s[j + 1..], '}');
      ParsedField(s, j, s[j + 1..], close);
      var r := s[j + 1..][close + 1..];
      ParseThenRender(r);
      RenderJoin(s, j, close, Parse(s).value, Parse(r).value);
    }
  }
}
