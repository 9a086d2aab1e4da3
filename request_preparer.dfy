/** `prepare_request` (toornament/request_preparer.py): sorts the named
    arguments of a call into the four buckets of a request (headers, path
    parameters, query parameters, JSON body) as the registry entry of the
    called endpoint prescribes, converting each value on the way. */
module RequestPreparer {
  import opened Exceptions
  import opened Wrappers
  import opened Text
  import opened Converters
  import opened PathTemplate
  import opened ApiFunctionsDoc
  import RangeWindow

  /** The four dictionaries `[{}, {}, {}, {}]`, indexed by placement code. */
  type Buckets = b: seq<map<string, Value>> | |b| == 4 witness [map[], map[], map[], map[]]

  function EmptyBuckets(): (b: Buckets)
    ensures forall k | 0 <= k < BUCKETS :: b[k] == map[]
  {
    [map[], map[], map[], map[]]
  }

  /** The dictionary `prepare_request` returns: `json` is present only when
      the JSON bucket is non-empty. */
  datatype Request = Request(
    requestArguments: map<string, Value>,
    httpMethod: string,
    path: Template,
    headers: map<string, Value>,
    pathParameters: map<string, Value>,
    queryParameters: map<string, Value>,
    json: Option<map<string, Value>>)

  /** The elements Python's iteration yields: the items of a list, the
      one-character strings of a string; iterating anything else raises
      TypeError. */
  function Elements(v: Value): (r: Result<seq<Value>>)
    ensures r.Err? <==> !v.VList? && !v.VStr?
    ensures r.Err? ==> r.error == TypeError
    ensures v.VList? ==> r == Ok(v.items)
    ensures v.VStr? ==> r.Ok? && |r.value| == |v.s| && forall k | 0 <= k < |v.s| :: r.value[k] == VStr([v.s[k]])
  {
    match v
    case VList(items) => Ok(items)
    case VStr(s) => Ok(seq(|s|, k requires 0 <= k < |s| => VStr([s[k]])))
    case _ => Err(TypeError)
  }

  /** `[converter(element) for element in elements]`: the converter runs on
      the elements in order and the first error it raises is the result. */
  function ConvertEach(c: Converter, xs: seq<Value>): (r: Result<seq<Value>>)
    ensures r.Ok? <==> forall k | 0 <= k < |xs| :: Apply(c, xs[k]).Ok?
    ensures r.Ok? ==> |r.value| == |xs| && forall k | 0 <= k < |xs| :: r.value[k] == Apply(c, xs[k]).value
    ensures r.Err? ==> exists k | 0 <= k < |xs| ::
              Apply(c, xs[k]) == Err(r.error) && forall j | 0 <= j < k :: Apply(c, xs[j]).Ok?
  {
    if xs == [] then Ok([])
    else
      var y := Apply(c, xs[0]);
      if y.Err? then Err(y.error)
      else
        var ys := ConvertEach(c, xs[1..]);
        if ys.Err? then
          FirstErrorShifts(c, xs, ys.error);
          ys
        else Ok([y.value] + ys.value)
  }

  /** A first failing element of the tail is a first failing element of
      the whole, when the head converts. */
  lemma FirstErrorShifts(c: Converter, xs: seq<Value>, e: Exceptions.Error)
    requires xs != [] && Apply(c, xs[0]).Ok?
    requires exists k | 0 <= k < |xs[1..]| :: Apply(c, xs[1..][k]) == Err(e) && forall j | 0 <= j < k :: Apply(c, xs[1..][j]).Ok?
    ensures exists k | 0 <= k < |xs| :: Apply(c, xs[k]) == Err(e) && forall j | 0 <= j < k :: Apply(c, xs[j]).Ok?
  {
    var k :| 0 <= k < |xs[1..]| && Apply(c, xs[1..][k]) == Err(e) && forall j | 0 <= j < k :: Apply(c, xs[1..][j]).Ok?;
    assert xs[k + 1] == xs[1..][k];
    assert forall j | 1 <= j < k + 1 :: xs[j] == xs[1..][j - 1];
  }

  /** The converted value of an argument: element-wise for a list
      parameter, else the converter applied to the value itself. */
  function Convert(p: Parameter, v: Value): (r: Result<Value>)
    ensures !p.isList ==> r == Apply(p.converter, v)
    ensures p.isList ==> (r.Ok? <==> Elements(v).Ok? && forall k | 0 <= k < |Elements(v).value| :: Apply(p.converter, Elements(v).value[k]).Ok?)
    ensures p.isList && r.Ok? ==> r.value.VList? && |r.value.items| == |Elements(v).value|
    ensures p.isList && r.Ok? ==> forall k | 0 <= k < |r.value.items| :: r.value.items[k] == Apply(p.converter, Elements(v).value[k]).value
  {
    if p.isList then
      var xs :- Elements(v);
      var ys :- ConvertEach(p.converter, xs);
      Ok(VList(ys))
    else Apply(p.converter, v)
  }

  /** Whether an argument is processed at all: an optional parameter given
      None is skipped. */
  predicate Emits(p: Parameter, v: Value) {
    !p.optional || v != VNone
  }

  /** The header value `'{}={}'.format(unit, converted)`, with the unit taken
      from the registry entry. */
  function HeaderValue(ep: Endpoint, converted: Value): Value {
    VStr(RangeWindow.UnitText(ep.range) + "=" + Str(converted))
  }

  /** One iteration of the loop of `prepare_request`. */
  function Step(ep: Endpoint, b: Buckets, name: string, value: Value): Result<Buckets> {
    if name !in ep.parameters then Err(KeyError(name))
    else
      var p := ep.parameters[name];
      if !Emits(p, value) then Ok(b)
      else
        var converted :- Convert(p, value);
        if p.kind == HEADER then Ok(b[HEADER := b[HEADER][Capitalize(name) := HeaderValue(ep, converted)]])
        else if p.kind < BUCKETS then Ok(b[p.kind := b[p.kind][name := converted]])
        else Err(IndexError)
  }

  /** The buckets after the loop has run over `args`, in order. */
  function Fill(ep: Endpoint, args: seq<(string, Value)>): Result<Buckets>
    decreases |args|
  {
    if args == [] then Ok(EmptyBuckets())
    else
      var b :- Fill(ep, args[..|args| - 1]);
      Step(ep, b, args[|args| - 1].0, args[|args| - 1].1)
  }

  /** What `prepare_request(function_name, request_arguments, **args)`
      returns, or the exception it raises. */
  function Prepared(functionName: string, requestArguments: map<string, Value>, args: seq<(string, Value)>): Result<Request> {
    var found := Functions(functionName);
    if found.None? then Err(KeyError(functionName))
    else
      var ep := found.value;
      var b :- Fill(ep, args);
      Ok(Request(requestArguments, ep.httpMethod, ep.path, b[HEADER], b[PATH], b[QUERY],
                 if |b[JSON]| > 0 then Some(b[JSON]) else None))
  }

  /** Once one argument has failed, the loop stops with that error. */
  lemma {:induction false} FillErrorPersists(ep: Endpoint, args: seq<(string, Value)>, i: nat)
    requires i <= |args| && Fill(ep, args[..i]).Err?
    ensures Fill(ep, args) == Fill(ep, args[..i])
    decreases |args| - i
  {
    if i < |args| {
      var front := args[..|args| - 1];
      assert front[..i] == args[..i];
      FillErrorPersists(ep, front, i);
    } else {
      assert args[..i] == args;
    }
  }

  /** `prepare_request`: the array of four dictionaries is filled in place
      by one pass over the arguments. */
  method PrepareRequest(functionName: string, requestArguments: map<string, Value>, parameter: seq<(string, Value)>)
    returns (r: Result<Request>)
    ensures r == Prepared(functionName, requestArguments, parameter)
  {
    var found := Functions(functionName);
    if found.None? {
      return Err(KeyError(functionName));
    }
    var ep := found.value;
    var requiredParameters := ep.parameters;
    var parameters := new map<string, Value>[BUCKETS](_ => map[]);
    assert parameters[..] == EmptyBuckets();
    for i := 0 to |parameter|
      invariant Fill(ep, parameter[..i]) == Ok(parameters[..])
    {
      var name, value := parameter[i].0, parameter[i].1;
      ghost var before: Buckets := parameters[..];
      assert parameter[..i + 1][..i] == parameter[..i];
      if name !in requiredParameters {
        FillErrorPersists(ep, parameter, i + 1);
        return Err(KeyError(name));
      }
      var attributes := requiredParameters[name];
      if Emits(attributes, value) {
        var converted := Convert(attributes, value);
        if converted.Err? {
          FillErrorPersists(ep, parameter, i + 1);
          return Err(converted.error);
        }
        if attributes.kind == HEADER {
          parameters[HEADER] := parameters[HEADER][Capitalize(name) := HeaderValue(ep, converted.value)];
        } else if attributes.kind < BUCKETS {
          parameters[attributes.kind] := parameters[attributes.kind][name := converted.value];
        } else {
          FillErrorPersists(ep, parameter, i + 1);
          return Err(IndexError);
        }
      }
      assert Step(ep, before, name, value) == Ok(parameters[..]);
    }
    assert parameter[..|parameter|] == parameter;
    var json := if |parameters[JSON]| > 0 then Some(parameters[JSON]) else None;
    return Ok(Request(requestArguments, ep.httpMethod, ep.path,
                      parameters[HEADER], parameters[PATH], parameters[QUERY], json));
  }

  /** Kwargs names are distinct in Python. */
  predicate DistinctNames(args: seq<(string, Value)>) {
    forall i, j | 0 <= i < j < |args| :: args[i].0 != args[j].0
  }

  /** The error an argument raises on its own, if any: an unknown name, a
      failing conversion, or a placement code past the four buckets. */
  function ArgError(ep: Endpoint, name: string, value: Value): Option<Error> {
    if name !in ep.parameters then Some(KeyError(name))
    else if !Emits(ep.parameters[name], value) then None
    else if Convert(ep.parameters[name], value).Err? then Some(Convert(ep.parameters[name], value).error)
    else if ep.parameters[name].kind >= BUCKETS then Some(IndexError)
    else None
  }

  lemma StepFailsOnArgError(ep: Endpoint, b: Buckets, name: string, value: Value)
    ensures Step(ep, b, name, value).Err? <==> ArgError(ep, name, value).Some?
    ensures Step(ep, b, name, value).Err? ==> ArgError(ep, name, value) == Some(Step(ep, b, name, value).error)
  {
  }

  /** The loop succeeds iff no argument raises on its own, and otherwise
      fails with the error of the first argument that does. */
  lemma {:induction false} FillFailsAtFirstBadArgument(ep: Endpoint, args: seq<(string, Value)>)
    ensures Fill(ep, args).Ok? <==> forall i | 0 <= i < |args| :: ArgError(ep, args[i].0, args[i].1).None?
    ensures Fill(ep, args).Err? ==> exists i | 0 <= i < |args| ::
              ArgError(ep, args[i].0, args[i].1) == Some(Fill(ep, args).error) &&
              forall j | 0 <= j < i :: ArgError(ep, args[j].0, args[j].1).None?
    decreases |args|
  {
    if args != [] {
      var front, last := args[..|args| - 1], args[|args| - 1];
      FillFailsAtFirstBadArgument(ep, front);
      assert forall i | 0 <= i < |front| :: front[i] == args[i];
      if Fill(ep, front).Ok? {
        StepFailsOnArgError(ep, Fill(ep, front).value, last.0, last.1);
      }
    }
  }

  /** Whether an argument is processed and goes to a bucket other than the
      headers. */
  predicate PlacedOutsideHeaders(ep: Endpoint, a: (string, Value)) {
    && a.0 in ep.parameters
    && Emits(ep.parameters[a.0], a.1)
    && 0 < ep.parameters[a.0].kind < BUCKETS
    && Convert(ep.parameters[a.0], a.1).Ok?
  }

  /** Some argument named `n` was processed: it is a parameter of the
      entry and was not an optional None. */
  predicate Emitted(ep: Endpoint, args: seq<(string, Value)>, n: string) {
    n in ep.parameters && exists i | 0 <= i < |args| :: args[i].0 == n && Emits(ep.parameters[n], args[i].1)
  }

  /** Every key of the path, query and JSON buckets is the name of a
      processed argument whose registry type is that bucket. */
  lemma {:induction false} BucketKeysAreArguments(ep: Endpoint, args: seq<(string, Value)>, bk: Buckets)
    requires Fill(ep, args) == Ok(bk)
    ensures forall k, n | 0 <= k < BUCKETS && k != HEADER && n in bk[k] ::
              Emitted(ep, args, n) && ep.parameters[n].kind == k
    decreases |args|
  {
    if args == [] {
      assert bk == EmptyBuckets();
    } else {
      var front, last := args[..|args| - 1], args[|args| - 1];
      var bf := Fill(ep, front).value;
      BucketKeysAreArguments(ep, front, bf);
      var p := ep.parameters[last.0];
      assert forall k | 0 <= k < BUCKETS && k != HEADER ::
               bk[k].Keys <= bf[k].Keys + (if Emits(p, last.1) && p.kind == k then {last.0} else {});
      forall k, n | 0 <= k < BUCKETS && k != HEADER && n in bk[k]
        ensures Emitted(ep, args, n) && ep.parameters[n].kind == k
      {
        if n in bf[k] {
          assert Emitted(ep, front, n);
          var i :| 0 <= i < |front| && front[i].0 == n && Emits(ep.parameters[n], front[i].1);
          assert args[i] == front[i];
        } else {
          assert args[|args| - 1] == last;
        }
      }
    }
  }

  /** When the loop succeeds, every processed argument outside the headers
      has a placement code below four and converts without error. */
  lemma ProcessedArgumentsConvert(ep: Endpoint, args: seq<(string, Value)>)
    requires Fill(ep, args).Ok?
    ensures forall i | 0 <= i < |args| && args[i].0 in ep.parameters && Emits(ep.parameters[args[i].0], args[i].1) &&
                       ep.parameters[args[i].0].kind != HEADER ::
              PlacedOutsideHeaders(ep, args[i])
  {
    FillFailsAtFirstBadArgument(ep, args);
  }

  /** Every processed argument outside the headers is a key of the bucket
      of its registry type. */
  lemma {:induction false} FillPlacesArguments(ep: Endpoint, args: seq<(string, Value)>, bk: Buckets)
    requires Fill(ep, args) == Ok(bk)
    ensures forall i | 0 <= i < |args| && PlacedOutsideHeaders(ep, args[i]) ::
              args[i].0 in bk[ep.parameters[args[i].0].kind]
    decreases |args|
  {
    if args != [] {
      var front, last := args[..|args| - 1], args[|args| - 1];
      var bf := Fill(ep, front).value;
      FillPlacesArguments(ep, front, bf);
      assert forall i | 0 <= i < |front| :: front[i] == args[i];
      var p := ep.parameters[last.0];
      if !Emits(p, last.1) {
        assert bk == bf;
      } else if p.kind == HEADER {
        assert forall k | 0 < k < BUCKETS :: bk[k] == bf[k];
      } else {
        assert bk == bf[p.kind := bf[p.kind][last.0 := Convert(p, last.1).value]];
      }
    }
  }

  /** With distinct names, every processed argument outside the headers
      holds its converted value in the bucket of its registry type. */
  lemma {:induction false} FillStoresConvertedValues(ep: Endpoint, args: seq<(string, Value)>, bk: Buckets)
    requires Fill(ep, args) == Ok(bk) && DistinctNames(args)
    ensures forall i | 0 <= i < |args| && PlacedOutsideHeaders(ep, args[i]) ::
              && args[i].0 in bk[ep.parameters[args[i].0].kind]
              && bk[ep.parameters[args[i].0].kind][args[i].0] == Convert(ep.parameters[args[i].0], args[i].1).value
    decreases |args|
  {
    FillPlacesArguments(ep, args, bk);
    if args != [] {
      var front, last := args[..|args| - 1], args[|args| - 1];
      var bf := Fill(ep, front).value;
      assert forall i | 0 <= i < |front| :: front[i] == args[i];
      assert DistinctNames(front) && forall i | 0 <= i < |front| :: front[i].0 != last.0;
      FillPlacesArguments(ep, front, bf);
      FillStoresConvertedValues(ep, front, bf);
      var p := ep.parameters[last.0];
      if !Emits(p, last.1) {
        assert bk == bf;
      } else if p.kind == HEADER {
        assert forall k | 0 < k < BUCKETS :: bk[k] == bf[k];
      } else {
        assert bk == bf[p.kind := bf[p.kind][last.0 := Convert(p, last.1).value]];
      }
    }
  }

  /** An optional argument given None can be left out anywhere in the call
      without changing anything. */
  lemma {:induction false} OptionalNoneIsDropped(ep: Endpoint, a: seq<(string, Value)>, n: string, b: seq<(string, Value)>)
    requires n in ep.parameters && ep.parameters[n].optional
    ensures Fill(ep, a + [(n, VNone)] + b) == Fill(ep, a + b)
    decreases |b|
  {
    if b == [] {
      assert a + [(n, VNone)] + b == a + [(n, VNone)];
      assert (a + [(n, VNone)])[..|a|] == a;
      assert a + b == a;
    } else {
      var front := b[..|b| - 1];
      OptionalNoneIsDropped(ep, a, n, front);
      assert (a + [(n, VNone)] + b)[..|a| + |b|] == a + [(n, VNone)] + front;
      assert (a + b)[..|a| + |b| - 1] == a + front;
    }
  }

  /** The JSON bucket is non-empty exactly when some argument whose
      registry type is the JSON body was processed. */
  lemma JsonBucketHoldsJsonArguments(ep: Endpoint, args: seq<(string, Value)>, bk: Buckets)
    requires Fill(ep, args) == Ok(bk)
    ensures |bk[JSON]| > 0 <==> exists n | n in ep.parameters && ep.parameters[n].kind == JSON :: Emitted(ep, args, n)
  {
    if |bk[JSON]| > 0 {
      NonEmptyBucketHasArgument(ep, args, bk, JSON);
    }
    if exists n | n in ep.parameters && ep.parameters[n].kind == JSON :: Emitted(ep, args, n) {
      var n :| n in ep.parameters && ep.parameters[n].kind == JSON && Emitted(ep, args, n);
      EmittedArgumentIsPlaced(ep, args, bk, n);
    }
  }

  lemma NonEmptyBucketHasArgument(ep: Endpoint, args: seq<(string, Value)>, bk: Buckets, k: nat)
    requires Fill(ep, args) == Ok(bk) && HEADER < k < BUCKETS && |bk[k]| > 0
    ensures exists n | n in ep.parameters && ep.parameters[n].kind == k :: Emitted(ep, args, n)
  {
    BucketKeysAreArguments(ep, args, bk);
    var n :| n in bk[k];
    assert Emitted(ep, args, n) && ep.parameters[n].kind == k;
  }

  /** A processed argument of a bucket other than the headers is a key of
      that bucket. */
  lemma EmittedArgumentIsPlaced(ep: Endpoint, args: seq<(string, Value)>, bk: Buckets, n: string)
    requires Fill(ep, args) == Ok(bk) && Emitted(ep, args, n) && ep.parameters[n].kind != HEADER
    ensures 0 < ep.parameters[n].kind < BUCKETS && n in bk[ep.parameters[n].kind]
  {
    var i :| 0 <= i < |args| && args[i].0 == n && Emits(ep.parameters[n], args[i].1);
    ProcessedArgumentsConvert(ep, args);
    FillPlacesArguments(ep, args, bk);
    assert PlacedOutsideHeaders(ep, args[i]);
  }

  /** In a well-formed entry, substituting the path bucket into the path
      succeeds exactly when every replacement field was given as an
      argument: path parameters must be given, so none is ever skipped. */
  lemma PathBucketFillsTemplate(ep: Endpoint, args: seq<(string, Value)>, bk: Buckets)
    requires WellFormedEndpoint(ep) && Fill(ep, args) == Ok(bk)
    ensures Format(ep.path, bk[PATH]).Ok? <==> forall f | f in Names(ep.path) :: exists i | 0 <= i < |args| :: args[i].0 == f
    ensures forall f | f in Names(ep.path) && f !in bk[PATH] :: forall i | 0 <= i < |args| :: args[i].0 != f
  {
    BucketKeysAreArguments(ep, args, bk);
    PathParamsAreTemplateFields(ep);
    forall f, i | f in Names(ep.path) && 0 <= i < |args| && args[i].0 == f ensures f in bk[PATH] {
      assert f in NamesOfKind(ep, PATH);
      assert Emitted(ep, args, f);
      EmittedArgumentIsPlaced(ep, args, bk, f);
    }
    forall f | f in Names(ep.path) && f in bk[PATH] ensures exists i | 0 <= i < |args| :: args[i].0 == f {
      assert Emitted(ep, args, f);
    }
  }

  /** `prepare_request` on the registry: an unknown function name raises
      KeyError; a known one succeeds exactly when no argument raises on its
      own, fails with the first argument's error otherwise, and passes the
      request arguments, the HTTP method `GET` and the path through.  No
      entry has JSON parameters, so no request carries a body. */
  lemma PreparedFromRegistry(fn: string, requestArguments: map<string, Value>, args: seq<(string, Value)>)
    ensures Functions(fn).None? ==> Prepared(fn, requestArguments, args) == Err(KeyError(fn))
    ensures Functions(fn).Some? ==>
              (Prepared(fn, requestArguments, args).Ok? <==>
               forall i | 0 <= i < |args| :: ArgError(Functions(fn).value, args[i].0, args[i].1).None?)
    ensures Functions(fn).Some? && Prepared(fn, requestArguments, args).Err? ==>
              exists i | 0 <= i < |args| ::
                ArgError(Functions(fn).value, args[i].0, args[i].1) == Some(Prepared(fn, requestArguments, args).error)
    ensures Prepared(fn, requestArguments, args).Ok? ==>
              && Functions(fn).Some?
              && Prepared(fn, requestArguments, args).value.requestArguments == requestArguments
              && Prepared(fn, requestArguments, args).value.httpMethod == "GET"
              && Prepared(fn, requestArguments, args).value.path == Functions(fn).value.path
              && Prepared(fn, requestArguments, args).value.json == None
  {
    if Functions(fn).Some? {
      var ep := Functions(fn).value;
      FillFailsAtFirstBadArgument(ep, args);
      RegistryWellFormed();
      NoJsonParameters();
      if Fill(ep, args).Ok? {
        JsonBucketHoldsJsonArguments(ep, args, Fill(ep, args).value);
      }
    }
  }

  /** For a request prepared from the registry, `path.format(**path_parameters)`
      succeeds exactly when every replacement field of the path was given as
      an argument, and otherwise raises KeyError for a field that was not. */
  lemma PreparedPathFormats(fn: string, requestArguments: map<string, Value>, args: seq<(string, Value)>)
    requires Prepared(fn, requestArguments, args).Ok?
    ensures var r := Prepared(fn, requestArguments, args).value;
            Format(r.path, r.pathParameters).Ok? <==>
            forall f | f in Names(r.path) :: exists i | 0 <= i < |args| :: args[i].0 == f
    ensures var r := Prepared(fn, requestArguments, args).value;
            Format(r.path, r.pathParameters).Err? ==>
              && Format(r.path, r.pathParameters).error.KeyError?
              && Format(r.path, r.pathParameters).error.key in Names(r.path)
              && forall i | 0 <= i < |args| :: args[i].0 != Format(r.path, r.pathParameters).error.key
  {
    var ep := Functions(fn).value;
    RegistryWellFormed();
    PathBucketFillsTemplate(ep, args, Fill(ep, args).value);
  }

  lemma CapitalizeRange()
    ensures Capitalize("range") == "Range"
  {
    assert Lower("ange") == "ange";
  }

  /** In an entry whose only header parameter is `range`, the header bucket
      holds at most the key `Range`; it is empty when no `range` argument is
      given, and otherwise holds the rendering of that argument. */
  lemma {:induction false} HeaderBucketIsRange(ep: Endpoint, args: seq<(string, Value)>, bk: Buckets)
    requires HeaderIsRange(ep) && Fill(ep, args) == Ok(bk)
    ensures bk[HEADER].Keys <= {"Range"}
    ensures (forall i | 0 <= i < |args| :: args[i].0 != "range") ==> bk[HEADER] == map[]
    ensures DistinctNames(args) ==> forall i | 0 <= i < |args| && args[i].0 == "range" ::
              && "range" in ep.parameters
              && Convert(ep.parameters["range"], args[i].1).Ok?
              && bk[HEADER] == map["Range" := HeaderValue(ep, Convert(ep.parameters["range"], args[i].1).value)]
    decreases |args|
  {
    CapitalizeRange();
    if args != [] {
      var front, last := args[..|args| - 1], args[|args| - 1];
      var bf := Fill(ep, front).value;
      HeaderBucketIsRange(ep, front, bf);
      assert forall i | 0 <= i < |front| :: front[i] == args[i];
      assert DistinctNames(args) ==> DistinctNames(front) && forall i | 0 <= i < |front| :: front[i].0 != last.0;
    }
  }

  /** The `Range` header is the registry's unit, `=`, and the window's
      bounds: the unit the Range object holds plays no part, and the bounds
      are not compared.  With both bounds set it is the text
      `get_header_value` renders for that unit. */
  lemma RangeHeaderUsesRegistryUnit(ep: Endpoint, start: Option<int>, end: Option<int>, unit: Option<string>)
    requires HeaderIsRange(ep) && "range" in ep.parameters
    ensures Convert(ep.parameters["range"], VRange(start, end, unit)).Ok?
    ensures HeaderValue(ep, Convert(ep.parameters["range"], VRange(start, end, unit)).value)
         == VStr(RangeWindow.UnitText(ep.range) + "=" + OptionalIntText(start) + "-" + OptionalIntText(end))
    ensures start.Some? && end.Some? && start.value >= 0 && end.value >= 0 ==>
              (HeaderValue(ep, Convert(ep.parameters["range"], VRange(start, end, unit)).value)
               == VStr(RangeWindow.HeaderText(RangeWindow.UnitText(ep.range), start.value, end.value)))
  {
    var text := OptionalIntText(start) + "-" + OptionalIntText(end);
    assert Convert(ep.parameters["range"], VRange(start, end, unit)) == Ok(VStr(text));
    assert RangeWindow.UnitText(ep.range) + "=" + text
        == RangeWindow.UnitText(ep.range) + "=" + OptionalIntText(start) + "-" + OptionalIntText(end);
  }

  lemma MatchesFromTournamentEntry()
    ensures Functions("viewer_get_matches_from_tournament") == Some(ViewerGetMatchesFromTournament)
  {
  }

  lemma MatchesFromTournamentParameters()
    ensures "tournament_id" in ViewerGetMatchesFromTournament.parameters
    ensures ViewerGetMatchesFromTournament.parameters["tournament_id"] == Parameter(PATH, false, false, ToStr)
    ensures "range" in ViewerGetMatchesFromTournament.parameters
    ensures ViewerGetMatchesFromTournament.range == Some("matches")
    ensures ViewerGetMatchesFromTournament.httpMethod == "GET"
  {
  }

  /** A call with one path argument, converted by `to_str`, and a complete
      pagination window fills one path parameter and the `Range` header. */
  lemma PathArgumentThenRange(ep: Endpoint, name: string, id: Value, start: nat, end: nat, unit: Option<string>)
    requires name in ep.parameters && ep.parameters[name] == Parameter(PATH, false, false, ToStr)
    requires HeaderIsRange(ep) && "range" in ep.parameters
    ensures Fill(ep, [(name, id), ("range", VRange(Some(start), Some(end), unit))])
         == Ok([map["Range" := VStr(RangeWindow.HeaderText(RangeWindow.UnitText(ep.range), start, end))],
                map[name := VStr(Str(id))], map[], map[]])
  {
    var args := [(name, id), ("range", VRange(Some(start), Some(end), unit))];
    var b1 := EmptyBuckets()[PATH := map[name := VStr(Str(id))]];
    assert args[..1] == [args[0]] && [args[0]][..0] == [];
    assert Fill(ep, args[..1]) == Ok(b1);
    RangeHeaderUsesRegistryUnit(ep, Some(start), Some(end), unit);
    CapitalizeRange();
    var h := VStr(RangeWindow.HeaderText(RangeWindow.UnitText(ep.range), start, end));
    assert Step(ep, b1, "range", VRange(Some(start), Some(end), unit)) == Ok(b1[HEADER := map["Range" := h]]);
    assert args[..|args| - 1] == args[..1];
    assert b1[HEADER := map["Range" := h]] == [map["Range" := h], map[name := VStr(Str(id))], map[], map[]];
  }

  lemma MatchesFromTournamentHeaderIsRange()
    ensures HeaderIsRange(ViewerGetMatchesFromTournament)
  {
    ViewerGetMatchesFromTournamentWellFormed();
  }

  /** The request such a call prepares. */
  lemma PreparedPathArgumentThenRange(fn: string, ep: Endpoint, name: string, id: Value, start: nat, end: nat, unit: Option<string>)
    requires Functions(fn) == Some(ep)
    requires name in ep.parameters && ep.parameters[name] == Parameter(PATH, false, false, ToStr)
    requires HeaderIsRange(ep) && "range" in ep.parameters
    ensures Prepared(fn, map[], [(name, id), ("range", VRange(Some(start), Some(end), unit))])
         == Ok(Request(map[], ep.httpMethod, ep.path,
                       map["Range" := VStr(RangeWindow.HeaderText(RangeWindow.UnitText(ep.range), start, end))],
                       map[name := VStr(Str(id))], map[], None))
  {
    PathArgumentThenRange(ep, name, id, start, end, unit);
  }

  lemma MatchesWindowText()
    ensures RangeWindow.HeaderText("matches", 0, 9) == "matches=0-9"
  {
    assert NatToString(0) == "0" && NatToString(9) == "9";
  }

  /** What `prepare_request('viewer_get_matches_from_tournament', {},
      tournament_id=3045919883406483456, range=Range(0, 9))` prepares, the
      arguments of the call on line 7 of tests/full_test.py: the header
      carries the registry's unit `matches` whatever unit the Range holds,
      and the tournament id goes to the path parameters as its decimal
      text. */
  lemma MatchesFromTournamentExample(unit: Option<string>)
    ensures Prepared("viewer_get_matches_from_tournament", map[],
                     [("tournament_id", VInt(3045919883406483456)), ("range", VRange(Some(0), Some(9), unit))])
         == Ok(Request(map[], "GET", ViewerGetMatchesFromTournament.path,
                       map["Range" := VStr("matches=0-9")],
                       map["tournament_id" := VStr(IntToString(3045919883406483456))],
                       map[], None))
  {
    MatchesFromTournamentEntry();
    MatchesFromTournamentParameters();
    MatchesFromTournamentHeaderIsRange();
    PreparedPathArgumentThenRange("viewer_get_matches_from_tournament", ViewerGetMatchesFromTournament,
                                  "tournament_id", VInt(3045919883406483456), 0, 9, unit);
    MatchesWindowText();
  }

  /** A call with two distinct path arguments, both converted by `to_str`,
      fills the path bucket with the two texts and nothing else. */
  lemma TwoPathArguments(ep: Endpoint, n1: string, v1: Value, n2: string, v2: Value)
    requires n1 in ep.parameters && ep.parameters[n1] == Parameter(PATH, false, false, ToStr)
    requires n2 in ep.parameters && ep.parameters[n2] == Parameter(PATH, false, false, ToStr)
    ensures Fill(ep, [(n1, v1), (n2, v2)])
         == Ok([map[], map[n1 := VStr(Str(v1))][n2 := VStr(Str(v2))], map[], map[]])
  {
    var args := [(n1, v1), (n2, v2)];
    var b1 := EmptyBuckets()[PATH := map[n1 := VStr(Str(v1))]];
    assert args[..1] == [args[0]] && [args[0]][..0] == [];
    assert Fill(ep, args[..1]) == Ok(b1);
    assert args[..|args| - 1] == args[..1];
    assert b1[PATH := b1[PATH][n2 := VStr(Str(v2))]] == [map[], map[n1 := VStr(Str(v1))][n2 := VStr(Str(v2))], map[], map[]];
  }

  lemma MatchEntry()
    ensures Functions("viewer_get_match") == Some(ViewerGetMatch)
    ensures "tournament_id" in ViewerGetMatch.parameters && "id" in ViewerGetMatch.parameters
    ensures ViewerGetMatch.parameters["tournament_id"] == Parameter(PATH, false, false, ToStr)
    ensures ViewerGetMatch.parameters["id"] == Parameter(PATH, false, false, ToStr)
    ensures ViewerGetMatch.httpMethod == "GET"
    ensures ViewerGetMatch.path == Template([Segment("/tournaments/", "tournament_id"), Segment("/matches/", "id")], "")
  {
  }

  /** What `prepare_request('viewer_get_match', {}, tournament_id=a, id=b)`
      prepares for any two integer ids, such as those of the call on line 10
      of tests/full_test.py: no header and no query parameter, and the path
      template filled by `path.format(**path_parameters)` is
      `/tournaments/a/matches/b`. */
  lemma MatchExample(tournamentId: int, matchId: int)
    ensures var pp := map["tournament_id" := VStr(IntToString(tournamentId)), "id" := VStr(IntToString(matchId))];
            && Prepared("viewer_get_match", map[], [("tournament_id", VInt(tournamentId)), ("id", VInt(matchId))])
               == Ok(Request(map[], "GET", ViewerGetMatch.path, map[], pp, map[], None))
            && Format(ViewerGetMatch.path, pp)
               == Ok("/tournaments/" + IntToString(tournamentId) + "/matches/" + IntToString(matchId))
  {
    MatchPrepared(tournamentId, matchId);
    MatchPathFills(IntToString(tournamentId), IntToString(matchId));
  }

  lemma MatchPrepared(tournamentId: int, matchId: int)
    ensures Prepared("viewer_get_match", map[], [("tournament_id", VInt(tournamentId)), ("id", VInt(matchId))])
         == Ok(Request(map[], "GET", ViewerGetMatch.path, map[],
                       map["tournament_id" := VStr(IntToString(tournamentId)), "id" := VStr(IntToString(matchId))],
                       map[], None))
  {
    MatchEntry();
    TwoPathArguments(ViewerGetMatch, "tournament_id", VInt(tournamentId), "id", VInt(matchId));
  }

  lemma MatchPathFills(a: string, b: string)
    ensures Format(ViewerGetMatch.path, map["tournament_id" := VStr(a), "id" := VStr(b)])
         == Ok("/tournaments/" + a + "/matches/" + b)
  {
    MatchEntry();
    var pp := map["tournament_id" := VStr(a), "id" := VStr(b)];
    FormatTwoFields("/tournaments/", "tournament_id", "/matches/", "id", "", pp);
    assert "/tournaments/" + a + "/matches/" + b + "" == "/tournaments/" + a + "/matches/" + b;
  }

  /** The window of line 7 of tests/full_test.py built as an object,
      `Range(0, 9)` (with any unit), and passed as the `range` argument of
      `prepare_request('viewer_get_matches_from_tournament', {},
      tournament_id=3045919883406483456, ...)`. */
  method PrepareMatchesWithWindow(unit: Option<string>) returns (r: Result<Request>)
    ensures r == Ok(Request(map[], "GET", ViewerGetMatchesFromTournament.path,
                            map["Range" := VStr("matches=0-9")],
                            map["tournament_id" := VStr(IntToString(3045919883406483456))],
                            map[], None))
  {
    var window := RangeWindow.Range.New(Some(0), Some(9), unit);
    var range := window.value.AsValue();
    MatchesFromTournamentExample(range.unit);
    r := PrepareRequest("viewer_get_matches_from_tournament", map[],
                        [("tournament_id", VInt(3045919883406483456)), ("range", range)]);
  }
}
