/** The custom-field records of the organizer API
    (toornament/organizer_schema.py).  Each constructor takes keyword
    arguments only, assigns every field exactly once, and the record is
    flattened for the request body through the attribute dictionary its
    constructor leaves behind. */
module OrganizerSchema {
  import opened Exceptions
  import opened Wrappers
  import opened Objects
  import Text
  import SchemaElement

  /** A keyword argument, or None when it is not given. */
  function Get(kwargs: map<string, Obj>, k: string): Obj {
    if k in kwargs then kwargs[k] else Null
  }

  /** Python's `int(x)` on the values a caller can pass: an int is itself,
      `True` and `False` are 1 and 0, a string is parsed, and anything else
      raises TypeError. */
  function IntOf(x: Obj): (r: Result<int>)
    ensures x.Scalar? && x.atom.AInt? ==> r == Ok(x.atom.i)
    ensures x.Scalar? && x.atom.ABool? ==> r == Ok(if x.atom.b then 1 else 0)
    ensures x.Scalar? && x.atom.AStr? ==> r == Text.ParseInt(x.atom.s)
    ensures !x.Scalar? ==> r == Err(TypeError)
    ensures r.Err? ==> (r.error == ValueError <==> x.Scalar? && x.atom.AStr?)
    ensures r.Err? ==> r.error == ValueError || r.error == TypeError
  {
    match x
    case Scalar(AInt(i)) => Ok(i)
    case Scalar(ABool(b)) => Ok(if b then 1 else 0)
    case Scalar(AStr(s)) => Text.ParseInt(s)
    case _ => Err(TypeError)
  }

  /** `int(str(i)) == i`. */
  lemma IntOfDecimalText(i: int)
    ensures IntOf(Scalar(AStr(Text.IntToString(i)))) == Ok(i)
  {
    var s := Text.IntToString(i);
    assert IntOf(Scalar(AStr(s))) == Text.ParseInt(s);
    Text.ParseIntOfIntToString(i);
  }

  const BASE_KEYWORDS: set<string> := {"label", "default_value", "required", "public", "position"}

  datatype CustomFieldBase = CustomFieldBase(fieldLabel: Obj, defaultValue: Obj, required: Obj, public: Obj, position: Obj)
  {
    /** The instance's `__dict__`. */
    function Attrs(): map<string, Obj> {
      map["label" := fieldLabel, "default_value" := defaultValue, "required" := required,
          "public" := public, "position" := position]
    }
  }

  /** `CustomFieldBase(**kwargs)`: an unknown keyword raises TypeError; a
      keyword that is not given leaves its field None. */
  function NewCustomFieldBase(kwargs: map<string, Obj>): (r: Result<CustomFieldBase>)
    ensures r.Ok? <==> kwargs.Keys <= BASE_KEYWORDS
    ensures r.Err? ==> r.error == TypeError
    ensures r.Ok? ==> r.value.Attrs() == map k | k in BASE_KEYWORDS :: Get(kwargs, k)
  {
    if !(kwargs.Keys <= BASE_KEYWORDS) then Err(TypeError)
    else Ok(CustomFieldBase(Get(kwargs, "label"), Get(kwargs, "default_value"), Get(kwargs, "required"),
                            Get(kwargs, "public"), Get(kwargs, "position")))
  }

  const CREATE_KEYWORDS: set<string> := BASE_KEYWORDS + {"machine_name", "type", "target_type"}

  datatype CustomFieldCreate = CustomFieldCreate(base: CustomFieldBase, machineName: Obj, fieldType: Obj, targetType: Obj)
  {
    function Attrs(): map<string, Obj> {
      base.Attrs()["machine_name" := machineName]["type" := fieldType]["target_type" := targetType]
    }
  }

  /** `CustomFieldCreate(**kwargs)`: `machine_name` and `type` must be
      given, `target_type` defaults to None, and the other keywords go to
      `CustomFieldBase`. */
  function NewCustomFieldCreate(kwargs: map<string, Obj>): (r: Result<CustomFieldCreate>)
    ensures r.Ok? <==> "machine_name" in kwargs && "type" in kwargs && kwargs.Keys <= CREATE_KEYWORDS
    ensures r.Err? ==> r.error == TypeError
    ensures r.Ok? ==> r.value.Attrs() == map k | k in CREATE_KEYWORDS :: Get(kwargs, k)
  {
    if "machine_name" !in kwargs || "type" !in kwargs then Err(TypeError)
    else
      var base :- NewCustomFieldBase(kwargs - {"machine_name", "type", "target_type"});
      Ok(CustomFieldCreate(base, kwargs["machine_name"], kwargs["type"], Get(kwargs, "target_type")))
  }

  const FIELD_KEYWORDS: set<string> := CREATE_KEYWORDS + {"id"}

  datatype CustomField = CustomField(create: CustomFieldCreate, id: int)
  {
    function Attrs(): map<string, Obj> {
      create.Attrs()["id" := Scalar(AInt(id))]
    }
  }

  /** `CustomField(**kwargs)`: `id` must be given and is stored as
      `int(id)`, after the other keywords have gone to
      `CustomFieldCreate`; so a call with a bad keyword raises TypeError
      even when the id does not parse. */
  function NewCustomField(kwargs: map<string, Obj>): (r: Result<CustomField>)
    ensures r.Ok? <==> && "id" in kwargs && "machine_name" in kwargs && "type" in kwargs
                       && kwargs.Keys <= FIELD_KEYWORDS && IntOf(kwargs["id"]).Ok?
    ensures r.Err? && r.error == ValueError ==>
              && "id" in kwargs && NewCustomFieldCreate(kwargs - {"id"}).Ok?
              && IntOf(kwargs["id"]) == Err(ValueError)
    ensures r.Ok? ==> r.value.id == IntOf(kwargs["id"]).value
    ensures r.Ok? ==> r.value.Attrs() == (map k | k in FIELD_KEYWORDS :: Get(kwargs, k))["id" := Scalar(AInt(r.value.id))]
  {
    if "id" !in kwargs then Err(TypeError)
    else
      var create :- NewCustomFieldCreate(kwargs - {"id"});
      var id :- IntOf(kwargs["id"]);
      Ok(CustomField(create, id))
  }

  /** With no arguments every field of a base record is None. */
  lemma BaseDefaultsAreNone()
    ensures NewCustomFieldBase(map[]) == Ok(CustomFieldBase(Null, Null, Null, Null, Null))
  {
  }

  /** A base record built from `label` alone flattens, with None entries
      removed, to the one entry for the label. */
  lemma LabelOnlyFlattens(value: Obj)
    requires value != Null
    ensures NewCustomFieldBase(map["label" := value]) == Ok(CustomFieldBase(value, Null, Null, Null, Null))
    ensures SchemaElement.ToDictRemoveNone(CustomFieldBase(value, Null, Null, Null, Null).Attrs())
         == Dict(map["label" := SchemaElement.ConvertToDictRemoveNone(value)])
  {
    assert map["label" := value].Keys == {"label"};
    var attrs := CustomFieldBase(value, Null, Null, Null, Null).Attrs();
    SchemaElement.SingleLiveEntry(attrs, "label");
  }

  lemma DecimalText123()
    ensures Text.IntToString(123) == "123"
  {
    assert Text.NatToString(123) == Text.NatToString(12) + [Text.DigitChar(3)];
    assert Text.NatToString(12) == Text.NatToString(1) + [Text.DigitChar(2)];
  }

  /** A record built from `id`, `machine_name` and `type` alone stores
      `int(id)`. */
  lemma IdOfRequiredKeywords(id: Obj, m: Obj, t: Obj, n: int)
    requires IntOf(id) == Ok(n)
    ensures NewCustomField(map["id" := id, "machine_name" := m, "type" := t]).Ok?
    ensures NewCustomField(map["id" := id, "machine_name" := m, "type" := t]).value.id == n
  {
    var kwargs := map["id" := id, "machine_name" := m, "type" := t];
    assert kwargs.Keys == {"id", "machine_name", "type"};
    assert kwargs["id"] == id;
  }

  lemma IntOf123()
    ensures IntOf(Scalar(AStr("123"))) == Ok(123)
  {
    DecimalText123();
    IntOfDecimalText(123);
  }

  /** `CustomField(id="123", machine_name=m, type=t)` has the id 123. */
  lemma IdIsParsed(m: Obj, t: Obj)
    ensures NewCustomField(map["id" := Scalar(AStr("123")), "machine_name" := m, "type" := t]).Ok?
    ensures NewCustomField(map["id" := Scalar(AStr("123")), "machine_name" := m, "type" := t]).value.id == 123
  {
    IntOf123();
    IdOfRequiredKeywords(Scalar(AStr("123")), m, t, 123);
  }
}
