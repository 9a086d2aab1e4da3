/** The flattening of outgoing objects (toornament/schema_element.py):
    `convert_to_dict` turns a tree of schema instances, dicts, lists and
    tuples into plain dicts and lists, and `convert_to_dict_remove_none`
    also drops every dict entry whose value is None.  An instance of the
    other `SchemaElement` class, the one of toornament/schema.py, is not
    recognised and passes through like a scalar. */
module SchemaElement {
  import opened Objects

  /** `convert_to_dict`: an instance becomes the conversion of its
      attribute dictionary, a dict keeps its keys, a list or tuple becomes
      a list of the converted elements in order, and anything else is
      returned as it is. */
  function ConvertToDict(o: Obj): (r: Obj)
    ensures o.Null? || o.Scalar? || (o.Element? && o.cls != Current) ==> r == o
    ensures o.Dict? ==> r.Dict? && r.entries.Keys == o.entries.Keys &&
                        forall k | k in o.entries :: r.entries[k] == ConvertToDict(o.entries[k])
    ensures (o.List? || o.Tuple?) ==> r.List? && |r.items| == |o.items| &&
                                      forall i | 0 <= i < |o.items| :: r.items[i] == ConvertToDict(o.items[i])
    ensures Plain(r, Current)
  {
    match o
    case Element(Current, attrs) => Dict(map k | k in attrs :: ConvertToDict(attrs[k]))
    case Dict(m) => Dict(map k | k in m :: ConvertToDict(m[k]))
    case List(xs) => List(seq(|xs|, i requires 0 <= i < |xs| => ConvertToDict(xs[i])))
    case Tuple(xs) => List(seq(|xs|, i requires 0 <= i < |xs| => ConvertToDict(xs[i])))
    case _ => o
  }

  /** `convert_to_dict_remove_none`: as `convert_to_dict`, but a dict, or
      an attribute dictionary, keeps only its entries whose value is not
      None; None elements of a list are kept. */
  function ConvertToDictRemoveNone(o: Obj): (r: Obj)
    ensures o.Null? || o.Scalar? || (o.Element? && o.cls != Current) ==> r == o
    ensures o.Dict? ==> r.Dict? && r.entries.Keys == (set k | k in o.entries && o.entries[k] != Null) &&
                        forall k | k in r.entries :: r.entries[k] == ConvertToDictRemoveNone(o.entries[k])
    ensures (o.List? || o.Tuple?) ==> r.List? && |r.items| == |o.items| &&
                                      forall i | 0 <= i < |o.items| :: r.items[i] == ConvertToDictRemoveNone(o.items[i])
    ensures Plain(r, Current) && NoNullEntries(r, Current)
  {
    match o
    case Element(Current, attrs) => Dict(map k | k in attrs && attrs[k] != Null :: ConvertToDictRemoveNone(attrs[k]))
    case Dict(m) => Dict(map k | k in m && m[k] != Null :: ConvertToDictRemoveNone(m[k]))
    case List(xs) => List(seq(|xs|, i requires 0 <= i < |xs| => ConvertToDictRemoveNone(xs[i])))
    case Tuple(xs) => List(seq(|xs|, i requires 0 <= i < |xs| => ConvertToDictRemoveNone(xs[i])))
    case _ => o
  }

  /** `SchemaElement.to_dict` of the instance with attribute dictionary
      `attrs`: the conversion of that dictionary. */
  function ToDict(attrs: map<string, Obj>): (r: Obj)
    ensures r == ConvertToDict(Dict(attrs))
  {
    ConvertToDict(Element(Current, attrs))
  }

  /** `SchemaElement.to_dict_remove_none`, likewise. */
  function ToDictRemoveNone(attrs: map<string, Obj>): (r: Obj)
    ensures r == ConvertToDictRemoveNone(Dict(attrs))
  {
    ConvertToDictRemoveNone(Element(Current, attrs))
  }

  /** A plain tree is its own conversion. */
  lemma {:induction false} ConvertPlain(o: Obj)
    requires Plain(o, Current)
    ensures ConvertToDict(o) == o
  {
    match o
    case Dict(m) =>
      forall k | k in m ensures ConvertToDict(m[k]) == m[k] {
        ConvertPlain(m[k]);
      }
    case List(xs) =>
      forall i | 0 <= i < |xs| ensures ConvertToDict(xs[i]) == xs[i] {
        ConvertPlain(xs[i]);
      }
    case _ =>
  }

  lemma ConvertToDictIdempotent(o: Obj)
    ensures ConvertToDict(ConvertToDict(o)) == ConvertToDict(o)
  {
    ConvertPlain(ConvertToDict(o));
  }

  /** A plain tree without None entries is its own conversion with None
      entries removed. */
  lemma {:induction false} RemoveNonePlain(o: Obj)
    requires Plain(o, Current) && NoNullEntries(o, Current)
    ensures ConvertToDictRemoveNone(o) == o
  {
    match o
    case Dict(m) =>
      forall k | k in m ensures ConvertToDictRemoveNone(m[k]) == m[k] {
        RemoveNonePlain(m[k]);
      }
    case List(xs) =>
      forall i | 0 <= i < |xs| ensures ConvertToDictRemoveNone(xs[i]) == xs[i] {
        RemoveNonePlain(xs[i]);
      }
    case _ =>
  }

  lemma ConvertToDictRemoveNoneIdempotent(o: Obj)
    ensures ConvertToDictRemoveNone(ConvertToDictRemoveNone(o)) == ConvertToDictRemoveNone(o)
  {
    RemoveNonePlain(ConvertToDictRemoveNone(o));
  }

  /** Where no dict holds None, removing None entries changes nothing. */
  lemma {:induction false} RemoveNoneWithoutNulls(o: Obj)
    requires NoNullEntries(o, Current)
    ensures ConvertToDictRemoveNone(o) == ConvertToDict(o)
  {
    match o
    case Dict(m) =>
      forall k | k in m ensures ConvertToDictRemoveNone(m[k]) == ConvertToDict(m[k]) {
        RemoveNoneWithoutNulls(m[k]);
      }
    case Element(Current, a) =>
      forall k | k in a ensures ConvertToDictRemoveNone(a[k]) == ConvertToDict(a[k]) {
        RemoveNoneWithoutNulls(a[k]);
      }
    case List(xs) =>
      forall i | 0 <= i < |xs| ensures ConvertToDictRemoveNone(xs[i]) == ConvertToDict(xs[i]) {
        RemoveNoneWithoutNulls(xs[i]);
      }
    case Tuple(xs) =>
      forall i | 0 <= i < |xs| ensures ConvertToDictRemoveNone(xs[i]) == ConvertToDict(xs[i]) {
        RemoveNoneWithoutNulls(xs[i]);
      }
    case _ =>
  }

  /** A dict whose only entry that is not None is `k` flattens to that
      entry alone. */
  lemma SingleLiveEntry(m: map<string, Obj>, k: string)
    requires k in m && m[k] != Null && forall j | j in m && j != k :: m[j] == Null
    ensures ConvertToDictRemoveNone(Dict(m)) == Dict(map[k := ConvertToDictRemoveNone(m[k])])
  {
    var d := ConvertToDictRemoveNone(Dict(m));
    assert d.entries.Keys == {k};
  }
}
