/** The older copy of the flattening (toornament/schema.py).  It declares
    its own `SchemaElement` class, so it opens only instances of that
    class; the records of toornament/organizer_schema.py, which derive
    from the class of toornament/schema_element.py, pass through it
    unchanged. */
module Schema {
  import opened Objects
  import SchemaElement

  /** `convert_to_dict` of toornament/schema.py. */
  function ConvertToDict(o: Obj): (r: Obj)
    ensures o.Null? || o.Scalar? || (o.Element? && o.cls != Legacy) ==> r == o
    ensures o.Dict? ==> r.Dict? && r.entries.Keys == o.entries.Keys &&
                        forall k | k in o.entries :: r.entries[k] == ConvertToDict(o.entries[k])
    ensures (o.List? || o.Tuple?) ==> r.List? && |r.items| == |o.items| &&
                                      forall i | 0 <= i < |o.items| :: r.items[i] == ConvertToDict(o.items[i])
    ensures Plain(r, Legacy)
  {
    match o
    case Element(Legacy, attrs) => Dict(map k | k in attrs :: ConvertToDict(attrs[k]))
    case Dict(m) => Dict(map k | k in m :: ConvertToDict(m[k]))
    case List(xs) => List(seq(|xs|, i requires 0 <= i < |xs| => ConvertToDict(xs[i])))
    case Tuple(xs) => List(seq(|xs|, i requires 0 <= i < |xs| => ConvertToDict(xs[i])))
    case _ => o
  }

  /** `SchemaElement.to_dict` of toornament/schema.py. */
  function ToDict(attrs: map<string, Obj>): (r: Obj)
    ensures r == ConvertToDict(Dict(attrs))
  {
    ConvertToDict(Element(Legacy, attrs))
  }

  /** On trees that hold no schema instance the two copies agree. */
  lemma {:induction false} CopiesAgreeWithoutElements(o: Obj)
    requires NoElements(o)
    ensures ConvertToDict(o) == SchemaElement.ConvertToDict(o)
  {
    match o
    case Dict(m) =>
      forall k | k in m ensures ConvertToDict(m[k]) == SchemaElement.ConvertToDict(m[k]) {
        CopiesAgreeWithoutElements(m[k]);
      }
    case List(xs) =>
      forall i | 0 <= i < |xs| ensures ConvertToDict(xs[i]) == SchemaElement.ConvertToDict(xs[i]) {
        CopiesAgreeWithoutElements(xs[i]);
      }
    case Tuple(xs) =>
      forall i | 0 <= i < |xs| ensures ConvertToDict(xs[i]) == SchemaElement.ConvertToDict(xs[i]) {
        CopiesAgreeWithoutElements(xs[i]);
      }
    case _ =>
  }

  /** The copies differ on a record of the newer class: the newer
      converter flattens it, this one returns it as it is. */
  lemma CopiesDifferOnCurrentElements(attrs: map<string, Obj>)
    ensures ConvertToDict(Element(Current, attrs)) == Element(Current, attrs)
    ensures SchemaElement.ConvertToDict(Element(Current, attrs)).Dict?
    ensures ConvertToDict(Element(Current, attrs)) != SchemaElement.ConvertToDict(Element(Current, attrs))
  {
  }
}
