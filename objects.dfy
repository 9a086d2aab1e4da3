/** The Python objects the schema converters walk: None, scalars, dicts
    with string keys, lists, tuples, and instances of a `SchemaElement`
    class, which are held as their class and their attribute dictionary
    `__dict__`. */
module Objects {
  /** Values the converters never look inside. */
  datatype Atom = AInt(i: int) | AStr(s: string) | ABool(b: bool)

  /** The two distinct `SchemaElement` classes of the package: the one of
      toornament/schema_element.py, from which the organizer records
      derive, and the older one of toornament/schema.py. */
  datatype ElementClass = Current | Legacy

  datatype Obj =
    | Null
    | Scalar(atom: Atom)
    | Dict(entries: map<string, Obj>)
    | List(items: seq<Obj>)
    | Tuple(items: seq<Obj>)
    | Element(cls: ElementClass, attrs: map<string, Obj>)

  /** A plain dict/list tree as seen by the converter that knows the
      class `own`: no tuple and no instance of `own` anywhere it looks;
      an instance of the other class is a leaf it never opens. */
  predicate Plain(o: Obj, own: ElementClass) {
    match o
    case Null => true
    case Scalar(_) => true
    case Dict(m) => forall k | k in m :: Plain(m[k], own)
    case List(xs) => forall i | 0 <= i < |xs| :: Plain(xs[i], own)
    case Tuple(_) => false
    case Element(c, _) => c != own
  }

  /** No dict, and no attribute dictionary of an instance of `own`, holds
      None as a value anywhere the converter of `own` looks. */
  predicate NoNullEntries(o: Obj, own: ElementClass) {
    match o
    case Null => true
    case Scalar(_) => true
    case Dict(m) => forall k | k in m :: m[k] != Null && NoNullEntries(m[k], own)
    case List(xs) => forall i | 0 <= i < |xs| :: NoNullEntries(xs[i], own)
    case Tuple(xs) => forall i | 0 <= i < |xs| :: NoNullEntries(xs[i], own)
    case Element(c, a) => c == own ==> forall k | k in a :: a[k] != Null && NoNullEntries(a[k], own)
  }

  /** No schema instance of either class anywhere in the tree. */
  predicate NoElements(o: Obj) {
    match o
    case Null => true
    case Scalar(_) => true
    case Dict(m) => forall k | k in m :: NoElements(m[k])
    case List(xs) => forall i | 0 <= i < |xs| :: NoElements(xs[i])
    case Tuple(xs) => forall i | 0 <= i < |xs| :: NoElements(xs[i])
    case Element(_, _) => false
  }
}
