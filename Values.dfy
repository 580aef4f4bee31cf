/** The PHP values a context store and a logger carry. */
module Values {

  /** A PHP value. PHP arrays are split by shape: a list (keys 0..n-1 in
      order) is `List`, any other array is `Dict` with its keys as strings.
      `Incomplete` stands for `__PHP_Incomplete_Class`, the placeholder
      `unserialize` produces when the class of a serialized object is not
      known on the decoding side. The empty PHP array has two spellings
      here, `List([])` and `Dict(map[])`; `IsList` accepts both, but `==`
      tells them apart, so a codec that turns one into the other does not
      count as round-tripping that value. */
  datatype Value =
    | Null
    | Bool(b: bool)
    | Int(i: int)
    | Str(s: string)
    | List(items: seq<Value>)
    | Dict(entries: map<string, Value>)
    | Object(className: string, properties: map<string, Value>)
    | Incomplete(className: string)

  /** `is_array(v) && array_is_list(v)`: the empty array is a list
      whichever way it is written. */
  predicate IsList(v: Value) {
    v.List? || v == Dict(map[])
  }

  /** The elements of a list, in order. */
  function Items(v: Value): (r: seq<Value>)
    requires IsList(v)
    ensures v.List? ==> r == v.items
    ensures v.Dict? ==> r == []
  {
    if v.List? then v.items else []
  }
}
