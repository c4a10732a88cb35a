/** Decoded JSON values, as the driver sees option blobs, provider metadata and reply fields. */
module Values {

  datatype Option<+T> = None | Some(value: T)

  /** A value of Go's `interface{}` after JSON decoding (numbers kept as integers). */
  datatype Value =
    | Null
    | Bool(b: bool)
    | Num(n: int)
    | Str(s: string)
    | List(items: seq<Value>)
    | Obj(members: map<string, Value>)

  /** A `map[string]interface{}`: options, metadata, handler fields and reply envelopes. */
  type Fields = map<string, Value>

  /** The strings of a list whose every item is a string, or None. */
  function StringsOf(items: seq<Value>): (r: Option<seq<string>>)
    ensures r.Some? <==> forall i :: 0 <= i < |items| ==> items[i].Str?
    ensures r.Some? ==> |r.value| == |items| && forall i :: 0 <= i < |items| ==> items[i] == Str(r.value[i])
  {
    if items == [] then Some([])
    else
      var rest := StringsOf(items[1..]);
      if items[0].Str? && rest.Some? then
        var r := [items[0].s] + rest.value;
        assert forall i :: 1 <= i < |items| ==> items[i] == items[1..][i - 1];
        Some(r)
      else
        assert !items[0].Str? || exists i :: 1 <= i < |items| && !items[i].Str? by {
          if items[0].Str? {
            var j :| 0 <= j < |items[1..]| && !items[1..][j].Str?;
            assert !items[j + 1].Str?;
          }
        }
        None
  }

  /** Stand-in for the metadata utility that reads a list of strings out of a decoded value. */
  function ExtractStringSlice(v: Value): (r: Option<seq<string>>)
    ensures r.Some? <==> v.List? && forall i :: 0 <= i < |v.items| ==> v.items[i].Str?
    ensures r.Some? ==> |r.value| == |v.items| && forall i :: 0 <= i < |v.items| ==> v.items[i] == Str(r.value[i])
  {
    if v.List? then StringsOf(v.items) else None
  }
}
