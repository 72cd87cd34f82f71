/** The decoded configuration document and the walk behind dot-path lookup. */
module Json {
  import opened Wrappers

  /** A decoded configuration value: the tagged union a JSON or YAML body
      decodes to. */
  datatype Value =
    | Str(s: string)
    | Int(i: int)
    | Bool(b: bool)
    | Null
    | Object(fields: map<string, Value>)
    | Array(items: seq<Value>)

  /** A configuration document is the top-level mapping of a decoded body. */
  type Document = map<string, Value>

  /** Descends from `v` through nested mappings, one key per segment. A
      missing key, a segment applied to a non-mapping and a `Null` found at
      the end all give `None`: the lookup does not tell "absent" from "null". */
  function Walk(v: Value, segs: seq<string>): (r: Option<Value>)
    ensures r.Some? ==> r.value != Null
    ensures |segs| == 0 && v != Null ==> r == Some(v)
    ensures r.Some? && |segs| > 0 ==> v.Object? && segs[0] in v.fields
    decreases |segs|
  {
    if |segs| == 0 then
      if v.Null? then None else Some(v)
    else
      match v
      case Object(m) => if segs[0] in m then Walk(m[segs[0]], segs[1..]) else None
      case _ => None
  }

  /** Walking a concatenated path is walking the first part, then the
      second part from wherever the first part ended. */
  lemma {:induction false} WalkAppend(v: Value, a: seq<string>, b: seq<string>)
    ensures Walk(v, a + b) == match Walk(v, a) case None => None case Some(w) => Walk(w, b)
    decreases |a|
  {
    if |a| == 0 {
      assert a + b == b;
    } else {
      assert (a + b)[0] == a[0];
      assert (a + b)[1..] == a[1..] + b;
      match v
      case Object(m) =>
        if a[0] in m {
          WalkAppend(m[a[0]], a[1..], b);
        }
      case _ =>
    }
  }

  /** A one-segment walk finds exactly the non-null values stored under that
      key of a mapping. */
  lemma WalkOneKey(m: map<string, Value>, k: string, w: Value)
    ensures Walk(Object(m), [k]) == Some(w) <==> k in m && m[k] == w && w != Null
  {
  }
}
