/**
 * Job parameters: Java's LinkedHashMap<String, Object>, an insertion-ordered map,
 * as a sequence of entries with distinct keys.
 */
module Params {
  import opened Wrappers
  import opened JavaText

  /** The parameter values a JSON document can give (Jackson maps them to Integer, String, Boolean, ...). */
  datatype Value = IntValue(i: int) | TextValue(s: string) | BoolValue(b: bool) | OtherValue(text: string)

  datatype Entry = Entry(key: string, value: Value)

  type ParamMap = seq<Entry>

  /** The keys in iteration order. */
  function Keys(m: ParamMap): (ks: seq<string>)
    ensures |ks| == |m| && forall i :: 0 <= i < |m| ==> ks[i] == m[i].key
  {
    if m == [] then [] else [m[0].key] + Keys(m[1..])
  }

  /** No key occurs twice, as in any Java map. */
  predicate UniqueKeys(m: ParamMap) {
    Distinct(Keys(m))
  }

  predicate Distinct(ks: seq<string>) {
    forall i, j :: 0 <= i < j < |ks| ==> ks[i] != ks[j]
  }

  /** Map.get: the value stored under k, or null. */
  function Lookup(m: ParamMap, k: string): (r: Option<Value>)
    ensures r.Some? <==> k in Keys(m)
  {
    if m == [] then None
    else if m[0].key == k then Some(m[0].value)
    else Lookup(m[1..], k)
  }

  /**
   * LinkedHashMap.merge(k, v, (v1, v2) -> v2) with a non-null v: an existing key
   * keeps its place and takes the new value; a new key is appended.
   */
  function Put(m: ParamMap, k: string, v: Value): ParamMap
  {
    if m == [] then [Entry(k, v)]
    else if m[0].key == k then [Entry(k, v)] + m[1..]
    else [m[0]] + Put(m[1..], k, v)
  }

  /** merge binds k to the new value and leaves every other key's binding alone. */
  lemma {:induction false} PutLookup(m: ParamMap, k: string, v: Value, k': string)
    ensures Lookup(Put(m, k, v), k') == if k' == k then Some(v) else Lookup(m, k')
  {
    if m != [] && m[0].key != k {
      PutLookup(m[1..], k, v, k');
    }
  }

  /** merge keeps the iteration order: an existing key stays in place, a new key goes last. */
  lemma {:induction false} PutKeys(m: ParamMap, k: string, v: Value)
    ensures Keys(Put(m, k, v)) == if k in Keys(m) then Keys(m) else Keys(m) + [k]
  {
    if m != [] {
      assert Keys(m) == [m[0].key] + Keys(m[1..]);
      if m[0].key != k {
        PutKeys(m[1..], k, v);
        assert Keys(Put(m, k, v)) == [m[0].key] + Keys(Put(m[1..], k, v));
      } else {
        assert Keys(Put(m, k, v)) == [k] + Keys(m[1..]);
      }
    }
  }

  /** merge never introduces a duplicate key. */
  lemma PutUnique(m: ParamMap, k: string, v: Value)
    requires UniqueKeys(m)
    ensures UniqueKeys(Put(m, k, v))
  {
    PutKeys(m, k, v);
  }

  /** Object.toString of a parameter value. */
  function ValueText(v: Value): string {
    match v
    case IntValue(i) => IntToString(i)
    case TextValue(s) => s
    case BoolValue(b) => if b then "true" else "false"
    case OtherValue(t) => t
  }

  function EntriesText(m: ParamMap): string {
    if m == [] then ""
    else
      var head := m[0].key + "=" + ValueText(m[0].value);
      if |m| == 1 then head else head + ", " + EntriesText(m[1..])
  }

  /** String.valueOf(map): "null", or AbstractMap.toString's "{k1=v1, k2=v2}". */
  function Render(m: Option<ParamMap>): string {
    match m
    case None => "null"
    case Some(entries) => "{" + EntriesText(entries) + "}"
  }
}
