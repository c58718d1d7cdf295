/** `JSON.stringify`, taken as an injective encoding: a serialised value is
    represented by the JSON tree it encodes. */
module Json {
  import Lists

  datatype Json =
    | JStr(s: string)
    | JNum(n: real)
    | JBool(b: bool)
    | JArr(elems: seq<Json>)
    | JObj(members: seq<(string, Json)>)

  /** `JSON.stringify(xs)` for an array of strings: ids, or image URLs. */
  function StringsJson(xs: seq<string>): Json {
    JArr(Lists.Map(xs, (x: string) => JStr(x)))
  }

  /** Distinct string lists serialise differently, so the server can recover
      the exact list, order included. */
  lemma StringsJsonInjective(a: seq<string>, b: seq<string>)
    requires StringsJson(a) == StringsJson(b)
    ensures a == b
  {
    var ea, eb := StringsJson(a).elems, StringsJson(b).elems;
    assert |a| == |ea| == |eb| == |b|;
    forall i | 0 <= i < |a| ensures a[i] == b[i] {
      assert ea[i] == JStr(a[i]) && eb[i] == JStr(b[i]);
    }
  }
}
