/** JSON values as Python's json module returns them, with the two Python
    operations the pipeline applies to them: dict lookup and `for` iteration. */
module Json {
  import opened Wrappers
  import opened Sequences

  /** An object keeps its members in document order; a repeated key may occur,
      in which case Python keeps the last value under the first position. */
  datatype Json =
    | JNull
    | JBool(b: bool)
    | JNum(n: real)
    | JStr(s: string)
    | JArr(items: seq<Json>)
    | JObj(fields: seq<(string, Json)>)

  function FieldNames(fields: seq<(string, Json)>): seq<string> {
    seq(|fields|, i requires 0 <= i < |fields| => fields[i].0)
  }

  /** `d.get(key)` on the dict that `fields` denotes: the value of the last member named `key`. */
  function Get(fields: seq<(string, Json)>, key: string): (r: Option<Json>)
    ensures r.Some? <==> key in FieldNames(fields)
    ensures r.Some? ==> exists i :: 0 <= i < |fields| && fields[i] == (key, r.value)
                                    && forall j :: i < j < |fields| ==> fields[j].0 != key
  {
    if fields == [] then None
    else
      assert FieldNames(fields) == FieldNames(fields[..|fields| - 1]) + [fields[|fields| - 1].0];
      if fields[|fields| - 1].0 == key then Some(fields[|fields| - 1].1)
      else Get(fields[..|fields| - 1], key)
  }

  /** `d.get(key, default)`. */
  function GetOr(fields: seq<(string, Json)>, key: string, default: Json): Json {
    match Get(fields, key)
    case Some(v) => v
    case None => default
  }

  /** `j[key]` with a string key: only a dict supports it, and a missing key raises KeyError. */
  function Subscript(j: Json, key: string): (r: Result<Json, Exception>)
    ensures !j.JObj? ==> r == Err(TypeError)
    ensures j.JObj? ==> (r.Ok? <==> key in FieldNames(j.fields))
    ensures j.JObj? && r.Err? ==> r.error == KeyError(key)
    ensures r.Ok? ==> Get(j.fields, key) == Some(r.value)
  {
    match j
    case JObj(fields) =>
      (match Get(fields, key)
       case Some(v) => Ok(v)
       case None => Err(KeyError(key)))
    case _ => Err(TypeError)
  }

  function StringsAsJson(ks: seq<string>): (r: seq<Json>)
    ensures |r| == |ks|
    ensures forall i :: 0 <= i < |ks| ==> r[i] == JStr(ks[i])
    ensures forall x :: x in r <==> x.JStr? && x.s in ks
  {
    if ks == [] then []
    else
      assert ks == ks[..|ks| - 1] + [ks[|ks| - 1]];
      StringsAsJson(ks[..|ks| - 1]) + [JStr(ks[|ks| - 1])]
  }

  /** The elements `for x in j` visits: a list's items, a dict's distinct keys
      (in first-occurrence order), a string's one-character strings; any other
      value is not iterable and raises TypeError. */
  function Iterate(j: Json): (r: Result<seq<Json>, Exception>)
    ensures r.Ok? <==> (j.JArr? || j.JObj? || j.JStr?)
    ensures r.Err? ==> r.error == TypeError
    ensures j.JArr? ==> r == Ok(j.items)
    ensures j.JStr? ==> |r.value| == |j.s| && forall i :: 0 <= i < |j.s| ==> r.value[i] == JStr([j.s[i]])
    ensures j.JObj? ==> (forall k :: JStr(k) in r.value <==> k in FieldNames(j.fields))
                        && (forall x :: x in r.value ==> x.JStr?)
                        && NoDuplicates(r.value)
                        && FirstOccurrenceOrder(r.value, StringsAsJson(FieldNames(j.fields)))
  {
    match j
    case JArr(items) => Ok(items)
    case JObj(fields) =>
      var names := StringsAsJson(FieldNames(fields));
      DistinctInFirstOccurrenceOrder(names);
      Ok(Distinct(names))
    case JStr(s) => Ok(seq(|s|, i requires 0 <= i < |s| => JStr([s[i]])))
    case _ => Err(TypeError)
  }
}
