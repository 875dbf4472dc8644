/** JSON values as the repository's `map[string]any` trees, and the accessors of
    Kubernetes' `unstructured.Unstructured` that the indexer and the search API use. */
module Json {

  datatype Option<+T> = None | Some(value: T)

  datatype Json =
    | Null
    | Bool(b: bool)
    | Number(n: real)
    | Str(s: string)
    | Array(items: seq<Json>)
    | Object(fields: map<string, Json>)

  type Fields = map<string, Json>

  function Lookup<K, V>(m: map<K, V>, k: K): Option<V> {
    if k in m then Some(m[k]) else None
  }

  /** The string at `key`, or "" when it is absent or not a string. */
  function StringAt(m: Fields, key: string): string {
    if key in m && m[key].Str? then m[key].s else ""
  }

  /** The string at `outer.inner`, or "" when either step is missing or has another type. */
  function NestedString(m: Fields, outer: string, inner: string): string {
    if outer in m && m[outer].Object? then StringAt(m[outer].fields, inner) else ""
  }

  /** The value has the string v at `outer.inner`. */
  predicate HasNested(m: Fields, outer: string, inner: string, v: string) {
    outer in m && m[outer].Object? && inner in m[outer].fields && m[outer].fields[inner] == Str(v)
  }

  datatype Gvk = Gvk(group: string, version: string, kind: string)

  function SlashCount(s: string): nat {
    if s == "" then 0 else (if s[0] == '/' then 1 else 0) + SlashCount(s[1..])
  }

  /** Position of the first `c`, or |s| when there is none. */
  function IndexOf(s: string, c: char): (i: nat)
    ensures i <= |s|
    ensures forall j :: 0 <= j < i ==> s[j] != c
    ensures i < |s| ==> s[i] == c
  {
    if s == "" || s[0] == c then 0 else 1 + IndexOf(s[1..], c)
  }

  /** `schema.ParseGroupVersion`: at most one slash; None is its error. */
  function ParseGroupVersion(apiVersion: string): Option<(string, string)> {
    if apiVersion == "" || apiVersion == "/" then Some(("", ""))
    else
      var n := SlashCount(apiVersion);
      if n == 0 then Some(("", apiVersion))
      else if n == 1 then
        var i := IndexOf(apiVersion, '/');
        if i < |apiVersion| then Some((apiVersion[..i], apiVersion[i + 1..])) else None
      else None
  }

  /** `Unstructured.GroupVersionKind`: all empty when the apiVersion does not parse. */
  function GvkOf(m: Fields): Gvk {
    match ParseGroupVersion(StringAt(m, "apiVersion"))
    case None => Gvk("", "", "")
    case Some(gv) => Gvk(gv.0, gv.1, StringAt(m, "kind"))
  }
}
