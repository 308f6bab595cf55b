/** Vocabulary shared by the three routers: optional values, the truthiness that
    JavaScript gives a request field, and the shape of an HTTP reply. */
module Http {

  datatype Option<+T> = None | Some(value: T)

  /** A request field as the handlers test it with `!field`: absent, or the
      string that was sent. The empty string is falsy in JavaScript. */
  predicate Truthy(f: Option<string>)
  {
    f.Some? && f.value != ""
  }

  /** What a handler answers: a status code with a JSON body, or a redirect
      to a path. Rendering and serialization are not modelled. */
  datatype Reply<+B> = Send(code: nat, body: B) | Redirect(location: string)

  /** Index of the first element of s that satisfies p, or None when none does:
      what a store query that filters a collection and takes one document finds. */
  function FirstIndex<T>(s: seq<T>, p: T -> bool): (k: Option<nat>)
    ensures k.Some? ==> k.value < |s| && p(s[k.value])
    ensures k.Some? ==> forall j :: 0 <= j < k.value ==> !p(s[j])
    ensures k.None? ==> forall j :: 0 <= j < |s| ==> !p(s[j])
  {
    if s == [] then None
    else if p(s[0]) then Some(0)
    else match FirstIndex(s[1..], p)
      case None => None
      case Some(j) => Some(j + 1)
  }

  function Min(a: nat, b: nat): nat
  {
    if a <= b then a else b
  }
}
