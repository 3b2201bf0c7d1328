/**
 * URLs and query strings, without percent-encoding.
 *
 * A URL is an origin, a path and the ordered list of its query pairs. Two
 * views of a query are used by the handlers: `URLSearchParams` (`get` and
 * `set`, by the gate and the auth callback) and the `searchParams` object that
 * the framework passes to a page, in which a repeated key becomes an array.
 */
module Http {
  import opened Options

  datatype Param = Param(name: string, value: string)

  /**
   * A URL. `origin` is the scheme, host and port of a parsed URL; for a URL
   * built on a configured base it holds that base text unparsed.
   */
  datatype Url = Url(origin: string, path: string, query: seq<Param>)

  /** An incoming request: its URL and its cookie jar (name to value), which the handlers only read. */
  datatype Request = Request(url: Url, cookies: map<string, string>)

  /** Every value the query holds under `key`, in order. */
  function Values(q: seq<Param>, key: string): (vs: seq<string>)
    ensures forall i :: 0 <= i < |vs| ==> Param(key, vs[i]) in q
  {
    if q == [] then []
    else if q[0].name == key then [q[0].value] + Values(q[1..], key)
    else Values(q[1..], key)
  }

  /** `URLSearchParams.get(key)`: the first value under `key`, or null. */
  function GetFirst(q: seq<Param>, key: string): (r: Option<string>)
    ensures r.Some? ==> Param(key, r.value) in q
    ensures r.None? ==> forall i :: 0 <= i < |q| ==> q[i].name != key
  {
    if q == [] then None
    else if q[0].name == key then Some(q[0].value)
    else GetFirst(q[1..], key)
  }

  /** The query with every pair named `key` removed. */
  function RemoveAll(q: seq<Param>, key: string): (r: seq<Param>)
    ensures forall p :: p in r ==> p in q && p.name != key
  {
    if q == [] then []
    else if q[0].name == key then RemoveAll(q[1..], key)
    else [q[0]] + RemoveAll(q[1..], key)
  }

  /**
   * `URLSearchParams.set(key, value)`: the first pair named `key` takes the new
   * value and the later ones are removed; with no such pair, one is appended.
   */
  function SetParam(q: seq<Param>, key: string, value: string): (r: seq<Param>)
    ensures Param(key, value) in r
    ensures forall p :: p in r ==> p == Param(key, value) || (p in q && p.name != key)
  {
    if q == [] then [Param(key, value)]
    else if q[0].name == key then [Param(key, value)] + RemoveAll(q[1..], key)
    else [q[0]] + SetParam(q[1..], key, value)
  }

  /** The first value is the head of all values. */
  lemma {:induction false} GetFirstIsFirstValue(q: seq<Param>, key: string)
    ensures GetFirst(q, key) == if Values(q, key) == [] then None else Some(Values(q, key)[0])
  {
    if q != [] && q[0].name != key {
      GetFirstIsFirstValue(q[1..], key);
    }
  }

  lemma {:induction false} RemoveAllOthers(q: seq<Param>, key: string, other: string)
    ensures Values(RemoveAll(q, key), key) == []
    ensures other != key ==> Values(RemoveAll(q, key), other) == Values(q, other)
  {
    if q != [] {
      RemoveAllOthers(q[1..], key, other);
      if q[0].name != key {
        assert RemoveAll(q, key)[1..] == RemoveAll(q[1..], key);
      }
    }
  }

  /** After `set`, the key holds exactly the one value set; every other key keeps all its values. */
  lemma {:induction false} SetParamValues(q: seq<Param>, key: string, value: string, other: string)
    ensures Values(SetParam(q, key, value), key) == [value]
    ensures other != key ==> Values(SetParam(q, key, value), other) == Values(q, other)
  {
    if q == [] {
    } else if q[0].name == key {
      RemoveAllOthers(q[1..], key, other);
      assert SetParam(q, key, value)[1..] == RemoveAll(q[1..], key);
    } else {
      SetParamValues(q[1..], key, value, other);
      assert SetParam(q, key, value)[1..] == SetParam(q[1..], key, value);
    }
  }

  /** Reading back what was set: `get` returns the value `set` stored, and `set` leaves other keys' `get` alone. */
  lemma GetAfterSet(q: seq<Param>, key: string, value: string, other: string)
    ensures GetFirst(SetParam(q, key, value), key) == Some(value)
    ensures other != key ==> GetFirst(SetParam(q, key, value), other) == GetFirst(q, other)
  {
    SetParamValues(q, key, value, other);
    GetFirstIsFirstValue(SetParam(q, key, value), key);
    GetFirstIsFirstValue(SetParam(q, key, value), other);
    GetFirstIsFirstValue(q, other);
  }

  /** A value of the page's `searchParams` object: absent, a string, or an array for a repeated key. */
  datatype ParamValue = Missing | Single(text: string) | Multiple(texts: seq<string>)

  /** `searchParams[key]` as the framework builds it from the query. */
  function SearchValue(q: seq<Param>, key: string): (v: ParamValue)
    ensures v.Missing? <==> GetFirst(q, key).None?
    ensures v.Single? ==> GetFirst(q, key) == Some(v.text) && Values(q, key) == [v.text]
    ensures v.Single? ==> Param(key, v.text) in q
    ensures v.Multiple? ==> v.texts == Values(q, key) && |v.texts| >= 2
  {
    GetFirstIsFirstValue(q, key);
    var vs := Values(q, key);
    if |vs| == 0 then Missing
    else if |vs| == 1 then Single(vs[0])
    else Multiple(vs)
  }
}
