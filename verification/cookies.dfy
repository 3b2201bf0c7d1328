/**
 * Cookie entries and the response cookie jar.
 *
 * The identity library hands the application a list of `(name, value, options)`
 * entries through its `setAll` callback; the handlers copy every entry onto the
 * outgoing response with `response.cookies.set(name, value, options)`. A
 * response jar is keyed by cookie name, so a later `set` of the same name
 * replaces the earlier one.
 */
module Cookies {

  /** Cookie attributes (path, expiry, flags) as the identity library supplies them; opaque here. */
  datatype CookieOptions = CookieOptions(attributes: seq<(string, string)>)

  /** What a response jar holds under one name. */
  datatype Cookie = Cookie(value: string, options: CookieOptions)

  /** One element of the `cookiesToSet` list passed to `setAll`. */
  datatype CookieEntry = CookieEntry(name: string, value: string, options: CookieOptions)

  type Jar = map<string, Cookie>

  function CookieOf(e: CookieEntry): Cookie
  {
    Cookie(e.value, e.options)
  }

  /** The names an entry list writes. */
  function NamesOf(es: seq<CookieEntry>): (names: set<string>)
    ensures forall i :: 0 <= i < |es| ==> es[i].name in names
    ensures forall n :: n in names ==> exists i :: 0 <= i < |es| && es[i].name == n
  {
    set i | 0 <= i < |es| :: es[i].name
  }

  /** The jar after `set(e.name, e.value, e.options)` for each entry `e` of `es`, in order. */
  function Applied(jar: Jar, es: seq<CookieEntry>): (r: Jar)
    ensures jar.Keys <= r.Keys
    ensures forall i :: 0 <= i < |es| ==> es[i].name in r
  {
    if es == [] then jar
    else
      var last := es[|es| - 1];
      Applied(jar, es[..|es| - 1])[last.name := CookieOf(last)]
  }

  /** No entry is dropped: the relayed jar holds the old names plus every name written. */
  lemma {:induction false} AppliedKeys(jar: Jar, es: seq<CookieEntry>)
    ensures Applied(jar, es).Keys == jar.Keys + NamesOf(es)
  {
    if es != [] {
      var init := es[..|es| - 1];
      AppliedKeys(jar, init);
      assert NamesOf(es) == NamesOf(init) + {es[|es| - 1].name} by {
        forall n | n in NamesOf(es) ensures n in NamesOf(init) + {es[|es| - 1].name} {
          var i :| 0 <= i < |es| && es[i].name == n;
          if i < |es| - 1 { assert init[i] == es[i]; }
        }
      }
    }
  }

  /** The last write of a name wins: its value and options are what the jar holds. */
  lemma {:induction false} LastWriteWins(jar: Jar, es: seq<CookieEntry>, i: nat)
    requires i < |es|
    requires forall j :: i < j < |es| ==> es[j].name != es[i].name
    ensures es[i].name in Applied(jar, es)
    ensures Applied(jar, es)[es[i].name] == CookieOf(es[i])
  {
    if i < |es| - 1 {
      var init := es[..|es| - 1];
      assert init[i] == es[i];
      LastWriteWins(jar, init, i);
    }
  }

  /** A name that no entry writes keeps its presence and its cookie. */
  lemma {:induction false} UnwrittenUnchanged(jar: Jar, es: seq<CookieEntry>, name: string)
    requires forall j :: 0 <= j < |es| ==> es[j].name != name
    ensures name in Applied(jar, es) <==> name in jar
    ensures name in jar ==> Applied(jar, es)[name] == jar[name]
  {
    if es != [] {
      var init := es[..|es| - 1];
      assert forall j :: 0 <= j < |init| ==> init[j] == es[j];
      UnwrittenUnchanged(jar, init, name);
    }
  }

  /** The cookie jar of one outgoing response (`response.cookies`). */
  class CookieJar {
    var store: Jar

    /** The jar of a freshly built response: empty. */
    constructor Empty()
      ensures store == map[]
    {
      store := map[];
    }

    /** `response.cookies.set(name, value, options)`: replaces whatever the name held. */
    method Set(name: string, value: string, options: CookieOptions)
      modifies this
      ensures store == old(store)[name := Cookie(value, options)]
    {
      store := store[name := Cookie(value, options)];
    }

    /** The handlers' `setAll(cookiesToSet)`: `forEach` entry, `set` it on this jar. */
    method SetAll(entries: seq<CookieEntry>)
      modifies this
      ensures store == Applied(old(store), entries)
    {
      var i := 0;
      while i < |entries|
        invariant 0 <= i <= |entries|
        invariant store == Applied(old(store), entries[..i])
      {
        var e := entries[i];
        Set(e.name, e.value, e.options);
        assert entries[..i + 1][..i] == entries[..i];
        i := i + 1;
      }
      assert entries[..|entries|] == entries;
    }
  }
}
