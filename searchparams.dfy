/** The part of the WHATWG `URL` / `URLSearchParams` interface the clients and
    the proxy use: a base address with an ordered list of name/value pairs,
    `searchParams.set` and `searchParams.get`. */
module SearchParams {
  import opened Wrappers

  /** A parameter value: verbatim text (`String(x)` of a query string) or a
      number (`n.toString()`; its decimal rendering is not modelled). */
  datatype Value = Text(text: string) | Number(n: real)

  /** The parameter names the core sets, each with the text that goes into the
      query string. */
  datatype Name = Lamin | Lomin | Lamax | Lomax | Key | Lat | Lng | Distance | Limit {
    function Text(): string {
      match this
      case Lamin => "lamin"
      case Lomin => "lomin"
      case Lamax => "lamax"
      case Lomax => "lomax"
      case Key => "key"
      case Lat => "lat"
      case Lng => "lng"
      case Distance => "distance"
      case Limit => "limit"
    }
  }

  type Pairs = seq<(Name, Value)>

  datatype Url = Url(base: string, params: Pairs)

  predicate Has(ps: Pairs, name: Name) {
    exists i :: 0 <= i < |ps| && ps[i].0 == name
  }

  /** `get`: the value of the first pair with this name. */
  function Lookup(ps: Pairs, name: Name): Option<Value> {
    if ps == [] then None
    else if ps[0].0 == name then Some(ps[0].1)
    else Lookup(ps[1..], name)
  }

  function RemoveAll(ps: Pairs, name: Name): Pairs {
    if ps == [] then []
    else if ps[0].0 == name then RemoveAll(ps[1..], name)
    else [ps[0]] + RemoveAll(ps[1..], name)
  }

  /** `set`: the first pair with this name takes the value and later ones are
      removed; a name not yet present is appended. */
  function SetIn(ps: Pairs, name: Name, v: Value): Pairs {
    if ps == [] then [(name, v)]
    else if ps[0].0 == name then [(name, v)] + RemoveAll(ps[1..], name)
    else [ps[0]] + SetIn(ps[1..], name, v)
  }

  function Get(u: Url, name: Name): Option<Value> {
    Lookup(u.params, name)
  }

  function Set(u: Url, name: Name, v: Value): Url {
    Url(u.base, SetIn(u.params, name, v))
  }

  /** `get` finds nothing exactly when no pair has the name. */
  lemma {:induction false} LookupNone(ps: Pairs, name: Name)
    ensures Lookup(ps, name).None? <==> !Has(ps, name)
  {
    if ps != [] {
      LookupNone(ps[1..], name);
      if Has(ps[1..], name) {
        var i :| 0 <= i < |ps| - 1 && ps[1..][i].0 == name;
        assert ps[i + 1].0 == name;
      }
      if ps[0].0 != name && Has(ps, name) {
        var i :| 0 <= i < |ps| && ps[i].0 == name;
        assert ps[1..][i - 1].0 == name;
      }
    }
  }

  lemma {:induction false} RemoveAllSpec(ps: Pairs, name: Name, other: Name)
    requires other != name
    ensures Lookup(RemoveAll(ps, name), name).None?
    ensures Lookup(RemoveAll(ps, name), other) == Lookup(ps, other)
  {
    if ps != [] {
      RemoveAllSpec(ps[1..], name, other);
    }
  }

  /** After `set(name, v)`, `get(name)` is `v` and every other name reads as
      before. */
  lemma {:induction false} SetGet(u: Url, name: Name, v: Value, other: Name)
    requires other != name
    ensures Set(u, name, v).base == u.base
    ensures Get(Set(u, name, v), name) == Some(v)
    ensures Get(Set(u, name, v), other) == Get(u, other)
  {
    SetInLookup(u.params, name, v, other);
  }

  lemma {:induction false} SetInLookup(ps: Pairs, name: Name, v: Value, other: Name)
    requires other != name
    ensures Lookup(SetIn(ps, name, v), name) == Some(v)
    ensures Lookup(SetIn(ps, name, v), other) == Lookup(ps, other)
  {
    if ps != [] {
      if ps[0].0 == name {
        RemoveAllSpec(ps[1..], name, other);
      } else {
        SetInLookup(ps[1..], name, v, other);
      }
    }
  }

  /** Setting a name not yet present appends it. */
  lemma {:induction false} SetAppends(u: Url, name: Name, v: Value)
    requires !Has(u.params, name)
    ensures Set(u, name, v) == Url(u.base, u.params + [(name, v)])
  {
    SetInAppends(u.params, name, v);
  }

  lemma {:induction false} SetInAppends(ps: Pairs, name: Name, v: Value)
    requires !Has(ps, name)
    ensures SetIn(ps, name, v) == ps + [(name, v)]
  {
    if ps != [] {
      assert ps[0].0 != name;
      forall i | 0 <= i < |ps| - 1 ensures ps[1..][i].0 != name {
        assert ps[1..][i] == ps[i + 1];
      }
      SetInAppends(ps[1..], name, v);
      assert ps == [ps[0]] + ps[1..];
    }
  }
}
