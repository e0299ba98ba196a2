/** Query parameters as the browser's `URLSearchParams` holds them: an ordered list of
    name/value pairs in which a name may occur more than once. Only `get` and `set` are
    used by the search page; they follow section 6.2 of the WHATWG URL Living Standard.
    Percent-encoding (the serialiser of section 5.2) is not modelled: a query string is
    the list it parses to. */
module QueryParams {
  import opened Options

  type Params = seq<(string, string)>

  /** `get(name)`: the value of the first pair whose name is `name`, or `null`. */
  function Get(ps: Params, name: string): (r: Option<string>)
    ensures r.None? <==> forall i :: 0 <= i < |ps| ==> ps[i].0 != name
  {
    if ps == [] then None
    else if ps[0].0 == name then Some(ps[0].1)
    else Get(ps[1..], name)
  }

  /** What `get` returns is the value of the first pair with that name. */
  lemma {:induction false} GetFirstMatch(ps: Params, name: string)
    requires Get(ps, name).Some?
    ensures exists i :: 0 <= i < |ps| && ps[i] == (name, Get(ps, name).value)
                        && forall j :: 0 <= j < i ==> ps[j].0 != name
  {
    if ps[0].0 != name {
      GetFirstMatch(ps[1..], name);
      var i :| 0 <= i < |ps| - 1 && ps[1..][i] == (name, Get(ps, name).value)
               && forall j :: 0 <= j < i ==> ps[1..][j].0 != name;
      assert ps[i + 1] == (name, Get(ps, name).value);
      assert forall j :: 0 <= j < i + 1 ==> ps[j].0 != name by {
        forall j | 0 <= j < i + 1 ensures ps[j].0 != name {
          if j > 0 { assert ps[j] == ps[1..][j - 1]; }
        }
      }
    } else {
      assert ps[0] == (name, Get(ps, name).value);
    }
  }

  /** Every pair whose name is not `name`, in order. */
  function RemoveAll(ps: Params, name: string): (r: Params)
    ensures |r| <= |ps|
    ensures forall i :: 0 <= i < |r| ==> r[i].0 != name
  {
    if ps == [] then []
    else (if ps[0].0 == name then [] else [ps[0]]) + RemoveAll(ps[1..], name)
  }

  /** `set(name, value)`: if a pair named `name` exists, the first one takes the new value
      and the others are removed; otherwise the pair is appended. */
  function Set(ps: Params, name: string, value: string): (r: Params)
  {
    if ps == [] then [(name, value)]
    else if ps[0].0 == name then [(name, value)] + RemoveAll(ps[1..], name)
    else [ps[0]] + Set(ps[1..], name, value)
  }

  /** The number of pairs named `name`. */
  function Count(ps: Params, name: string): nat {
    if ps == [] then 0 else (if ps[0].0 == name then 1 else 0) + Count(ps[1..], name)
  }

  lemma {:induction false} RemoveAllCount(ps: Params, name: string)
    ensures Count(RemoveAll(ps, name), name) == 0
  {
    if ps != [] {
      RemoveAllCount(ps[1..], name);
      var head := if ps[0].0 == name then [] else [ps[0]];
      assert RemoveAll(ps, name) == head + RemoveAll(ps[1..], name);
      CountAppend(head, RemoveAll(ps[1..], name), name);
    }
  }

  lemma {:induction false} CountAppend(a: Params, b: Params, name: string)
    ensures Count(a + b, name) == Count(a, name) + Count(b, name)
  {
    if a == [] {
      assert a + b == b;
    } else {
      assert (a + b)[1..] == a[1..] + b;
      CountAppend(a[1..], b, name);
    }
  }

  /** After `set(name, value)`, `get(name)` returns `value`. */
  lemma {:induction false} GetSetSame(ps: Params, name: string, value: string)
    ensures Get(Set(ps, name, value), name) == Some(value)
  {
    if ps != [] && ps[0].0 != name {
      GetSetSame(ps[1..], name, value);
    }
  }

  /** `set(name, value)` does not change what `get` returns for any other name. */
  lemma {:induction false} GetSetOther(ps: Params, name: string, value: string, other: string)
    requires other != name
    ensures Get(Set(ps, name, value), other) == Get(ps, other)
  {
    if ps == [] {
    } else if ps[0].0 == name {
      GetRemoveAll(ps[1..], name, other);
    } else {
      GetSetOther(ps[1..], name, value, other);
    }
  }

  lemma {:induction false} GetRemoveAll(ps: Params, name: string, other: string)
    requires other != name
    ensures Get(RemoveAll(ps, name), other) == Get(ps, other)
  {
    if ps != [] {
      GetRemoveAll(ps[1..], name, other);
      if ps[0].0 == name {
        assert RemoveAll(ps, name) == RemoveAll(ps[1..], name);
      } else {
        assert RemoveAll(ps, name) == [ps[0]] + RemoveAll(ps[1..], name);
      }
    }
  }

  /** After `set(name, value)` exactly one pair is named `name`, and the pairs with
      other names are those of before, in their order. */
  lemma {:induction false} SetShape(ps: Params, name: string, value: string)
    ensures Count(Set(ps, name, value), name) == 1
    ensures RemoveAll(Set(ps, name, value), name) == RemoveAll(ps, name)
  {
    if ps == [] {
    } else if ps[0].0 == name {
      var rest := RemoveAll(ps[1..], name);
      RemoveAllCount(ps[1..], name);
      CountAppend([(name, value)], rest, name);
      RemoveAllIdempotent(ps[1..], name);
      assert Set(ps, name, value)[1..] == rest;
    } else {
      SetShape(ps[1..], name, value);
      CountAppend([ps[0]], Set(ps[1..], name, value), name);
      assert Set(ps, name, value)[1..] == Set(ps[1..], name, value);
    }
  }

  /** When the first pair named `name` sits at position `i`, `set` puts the new value at
      that position, keeps the pairs before it, and drops the later pairs with that name. */
  lemma {:induction false} SetReplacesFirst(ps: Params, name: string, value: string, i: nat)
    requires i < |ps| && ps[i].0 == name
    requires forall j :: 0 <= j < i ==> ps[j].0 != name
    ensures Set(ps, name, value) == ps[..i] + [(name, value)] + RemoveAll(ps[i + 1..], name)
  {
    if i > 0 {
      SetReplacesFirst(ps[1..], name, value, i - 1);
      assert ps[1..][..i - 1] == ps[1..i];
      assert ps[1..][i - 1 + 1..] == ps[i + 1..];
      assert ps[..i] == [ps[0]] + ps[1..i];
    }
  }

  lemma {:induction false} RemoveAllIdempotent(ps: Params, name: string)
    ensures RemoveAll(RemoveAll(ps, name), name) == RemoveAll(ps, name)
  {
    if ps != [] {
      RemoveAllIdempotent(ps[1..], name);
      var r := RemoveAll(ps, name);
      if ps[0].0 == name {
        assert r == RemoveAll(ps[1..], name);
      } else {
        assert r == [ps[0]] + RemoveAll(ps[1..], name);
        assert r[1..] == RemoveAll(ps[1..], name);
      }
    }
  }

  /** When no pair is named `name`, `set` appends the pair at the end. */
  lemma {:induction false} SetAppends(ps: Params, name: string, value: string)
    requires Get(ps, name) == None
    ensures Set(ps, name, value) == ps + [(name, value)]
  {
    if ps != [] {
      assert ps[0].0 != name;
      SetAppends(ps[1..], name, value);
      assert [ps[0]] + (ps[1..] + [(name, value)]) == ps + [(name, value)];
    }
  }
}
