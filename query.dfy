/**
 * A query string as `URLSearchParams` holds it: an ordered list of
 * (name, value) pairs. Percent-encoding on serialisation is not modelled.
 */
module Query {

  type Pair = (string, string)

  /** The values stored under `name`, in order (`getAll(name)`). */
  function ValuesOf(pairs: seq<Pair>, name: string): seq<string>
  {
    if pairs == [] then []
    else (if pairs[0].0 == name then [pairs[0].1] else []) + ValuesOf(pairs[1..], name)
  }

  predicate HasName(pairs: seq<Pair>, name: string)
  {
    exists i :: 0 <= i < |pairs| && pairs[i].0 == name
  }

  /** The pairs whose name is not `name`, in order. */
  function Without(pairs: seq<Pair>, name: string): (r: seq<Pair>)
    ensures forall i :: 0 <= i < |r| ==> r[i].0 != name
  {
    if pairs == [] then []
    else if pairs[0].0 == name then Without(pairs[1..], name)
    else [pairs[0]] + Without(pairs[1..], name)
  }

  /** The first pair named `name` gets `value`; later pairs with that name go. */
  function ReplaceFirst(pairs: seq<Pair>, name: string, value: string): seq<Pair>
  {
    if pairs == [] then []
    else if pairs[0].0 == name then [(name, value)] + Without(pairs[1..], name)
    else [pairs[0]] + ReplaceFirst(pairs[1..], name, value)
  }

  /**
   * `params.set(name, value)` (WHATWG URL Standard, section 6.2): replace the
   * first pair with that name and drop the others, or append a new pair.
   */
  function SetValue(pairs: seq<Pair>, name: string, value: string): seq<Pair>
  {
    if HasName(pairs, name) then ReplaceFirst(pairs, name, value) else pairs + [(name, value)]
  }

  lemma {:induction false} ValuesOfAppend(a: seq<Pair>, b: seq<Pair>, name: string)
    ensures ValuesOf(a + b, name) == ValuesOf(a, name) + ValuesOf(b, name)
  {
    if a != [] {
      assert (a + b)[1..] == a[1..] + b;
      ValuesOfAppend(a[1..], b, name);
    } else {
      assert a + b == b;
    }
  }

  lemma {:induction false} ValuesOfWithout(pairs: seq<Pair>, name: string, other: string)
    ensures ValuesOf(Without(pairs, name), other) == if other == name then [] else ValuesOf(pairs, other)
  {
    if pairs != [] {
      ValuesOfWithout(pairs[1..], name, other);
      if pairs[0].0 != name {
        assert ([pairs[0]] + Without(pairs[1..], name))[1..] == Without(pairs[1..], name);
      }
    }
  }

  lemma {:induction false} NoNameNoValues(pairs: seq<Pair>, name: string)
    requires !HasName(pairs, name)
    ensures ValuesOf(pairs, name) == []
    ensures Without(pairs, name) == pairs
  {
    if pairs != [] {
      assert !HasName(pairs[1..], name) by {
        forall i | 0 <= i < |pairs[1..]| ensures pairs[1..][i].0 != name {
          assert pairs[1..][i] == pairs[i + 1];
        }
      }
      NoNameNoValues(pairs[1..], name);
      assert [pairs[0]] + pairs[1..] == pairs;
    }
  }

  lemma {:induction false} ReplaceFirstFacts(pairs: seq<Pair>, name: string, value: string, other: string)
    requires HasName(pairs, name)
    ensures ValuesOf(ReplaceFirst(pairs, name, value), other)
         == if other == name then [value] else ValuesOf(pairs, other)
    ensures Without(ReplaceFirst(pairs, name, value), name) == Without(pairs, name)
  {
    var r := ReplaceFirst(pairs, name, value);
    if pairs[0].0 == name {
      var w := Without(pairs[1..], name);
      assert r == [(name, value)] + w;
      assert r[1..] == w;
      ValuesOfWithout(pairs[1..], name, other);
      NoNameNoValues(w, name);
    } else {
      assert HasName(pairs[1..], name) by {
        var i :| 0 <= i < |pairs| && pairs[i].0 == name;
        assert pairs[1..][i - 1] == pairs[i];
      }
      ReplaceFirstFacts(pairs[1..], name, value, other);
      assert r[1..] == ReplaceFirst(pairs[1..], name, value);
      assert ([pairs[0]] + Without(ReplaceFirst(pairs[1..], name, value), name))[1..]
          == Without(ReplaceFirst(pairs[1..], name, value), name);
    }
  }

  /**
   * After `set(name, value)` the query holds exactly one value under `name`,
   * and every other name keeps its values in order.
   */
  lemma SetValueValues(pairs: seq<Pair>, name: string, value: string, other: string)
    ensures ValuesOf(SetValue(pairs, name, value), other)
         == if other == name then [value] else ValuesOf(pairs, other)
  {
    if HasName(pairs, name) {
      ReplaceFirstFacts(pairs, name, value, other);
    } else {
      ValuesOfAppend(pairs, [(name, value)], other);
      NoNameNoValues(pairs, name);
    }
  }

  /** `set(name, …)` leaves the other pairs, and their order, as they were. */
  lemma SetValueKeepsOthers(pairs: seq<Pair>, name: string, value: string)
    ensures Without(SetValue(pairs, name, value), name) == Without(pairs, name)
  {
    if HasName(pairs, name) {
      ReplaceFirstFacts(pairs, name, value, name);
    } else {
      WithoutAppend(pairs, [(name, value)], name);
    }
  }

  lemma {:induction false} WithoutAppend(a: seq<Pair>, b: seq<Pair>, name: string)
    ensures Without(a + b, name) == Without(a, name) + Without(b, name)
  {
    if a == [] {
      assert a + b == b;
    } else {
      assert (a + b)[1..] == a[1..] + b;
      WithoutAppend(a[1..], b, name);
    }
  }

  lemma {:induction false} ReplaceFirstAfter(pairs: seq<Pair>, i: nat, name: string, value: string)
    requires i <= |pairs|
    requires forall j :: 0 <= j < i ==> pairs[j].0 != name
    ensures ReplaceFirst(pairs, name, value) == pairs[..i] + ReplaceFirst(pairs[i..], name, value)
  {
    if i > 0 {
      ReplaceFirstAfter(pairs[1..], i - 1, name, value);
      assert pairs[1..][..i - 1] == pairs[1..i];
      assert pairs[1..][i - 1..] == pairs[i..];
      assert pairs[..i] == [pairs[0]] + pairs[1..i];
    }
  }

  /** A mutable `URLSearchParams` object. */
  class SearchParams {
    var pairs: seq<Pair>

    /** `new URLSearchParams(init)`: a copy of the given pairs. */
    constructor (init: seq<Pair>)
      ensures pairs == init
    {
      pairs := init;
    }

    /** `append(name, value)`: a new pair at the end. */
    method Append(name: string, value: string)
      modifies this
      ensures pairs == old(pairs) + [(name, value)]
    {
      pairs := pairs + [(name, value)];
    }

    /** `set(name, value)`, one pair at a time as the URL Standard describes it. */
    method Set(name: string, value: string)
      modifies this
      ensures pairs == SetValue(old(pairs), name, value)
    {
      var ps := pairs;
      var out: seq<Pair> := [];
      var found := false;
      var i := 0;
      while i < |ps|
        invariant 0 <= i <= |ps|
        invariant found <==> exists j :: 0 <= j < i && ps[j].0 == name
        invariant !found ==> out == ps[..i]
        invariant found ==> out + Without(ps[i..], name) == ReplaceFirst(ps, name, value)
      {
        var p := ps[i];
        assert ps[i..] == [p] + ps[i + 1..];
        if p.0 == name {
          if !found {
            ReplaceFirstAfter(ps, i, name, value);
            out := out + [(name, value)];
            found := true;
          }
        } else {
          if found {
            assert out + Without(ps[i..], name) == (out + [p]) + Without(ps[i + 1..], name);
          } else {
            assert ps[..i + 1] == ps[..i] + [p];
          }
          out := out + [p];
        }
        i := i + 1;
      }
      if found {
        assert ps[i..] == [];
        assert HasName(ps, name);
        pairs := out;
      } else {
        assert out == ps;
        assert !HasName(ps, name);
        pairs := ps + [(name, value)];
      }
    }
  }
}
