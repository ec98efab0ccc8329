/** `URLSearchParams` as section 6.2 of the WHATWG URL Standard defines it: an
    ordered list of name-value pairs. `get` answers the first pair with the
    name; `set` overwrites the first such pair and removes the others, or
    appends; `delete` removes every pair with the name. The React pages copy
    the object, edit the copy and serialize it into the address bar. */
module UrlSearchParams {
  import opened Common
  import opened FormUrlEncoded

  /** The value of the first pair called `name`. */
  function Lookup(pairs: Pairs, name: string): (v: Option<string>)
    ensures v.Some? <==> exists i :: 0 <= i < |pairs| && pairs[i].0 == name
    ensures v.Some? ==>
      exists i :: 0 <= i < |pairs| && pairs[i] == (name, v.value) && forall j :: 0 <= j < i ==> pairs[j].0 != name
  {
    if pairs == [] then None
    else if pairs[0].0 == name then Some(pairs[0].1)
    else
      var v := Lookup(pairs[1..], name);
      assert forall i :: 0 < i < |pairs| ==> pairs[i] == pairs[1..][i - 1];
      v
  }

  /** The list with every pair called `name` removed, the rest in order. */
  function Without(pairs: Pairs, name: string): (rest: Pairs)
    ensures |rest| <= |pairs|
    ensures forall i :: 0 <= i < |rest| ==> rest[i].0 != name
  {
    if pairs == [] then []
    else
      var tail := Without(pairs[1..], name);
      if pairs[0].0 == name then tail else [pairs[0]] + tail
  }

  /** `delete` keeps exactly the pairs with other names. */
  lemma {:induction false} WithoutMembers(pairs: Pairs, name: string, p: (string, string))
    ensures p in Without(pairs, name) <==> p in pairs && p.0 != name
  {
    if pairs != [] {
      assert p in pairs <==> p == pairs[0] || p in pairs[1..];
      WithoutMembers(pairs[1..], name, p);
    }
  }

  /** The list `set(name, value)` leaves: the first pair called `name` takes
      the value and the later ones go; with no such pair, one is appended. */
  function SetValue(pairs: Pairs, name: string, value: string): Pairs {
    if pairs == [] then [(name, value)]
    else if pairs[0].0 == name then [(name, value)] + Without(pairs[1..], name)
    else [pairs[0]] + SetValue(pairs[1..], name, value)
  }

  /** After `set`, `get` answers the new value. */
  lemma {:induction false} LookupAfterSet(pairs: Pairs, name: string, value: string)
    ensures Lookup(SetValue(pairs, name, value), name) == Some(value)
  {
    if pairs != [] && pairs[0].0 != name {
      LookupAfterSet(pairs[1..], name, value);
    }
  }

  /** `set` leaves exactly one pair with the name. */
  lemma {:induction false} SetLeavesOnePair(pairs: Pairs, name: string, value: string)
    ensures |Without(SetValue(pairs, name, value), name)| + 1 == |SetValue(pairs, name, value)|
  {
    if pairs != [] {
      if pairs[0].0 == name {
        WithoutIdempotent(pairs[1..], name);
      } else {
        SetLeavesOnePair(pairs[1..], name, value);
      }
    }
  }

  lemma {:induction false} WithoutIdempotent(pairs: Pairs, name: string)
    ensures Without(Without(pairs, name), name) == Without(pairs, name)
  {
    if pairs != [] {
      WithoutIdempotent(pairs[1..], name);
    }
  }

  /** `set` and `delete` leave the pairs with other names as they were, in
      the same order. */
  lemma {:induction false} SetKeepsOthers(pairs: Pairs, name: string, value: string)
    ensures Without(SetValue(pairs, name, value), name) == Without(pairs, name)
  {
    if pairs != [] {
      if pairs[0].0 == name {
        WithoutIdempotent(pairs[1..], name);
      } else {
        SetKeepsOthers(pairs[1..], name, value);
      }
    }
  }

  /** Removing two names commutes, so the pairs with names other than the one
      edited are what they were. */
  lemma {:induction false} WithoutCommutes(pairs: Pairs, a: string, b: string)
    ensures Without(Without(pairs, a), b) == Without(Without(pairs, b), a)
  {
    if pairs != [] {
      WithoutCommutes(pairs[1..], a, b);
    }
  }

  /** `get` of another name sees neither `set` nor `delete`. */
  lemma {:induction false} LookupOtherAfterSet(pairs: Pairs, name: string, value: string, other: string)
    requires other != name
    ensures Lookup(SetValue(pairs, name, value), other) == Lookup(pairs, other)
  {
    if pairs != [] {
      if pairs[0].0 == name {
        LookupOtherAfterWithout(pairs[1..], name, other);
      } else {
        LookupOtherAfterSet(pairs[1..], name, value, other);
      }
    }
  }

  lemma {:induction false} LookupOtherAfterWithout(pairs: Pairs, name: string, other: string)
    requires other != name
    ensures Lookup(Without(pairs, name), other) == Lookup(pairs, other)
  {
    if pairs != [] {
      LookupOtherAfterWithout(pairs[1..], name, other);
    }
  }

  lemma LookupAfterWithout(pairs: Pairs, name: string)
    ensures Lookup(Without(pairs, name), name) == None
  {
  }

  /** One step of `set` and `delete` at the head of the list. */
  lemma Unfold(pairs: Pairs, name: string, value: string)
    requires pairs != []
    ensures SetValue(pairs, name, value) ==
      if pairs[0].0 == name then [(name, value)] + Without(pairs[1..], name)
      else [pairs[0]] + SetValue(pairs[1..], name, value)
    ensures Without(pairs, name) ==
      if pairs[0].0 == name then Without(pairs[1..], name) else [pairs[0]] + Without(pairs[1..], name)
  {
  }

  /** A `URLSearchParams` object and its list. */
  class SearchParams {
    var list: Pairs

    /** `new URLSearchParams(init)` for a record, or for another object
        whose list is `init`: a fresh object holding those entries in order. */
    constructor FromPairs(init: Pairs)
      ensures list == init
    {
      list := init;
    }

    function Get(name: string): Option<string>
      reads this
    {
      Lookup(list, name)
    }

    function ToString(): string
      reads this
    {
      Serialize(list)
    }

    method Append(name: string, value: string)
      modifies this
      ensures list == old(list) + [(name, value)]
    {
      list := list + [(name, value)];
    }

    /** `set(name, value)`, one pass over the list. */
    method Set(name: string, value: string)
      modifies this
      ensures list == SetValue(old(list), name, value)
    {
      var xs := list;
      var out: Pairs := [];
      var found := false;
      var i := 0;
      assert xs[i..] == list;
      while i < |xs|
        invariant 0 <= i <= |xs|
        invariant found ==> out + Without(xs[i..], name) == SetValue(xs, name, value)
        invariant !found ==> out + SetValue(xs[i..], name, value) == SetValue(xs, name, value)
      {
        Unfold(xs[i..], name, value);
        assert xs[i..][1..] == xs[i + 1..];
        if xs[i].0 == name {
          if !found {
            out := out + [(name, value)];
            found := true;
          }
        } else {
          out := out + [xs[i]];
        }
        i := i + 1;
      }
      assert xs[i..] == [];
      if !found {
        out := out + [(name, value)];
      }
      list := out;
    }

    /** `delete(name)`, one pass over the list. */
    method Delete(name: string)
      modifies this
      ensures list == Without(old(list), name)
    {
      var xs := list;
      var out: Pairs := [];
      var i := 0;
      assert xs[i..] == list;
      while i < |xs|
        invariant 0 <= i <= |xs|
        invariant out + Without(xs[i..], name) == Without(xs, name)
      {
        Unfold(xs[i..], name, "");
        assert xs[i..][1..] == xs[i + 1..];
        if xs[i].0 != name {
          out := out + [xs[i]];
        }
        i := i + 1;
      }
      assert xs[i..] == [];
      list := out;
    }
  }
}
