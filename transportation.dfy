/**
 * TransportationManager: an ordered list of route names. Adding appends;
 * removing deletes the first occurrence, as Python's `list.remove` does.
 */
module Transportation {

  /** Reference definition: `s` without its first occurrence of `x`; at most one element goes. */
  function RemoveFirst<T(==)>(s: seq<T>, x: T): (r: seq<T>)
    ensures |r| <= |s| <= |r| + 1
  {
    if |s| == 0 then []
    else if s[0] == x then s[1..]
    else [s[0]] + RemoveFirst(s[1..], x)
  }

  /** The position `list.remove` deletes: the first index holding `x`. */
  function FirstIndex<T(==)>(s: seq<T>, x: T): (i: nat)
    requires x in s
    ensures i < |s| && s[i] == x
    ensures forall j :: 0 <= j < i ==> s[j] != x
  {
    if s[0] == x then 0 else 1 + FirstIndex(s[1..], x)
  }

  /** Removing a present element splices out exactly its first occurrence. */
  lemma {:induction false} RemoveFirstSplices<T>(s: seq<T>, x: T)
    requires x in s
    ensures RemoveFirst(s, x) == s[..FirstIndex(s, x)] + s[FirstIndex(s, x) + 1..]
  {
    if s[0] != x {
      RemoveFirstSplices(s[1..], x);
      assert s[1..][..FirstIndex(s[1..], x)] == s[1..FirstIndex(s, x)];
      assert [s[0]] + s[1..FirstIndex(s, x)] == s[..FirstIndex(s, x)];
    }
  }

  /** Removing an absent element changes nothing. */
  lemma {:induction false} RemoveFirstAbsent<T>(s: seq<T>, x: T)
    requires x !in s
    ensures RemoveFirst(s, x) == s
  {
    if |s| > 0 {
      RemoveFirstAbsent(s[1..], x);
    }
  }

  /** Removing a present element takes away one copy of it and nothing else. */
  lemma {:induction false} RemoveFirstOneCopy<T>(s: seq<T>, x: T)
    requires x in s
    ensures multiset(RemoveFirst(s, x)) == multiset(s) - multiset{x}
    ensures |RemoveFirst(s, x)| == |s| - 1
  {
    if s[0] == x {
      assert s == [s[0]] + s[1..];
    } else {
      RemoveFirstOneCopy(s[1..], x);
      assert s == [s[0]] + s[1..];
    }
  }

  /**
   * Appending a route and removing it again restores the list only when the
   * name was absent; otherwise the earlier copy is the one removed.
   */
  lemma {:induction false} AddThenRemove<T>(s: seq<T>, x: T)
    ensures x !in s ==> RemoveFirst(s + [x], x) == s
    ensures x in s ==> RemoveFirst(s + [x], x) == RemoveFirst(s, x) + [x]
  {
    if |s| > 0 {
      AddThenRemove(s[1..], x);
      assert (s + [x])[1..] == s[1..] + [x];
    }
  }

  class TransportationManager {
    var routes: seq<string>

    constructor ()
      ensures routes == []
    {
      routes := [];
    }

    /** Appends the name at the end, even if it is already listed. */
    method AddRoute(routeName: string)
      modifies this
      ensures routes == old(routes) + [routeName]
    {
      routes := routes + [routeName];
    }

    /** Deletes the first occurrence of the name if there is one; reports whether it did. */
    method RemoveRoute(routeName: string) returns (removed: bool)
      modifies this
      ensures removed <==> routeName in old(routes)
      ensures routes == RemoveFirst(old(routes), routeName)
    {
      removed := routeName in routes;
      if removed {
        var i := FirstIndex(routes, routeName);
        RemoveFirstSplices(routes, routeName);
        routes := routes[..i] + routes[i + 1..];
      } else {
        RemoveFirstAbsent(routes, routeName);
      }
    }
  }
}
