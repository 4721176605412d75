/**
 * URL query parameters as an ordered list of name/value pairs, with the
 * `get`, `set` and `delete` operations of `URLSearchParams` (section 6.2 of
 * the WHATWG URL Standard), and the navigation targets built from them.
 */
module UrlParams {
  import opened Wrappers
  import opened Seqs

  type Pair = (string, string)

  /** A navigation: a path and its query, pushed as a new history entry or replacing the current one. */
  datatype HistoryMode = Push | Replace
  datatype Location = Location(path: string, query: seq<Pair>, mode: HistoryMode)

  predicate HasName(list: seq<Pair>, name: string) {
    exists i :: 0 <= i < |list| && list[i].0 == name
  }

  /** `get(name)`: the value of the first pair with that name. */
  function FirstValue(list: seq<Pair>, name: string): (r: Option<string>)
    ensures r.None? <==> !HasName(list, name)
    ensures r.Some? ==> exists i :: 0 <= i < |list| && list[i] == (name, r.value)
                                    && forall j :: 0 <= j < i ==> list[j].0 != name
  {
    if list == [] then None
    else if list[0].0 == name then Some(list[0].1)
    else
      var r := FirstValue(list[1..], name);
      assert HasName(list[1..], name) ==> HasName(list, name) by {
        if HasName(list[1..], name) {
          var i :| 0 <= i < |list[1..]| && list[1..][i].0 == name;
          assert list[i + 1].0 == name;
        }
      }
      assert HasName(list, name) ==> HasName(list[1..], name) by {
        if HasName(list, name) {
          var i :| 0 <= i < |list| && list[i].0 == name;
          assert list[1..][i - 1].0 == name;
        }
      }
      assert r.Some? ==> exists i :: 0 <= i < |list| && list[i] == (name, r.value)
                                    && forall j :: 0 <= j < i ==> list[j].0 != name by {
        if r.Some? {
          var i :| 0 <= i < |list[1..]| && list[1..][i] == (name, r.value)
                   && forall j :: 0 <= j < i ==> list[1..][j].0 != name;
          assert list[i + 1] == (name, r.value);
          assert forall j :: 1 <= j < i + 1 ==> list[j].0 == list[1..][j - 1].0;
        }
      }
      r
  }

  /** `delete(name)`: every pair with that name removed, the rest kept in order. */
  function Removed(list: seq<Pair>, name: string): (r: seq<Pair>)
    ensures IsSubsequence(r, list)
    ensures forall i :: 0 <= i < |r| ==> r[i].0 != name
    ensures forall p :: p in list && p.0 != name ==> p in r
  {
    if list == [] then []
    else if list[0].0 == name then Removed(list[1..], name)
    else
      var rest := Removed(list[1..], name);
      assert ([list[0]] + rest)[1..] == rest;
      [list[0]] + rest
  }

  /** `delete` keeps every pair of another name as many times as it occurs. */
  lemma {:induction false} RemovedKeepsCounts(list: seq<Pair>, name: string)
    ensures forall p: Pair :: p.0 != name ==> multiset(Removed(list, name))[p] == multiset(list)[p]
  {
    if list != [] {
      RemovedKeepsCounts(list[1..], name);
      assert list == [list[0]] + list[1..];
      assert multiset(list) == multiset([list[0]]) + multiset(list[1..]);
      if list[0].0 != name {
        assert Removed(list, name) == [list[0]] + Removed(list[1..], name);
        assert multiset(Removed(list, name)) == multiset([list[0]]) + multiset(Removed(list[1..], name));
      }
    }
  }

  /** The position of the first pair with that name. */
  function FirstIndex(list: seq<Pair>, name: string): (i: nat)
    requires HasName(list, name)
    ensures i < |list| && list[i].0 == name
    ensures forall j :: 0 <= j < i ==> list[j].0 != name
  {
    if list[0].0 == name then 0
    else
      assert HasName(list[1..], name) by {
        var i :| 0 <= i < |list| && list[i].0 == name;
        assert list[1..][i - 1].0 == name;
      }
      1 + FirstIndex(list[1..], name)
  }

  /** The first pair with the name gets the value and later ones are dropped. */
  function ReplaceFirst(list: seq<Pair>, name: string, value: string): (r: seq<Pair>)
    requires HasName(list, name)
  {
    if list[0].0 == name then [(name, value)] + Removed(list[1..], name)
    else
      assert HasName(list[1..], name) by {
        var i :| 0 <= i < |list| && list[i].0 == name;
        assert list[1..][i - 1].0 == name;
      }
      [list[0]] + ReplaceFirst(list[1..], name, value)
  }

  /** `set(name, value)`: replace the first pair with that name and remove the others, or append. */
  function Replaced(list: seq<Pair>, name: string, value: string): seq<Pair> {
    if HasName(list, name) then ReplaceFirst(list, name, value) else list + [(name, value)]
  }

  /** `delete` does not affect any other name. */
  lemma {:induction false} RemovedKeepsOthers(list: seq<Pair>, name: string, other: string)
    requires other != name
    ensures FirstValue(Removed(list, name), other) == FirstValue(list, other)
  {
    if list != [] {
      RemovedKeepsOthers(list[1..], name, other);
    }
  }

  /** Deleting twice is deleting once. */
  lemma {:induction false} RemovedIdempotent(list: seq<Pair>, name: string)
    ensures Removed(Removed(list, name), name) == Removed(list, name)
  {
    if list != [] {
      RemovedIdempotent(list[1..], name);
    }
  }

  /** Appending a pair does not change what `get` finds for a name that was already there. */
  lemma {:induction false} FirstValueAppend(list: seq<Pair>, p: Pair, name: string)
    ensures FirstValue(list + [p], name) == if HasName(list, name) then FirstValue(list, name)
                                           else if p.0 == name then Some(p.1) else None
  {
    if list == [] {
      assert list + [p] == [p];
    } else {
      assert (list + [p])[1..] == list[1..] + [p];
      FirstValueAppend(list[1..], p, name);
    }
  }

  /**
   * The law of `set`: afterwards `get(name)` is the new value, there is exactly
   * one pair with that name, every other name reads as before, and the pairs of
   * other names are the same pairs in the same order.
   */
  lemma {:induction false} ReplacedLaw(list: seq<Pair>, name: string, value: string)
    ensures FirstValue(Replaced(list, name, value), name) == Some(value)
    ensures forall other :: other != name ==> FirstValue(Replaced(list, name, value), other) == FirstValue(list, other)
    ensures Removed(Replaced(list, name, value), name) == Removed(list, name)
    ensures |Replaced(list, name, value)| == |Removed(list, name)| + 1
    ensures !HasName(list, name) ==> Replaced(list, name, value) == list + [(name, value)]
    ensures HasName(list, name) ==>
      Replaced(list, name, value)
      == list[..FirstIndex(list, name)] + [(name, value)] + Removed(list[FirstIndex(list, name) + 1..], name)
  {
    if HasName(list, name) {
      ReplaceFirstLaw(list, name, value);
    } else {
      forall other | other != name
        ensures FirstValue(list + [(name, value)], other) == FirstValue(list, other)
      {
        FirstValueAppend(list, (name, value), other);
      }
      FirstValueAppend(list, (name, value), name);
      RemovedConcat(list, [(name, value)], name);
      RemovedAbsent(list, name);
    }
  }

  lemma {:induction false} ReplaceFirstLaw(list: seq<Pair>, name: string, value: string)
    requires HasName(list, name)
    ensures FirstValue(ReplaceFirst(list, name, value), name) == Some(value)
    ensures forall other :: other != name ==> FirstValue(ReplaceFirst(list, name, value), other) == FirstValue(list, other)
    ensures Removed(ReplaceFirst(list, name, value), name) == Removed(list, name)
    ensures |ReplaceFirst(list, name, value)| == |Removed(list, name)| + 1
    ensures ReplaceFirst(list, name, value)
            == list[..FirstIndex(list, name)] + [(name, value)] + Removed(list[FirstIndex(list, name) + 1..], name)
  {
    ReplaceFirstPosition(list, name, value);
    var r := ReplaceFirst(list, name, value);
    if list[0].0 == name {
      assert r[1..] == Removed(list[1..], name);
      RemovedIdempotent(list[1..], name);
      forall other | other != name ensures FirstValue(r, other) == FirstValue(list, other) {
        RemovedKeepsOthers(list[1..], name, other);
      }
    } else {
      assert HasName(list[1..], name) by {
        var i :| 0 <= i < |list| && list[i].0 == name;
        assert list[1..][i - 1].0 == name;
      }
      ReplaceFirstLaw(list[1..], name, value);
      assert r[1..] == ReplaceFirst(list[1..], name, value);
    }
  }

  /** Where `set` puts the pair: at the first pair with the name, with later pairs of the name dropped. */
  lemma {:induction false} ReplaceFirstPosition(list: seq<Pair>, name: string, value: string)
    requires HasName(list, name)
    ensures ReplaceFirst(list, name, value)
            == list[..FirstIndex(list, name)] + [(name, value)] + Removed(list[FirstIndex(list, name) + 1..], name)
  {
    if list[0].0 == name {
      assert list[..0] + [(name, value)] == [(name, value)];
    } else {
      assert HasName(list[1..], name) by {
        var i :| 0 <= i < |list| && list[i].0 == name;
        assert list[1..][i - 1].0 == name;
      }
      ReplaceFirstPosition(list[1..], name, value);
      var i := FirstIndex(list[1..], name);
      assert FirstIndex(list, name) == i + 1;
      ConsSplit(list, list[0], i, (name, value), Removed(list[1..][i + 1..], name));
    }
  }

  /** Putting a pair in front of a split of `list[1..]` splits `list` one position later. */
  lemma ConsSplit(list: seq<Pair>, x: Pair, i: nat, p: Pair, tail: seq<Pair>)
    requires list != [] && x == list[0] && i < |list| - 1
    ensures [x] + (list[1..][..i] + [p] + tail) == list[..i + 1] + [p] + tail
    ensures list[1..][i + 1..] == list[i + 2..]
  {
    assert list[..i + 1] == [x] + list[1..][..i];
  }

  /** `delete` distributes over concatenation. */
  lemma {:induction false} RemovedConcat(a: seq<Pair>, b: seq<Pair>, name: string)
    ensures Removed(a + b, name) == Removed(a, name) + Removed(b, name)
  {
    if a == [] {
      assert a + b == b;
    } else {
      assert (a + b)[1..] == a[1..] + b;
      RemovedConcat(a[1..], b, name);
    }
  }

  /** Deleting a name that is not there changes nothing. */
  lemma {:induction false} RemovedAbsent(list: seq<Pair>, name: string)
    requires !HasName(list, name)
    ensures Removed(list, name) == list
  {
    if list != [] {
      RemovedAbsent(list[1..], name);
    }
  }

  /** A mutable copy of a query, as `new URLSearchParams(current)` makes it. */
  class SearchParams {
    var list: seq<Pair>

    constructor (init: seq<Pair>)
      ensures list == init
    {
      list := init;
    }

    method Set(name: string, value: string)
      modifies this
      ensures list == Replaced(old(list), name, value)
    {
      list := Replaced(list, name, value);
    }

    method Delete(name: string)
      modifies this
      ensures list == Removed(old(list), name)
    {
      list := Removed(list, name);
    }
  }
}
