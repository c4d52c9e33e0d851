/** The order of `job_fetch_idx` within one queue: priority DESC, created_on, id. */
module Ordering {
  import opened Base
  import opened Jobs

  datatype Key = Key(priority: int, createdOn: Time, id: Id)

  function KeyOf(j: Job): Key {
    Key(j.priority, j.createdOn, j.id)
  }

  predicate Before(a: Key, b: Key) {
    || a.priority > b.priority
    || (a.priority == b.priority && a.createdOn < b.createdOn)
    || (a.priority == b.priority && a.createdOn == b.createdOn && a.id < b.id)
  }

  ghost predicate Sorted(keys: seq<Key>) {
    forall i, j | 0 <= i < j < |keys| :: Before(keys[i], keys[j])
  }

  ghost function Elems(keys: seq<Key>): set<Key> {
    set k | k in keys
  }

  ghost predicate IsFirst(k: Key, keys: set<Key>) {
    k in keys && forall other | other in keys :: other == k || Before(k, other)
  }

  lemma {:induction false} FirstExists(keys: set<Key>)
    requires keys != {}
    ensures exists k :: IsFirst(k, keys)
    decreases |keys|
  {
    var k :| k in keys;
    if keys != {k} {
      FirstExists(keys - {k});
      var f :| IsFirst(f, keys - {k});
      var first := if Before(k, f) then k else f;
      forall other | other in keys ensures other == first || Before(first, other) {
        assert other == k || other in keys - {k};
      }
      assert IsFirst(first, keys);
    } else {
      assert IsFirst(k, keys);
    }
  }

  /** A set of keys, in index order. */
  ghost function Ranked(keys: set<Key>): seq<Key>
    decreases |keys|
  {
    if keys == {} then []
    else
      FirstExists(keys);
      var k :| IsFirst(k, keys);
      [k] + Ranked(keys - {k})
  }

  lemma {:induction false} RankedSorts(keys: set<Key>)
    ensures Sorted(Ranked(keys)) && Elems(Ranked(keys)) == keys && |Ranked(keys)| == |keys|
    decreases |keys|
  {
    if keys != {} {
      FirstExists(keys);
      var k :| IsFirst(k, keys) && Ranked(keys) == [k] + Ranked(keys - {k});
      RankedSorts(keys - {k});
      var rest := Ranked(keys - {k});
      forall i | 0 <= i < |rest| ensures Before(k, rest[i]) {
        assert rest[i] in Elems(rest);
      }
      assert forall x :: x in Elems([k] + rest) <==> x == k || x in Elems(rest);
    }
  }

  lemma HasElems(a: seq<Key>)
    ensures a == [] <==> Elems(a) == {}
  {
    if a != [] {
      assert a[0] in Elems(a);
    }
  }

  /** A set of keys has one sorted listing. */
  lemma {:induction false} SortedUnique(a: seq<Key>, b: seq<Key>)
    requires Sorted(a) && Sorted(b) && Elems(a) == Elems(b)
    ensures a == b
    decreases |a|
  {
    if a == [] || b == [] {
      HasElems(a);
      HasElems(b);
    } else {
      assert a[0] in Elems(b) && b[0] in Elems(a);
      assert a[0] == b[0];
      forall x ensures x in Elems(a[1..]) <==> x in Elems(b[1..]) {
        TailElems(a, x);
        TailElems(b, x);
      }
      SortedUnique(a[1..], b[1..]);
      assert a == [a[0]] + a[1..] && b == [b[0]] + b[1..];
    }
  }

  lemma TailElems(a: seq<Key>, x: Key)
    requires a != [] && Sorted(a)
    ensures x in Elems(a[1..]) <==> x in Elems(a) && x != a[0]
  {
    if x in Elems(a) && x != a[0] {
      var i :| 0 <= i < |a| && a[i] == x;
      assert a[1..][i - 1] == x;
    }
    if x in Elems(a[1..]) {
      var i :| 0 <= i < |a[1..]| && a[1..][i] == x;
      assert a[i + 1] == x;
    }
  }

  lemma RankedIs(keys: set<Key>, listing: seq<Key>)
    requires Sorted(listing) && Elems(listing) == keys
    ensures Ranked(keys) == listing
  {
    RankedSorts(keys);
    SortedUnique(Ranked(keys), listing);
  }

  lemma PrefixElems(keys: seq<Key>, n: nat)
    requires n <= |keys|
    ensures Elems(keys[..n]) <= Elems(keys)
  {
  }

  /** What is left after the first `n` keys, in order. */
  lemma RankedRest(keys: set<Key>, n: nat)
    requires n <= |Ranked(keys)|
    ensures Ranked(keys - Elems(Ranked(keys)[..n])) == Ranked(keys)[n..]
  {
    RankedSorts(keys);
    var all := Ranked(keys);
    forall x ensures x in Elems(all[n..]) <==> x in keys - Elems(all[..n]) {
      if x in keys {
        assert x in Elems(all);
        var i :| 0 <= i < |all| && all[i] == x;
        if i < n { assert all[..n][i] == x; } else { assert all[n..][i - n] == x; }
      }
    }
    RankedIs(keys - Elems(all[..n]), all[n..]);
  }
}
