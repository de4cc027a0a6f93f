/** Byte-wise string order, the order sort.Strings uses, and the sorted listing of a key set. */
module StringOrder {

  predicate Before(a: string, b: string) {
    b != [] && (a == [] || a[0] < b[0] || (a[0] == b[0] && Before(a[1..], b[1..])))
  }

  lemma {:induction false} BeforeIrreflexive(a: string)
    ensures !Before(a, a)
  {
    if a != [] {
      BeforeIrreflexive(a[1..]);
    }
  }

  lemma {:induction false} BeforeTransitive(a: string, b: string, c: string)
    requires Before(a, b) && Before(b, c)
    ensures Before(a, c)
  {
    if a != [] && a[0] == b[0] == c[0] {
      BeforeTransitive(a[1..], b[1..], c[1..]);
    }
  }

  lemma {:induction false} BeforeTotal(a: string, b: string)
    ensures a == b || Before(a, b) || Before(b, a)
  {
    if a != [] && b != [] && a[0] == b[0] {
      BeforeTotal(a[1..], b[1..]);
      assert a == [a[0]] + a[1..] && b == [b[0]] + b[1..];
    }
  }

  ghost predicate StrictlySorted(keys: seq<string>) {
    forall i, j | 0 <= i < j < |keys| :: Before(keys[i], keys[j])
  }

  /** keys lists exactly the elements of s, once each, in order. */
  ghost predicate IsListing(keys: seq<string>, s: set<string>) {
    StrictlySorted(keys) && forall k :: k in keys <==> k in s
  }

  /** A key set has one sorted listing, so map iteration order cannot show through it. */
  lemma {:induction false} ListingUnique(a: seq<string>, b: seq<string>, s: set<string>)
    requires IsListing(a, s) && IsListing(b, s)
    ensures a == b
    decreases |a|
  {
    assert a == [] || a[0] in s;
    assert b == [] || b[0] in s;
    if a != [] {
      var i :| 0 <= i < |a| && a[i] == b[0];
      var j :| 0 <= j < |b| && b[j] == a[0];
      if i > 0 && j > 0 {
        BeforeTransitive(a[0], b[0], a[0]);
        BeforeIrreflexive(a[0]);
        assert false;
      }
      TailListing(a, s);
      TailListing(b, s);
      ListingUnique(a[1..], b[1..], s - {a[0]});
      assert a == [a[0]] + a[1..] && b == [b[0]] + b[1..];
    }
  }

  lemma TailListing(a: seq<string>, s: set<string>)
    requires IsListing(a, s) && a != []
    ensures IsListing(a[1..], s - {a[0]})
  {
    forall k | k in a[1..]
      ensures k in s && k != a[0]
    {
      var i :| 0 <= i < |a[1..]| && a[1..][i] == k;
      assert a[i + 1] == k && Before(a[0], a[i + 1]);
      BeforeIrreflexive(k);
    }
    forall k | k in s - {a[0]}
      ensures k in a[1..]
    {
      var i :| 0 <= i < |a| && a[i] == k;
      assert a[1..][i - 1] == k;
    }
  }

  function Insert(keys: seq<string>, k: string): seq<string> {
    if keys == [] then [k]
    else if Before(k, keys[0]) then [k] + keys
    else [keys[0]] + Insert(keys[1..], k)
  }

  lemma {:induction false} InsertElements(keys: seq<string>, k: string)
    ensures forall x :: x in Insert(keys, k) <==> x == k || x in keys
  {
    if keys != [] && !Before(k, keys[0]) {
      InsertElements(keys[1..], k);
      assert keys == [keys[0]] + keys[1..];
    }
  }

  lemma {:induction false} InsertSorted(keys: seq<string>, k: string)
    requires StrictlySorted(keys) && k !in keys
    ensures StrictlySorted(Insert(keys, k))
  {
    if keys != [] {
      var rest := Insert(keys[1..], k);
      if Before(k, keys[0]) {
        forall i | 0 < i < |keys| ensures Before(k, keys[i]) {
          BeforeTransitive(k, keys[0], keys[i]);
        }
      } else {
        BeforeTotal(k, keys[0]);
        InsertSorted(keys[1..], k);
        InsertElements(keys[1..], k);
        forall i | 0 <= i < |rest| ensures Before(keys[0], rest[i]) {
          assert rest[i] in rest;
        }
      }
    }
  }

  /** Collects the keys in whatever order the map yields them, then orders them. */
  method SortedKeys(s: set<string>) returns (keys: seq<string>)
    ensures IsListing(keys, s)
  {
    keys := [];
    var rest := s;
    while rest != {}
      invariant rest <= s && IsListing(keys, s - rest)
    {
      var k :| k in rest;
      InsertElements(keys, k);
      InsertSorted(keys, k);
      keys := Insert(keys, k);
      rest := rest - {k};
    }
  }

  /** The one sorted listing of s. */
  ghost function Listing(s: set<string>): (keys: seq<string>)
    ensures IsListing(keys, s)
  {
    ListingExists(s);
    var keys :| IsListing(keys, s);
    keys
  }

  lemma {:induction false} ListingExists(s: set<string>)
    ensures exists keys :: IsListing(keys, s)
  {
    if s == {} {
      assert IsListing([], s);
    } else {
      var k :| k in s;
      ListingExists(s - {k});
      var keys :| IsListing(keys, s - {k});
      InsertElements(keys, k);
      InsertSorted(keys, k);
      assert IsListing(Insert(keys, k), s);
    }
  }
}
