/** The order in which a snapshot lists hosts: `snapshot_event_to_json` copies the unordered map
    into a `std::map`, so the text depends on the contents only. */
module HostOrder {

  predicate Less(a: string, b: string) {
    b != [] && (a == [] || a[0] < b[0] || (a[0] == b[0] && Less(a[1..], b[1..])))
  }

  /** The order of `std::string`: at the first place where they differ the smaller has the smaller character, or
      has ended. */
  lemma {:induction false} LessIsLexicographic(a: string, b: string)
    ensures Less(a, b) <==> exists n :: 0 <= n <= |a| && DiffersAt(a, b, n)
  {
    if a != [] && b != [] && a[0] == b[0] {
      LessIsLexicographic(a[1..], b[1..]);
      if n :| 0 <= n <= |a| && DiffersAt(a, b, n) {
        assert n > 0;
        assert a[1..][..n - 1] == a[..n][1..] && b[1..][..n - 1] == b[..n][1..];
        assert DiffersAt(a[1..], b[1..], n - 1);
      }
      if n :| 0 <= n <= |a[1..]| && DiffersAt(a[1..], b[1..], n) {
        assert a[..n + 1] == [a[0]] + a[1..][..n] && b[..n + 1] == [b[0]] + b[1..][..n];
        assert DiffersAt(a, b, n + 1);
      }
    } else {
      assert forall n :: 0 < n <= |a| && DiffersAt(a, b, n) ==> a[0] == a[..n][0] == b[..n][0] == b[0];
      assert Less(a, b) ==> DiffersAt(a, b, 0);
    }
  }

  ghost predicate DiffersAt(a: string, b: string, n: nat) {
    n <= |a| && n < |b| && a[..n] == b[..n] && (n == |a| || a[n] < b[n])
  }

  lemma {:induction false} LessTotal(a: string, b: string)
    ensures a == b || Less(a, b) || Less(b, a)
    ensures !(Less(a, b) && Less(b, a))
    ensures !Less(a, a)
  {
    if a != [] {
      LessTotal(a[1..], if b == [] then a[1..] else b[1..]);
      assert a == [a[0]] + a[1..];
      assert b != [] ==> b == [b[0]] + b[1..];
    }
  }

  lemma {:induction false} LessTransitive(a: string, b: string, c: string)
    requires Less(a, b) && Less(b, c)
    ensures Less(a, c)
  {
    if a != [] && a[0] == b[0] && b[0] == c[0] {
      LessTransitive(a[1..], b[1..], c[1..]);
    }
  }

  ghost predicate Ascending(hs: seq<string>) {
    forall i, j :: 0 <= i < j < |hs| ==> Less(hs[i], hs[j])
  }

  ghost predicate Lists(hs: seq<string>, keys: set<string>) {
    Ascending(hs) && forall h :: h in hs <==> h in keys
  }

  function Insert(hs: seq<string>, h: string): seq<string> {
    if hs == [] || Less(h, hs[0]) then [h] + hs else [hs[0]] + Insert(hs[1..], h)
  }

  lemma {:induction false} InsertAscending(hs: seq<string>, h: string)
    requires Ascending(hs) && h !in hs
    ensures Ascending(Insert(hs, h))
    ensures forall x :: x in Insert(hs, h) <==> x == h || x in hs
  {
    if hs != [] && !Less(h, hs[0]) {
      InsertAscending(hs[1..], h);
      LessTotal(h, hs[0]);
      assert hs == [hs[0]] + hs[1..];
      assert forall x :: x in hs[1..] ==> Less(hs[0], x);
    } else if hs != [] {
      forall j | 0 <= j < |hs|
        ensures Less(h, hs[j])
      {
        if j > 0 {
          LessTransitive(h, hs[0], hs[j]);
        }
      }
    }
  }

  ghost function Ordered(keys: set<string>): (hs: seq<string>)
    ensures Lists(hs, keys)
  {
    if keys == {} then [] else
      var h :| h in keys;
      var rest := Ordered(keys - {h});
      InsertAscending(rest, h);
      Insert(rest, h)
  }

  lemma HeadsAgree(a: seq<string>, b: seq<string>)
    requires Ascending(a) && Ascending(b) && a != [] && (forall h :: h in a <==> h in b)
    ensures b != [] && a[0] == b[0]
  {
    assert a[0] in b;
    assert b[0] in a;
    var k :| 0 <= k < |b| && b[k] == a[0];
    var l :| 0 <= l < |a| && a[l] == b[0];
    LessTotal(a[0], b[0]);
  }

  /** Only one ascending sequence lists a given set of hosts. */
  lemma {:induction false} OrderUnique(a: seq<string>, b: seq<string>)
    requires Ascending(a) && Ascending(b) && (forall h :: h in a <==> h in b)
    ensures a == b
  {
    if a == [] {
      if b != [] {
        HeadsAgree(b, a);
      }
    } else {
      HeadsAgree(a, b);
      LessTotal(a[0], a[0]);
      assert a == [a[0]] + a[1..] && b == [b[0]] + b[1..];
      forall h
        ensures h in a[1..] <==> h in b[1..]
      {
        assert h in a[1..] ==> h in a && h != a[0];
        assert h in b[1..] ==> h in b && h != b[0];
      }
      OrderUnique(a[1..], b[1..]);
    }
  }

  /** Sorting by repeated insertion, in whatever order the map is iterated. */
  method SortHosts(keys: set<string>) returns (hs: seq<string>)
    ensures hs == Ordered(keys)
  {
    hs := [];
    var left := keys;
    while left != {}
      invariant left <= keys && Lists(hs, keys - left)
      decreases left
    {
      var h :| h in left;
      InsertAscending(hs, h);
      hs := Insert(hs, h);
      left := left - {h};
    }
    OrderUnique(hs, Ordered(keys));
  }
}
