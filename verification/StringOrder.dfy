/** Strings in code point order, and the one sorted listing a finite set of strings has. */
module StringOrder {

  predicate Less(a: string, b: string) {
    if b == "" then false
    else if a == "" then true
    else a[0] < b[0] || (a[0] == b[0] && Less(a[1..], b[1..]))
  }

  /** b goes on where a ends, or the first character in which they differ is smaller in a. */
  ghost predicate ComesBefore(a: string, b: string) {
    (a <= b && |a| < |b|) || exists k: nat :: k < |a| && k < |b| && a[..k] == b[..k] && a[k] < b[k]
  }

  lemma {:induction false} PrefixComesFirst(a: string, b: string)
    requires a <= b && |a| < |b|
    ensures Less(a, b)
  {
    if a != "" {
      PrefixComesFirst(a[1..], b[1..]);
    }
  }

  lemma {:induction false} DifferenceDecides(a: string, b: string, k: nat)
    requires k < |a| && k < |b| && a[..k] == b[..k] && a[k] < b[k]
    ensures Less(a, b)
  {
    if k > 0 {
      assert a[0] == a[..k][0] && b[0] == b[..k][0];
      assert a[1..][..k - 1] == a[..k][1..] && b[1..][..k - 1] == b[..k][1..];
      DifferenceDecides(a[1..], b[1..], k - 1);
    }
  }

  lemma {:induction false} LessComesBefore(a: string, b: string)
    requires Less(a, b)
    ensures ComesBefore(a, b)
  {
    if a != "" {
      if a[0] < b[0] {
        assert a[..0] == b[..0];
      } else {
        LessComesBefore(a[1..], b[1..]);
        assert a == [a[0]] + a[1..] && b == [b[0]] + b[1..];
        if !(a[1..] <= b[1..] && |a| < |b|) {
          var k: nat :| k < |a[1..]| && k < |b[1..]| && a[1..][..k] == b[1..][..k] && a[1..][k] < b[1..][k];
          assert a[..k + 1] == [a[0]] + a[1..][..k] && b[..k + 1] == [b[0]] + b[1..][..k];
        }
      }
    }
  }

  /** The order is by code points, and a proper prefix comes first. */
  lemma LessIsCodePointOrder(a: string, b: string)
    ensures Less(a, b) <==> ComesBefore(a, b)
  {
    if Less(a, b) {
      LessComesBefore(a, b);
    } else if ComesBefore(a, b) {
      if a <= b && |a| < |b| {
        PrefixComesFirst(a, b);
      } else {
        var k: nat :| k < |a| && k < |b| && a[..k] == b[..k] && a[k] < b[k];
        DifferenceDecides(a, b, k);
      }
    }
  }

  lemma {:induction false} LessTrans(a: string, b: string, c: string)
    requires Less(a, b) && Less(b, c)
    ensures Less(a, c)
  {
    if a != "" && a[0] == b[0] == c[0] {
      LessTrans(a[1..], b[1..], c[1..]);
    }
  }

  lemma {:induction false} LessTotal(a: string, b: string)
    ensures !(Less(a, b) && Less(b, a))
    ensures a == b <==> !Less(a, b) && !Less(b, a)
  {
    if a != "" && b != "" && a[0] == b[0] {
      LessTotal(a[1..], b[1..]);
      assert a == [a[0]] + a[1..] && b == [b[0]] + b[1..];
    }
  }

  ghost predicate Sorted(s: seq<string>) {
    forall i, j :: 0 <= i < j < |s| ==> Less(s[i], s[j])
  }

  predicate IsLeast(s: set<string>, x: string) {
    x in s && forall y :: y in s && y != x ==> Less(x, y)
  }

  lemma {:induction false} LeastExists(s: set<string>) returns (m: string)
    requires s != {}
    ensures IsLeast(s, m)
  {
    var z :| z in s;
    var rest := s - {z};
    if rest == {} {
      m := z;
      assert forall y :: y in s ==> y == z || y in rest;
    } else {
      var x := LeastExists(rest);
      LessTotal(x, z);
      m := if Less(x, z) then x else z;
      forall y | y in s && y != m ensures Less(m, y) {
        assert y == z || y in rest;
        if m == z && y != x { LessTrans(z, x, y); }
      }
    }
  }

  lemma LeastUnique(s: set<string>, x: string, y: string)
    requires IsLeast(s, x) && IsLeast(s, y)
    ensures x == y
  {
    LessTotal(x, y);
  }

  /** The elements of a set in increasing order. */
  function Listing(s: set<string>): (r: seq<string>)
    ensures Sorted(r)
    ensures forall x :: x in r <==> x in s
  {
    if s == {} then []
    else
      assert exists x :: IsLeast(s, x) by { var m := LeastExists(s); }
      assert forall x, y :: IsLeast(s, x) && IsLeast(s, y) ==> x == y by {
        forall x, y | IsLeast(s, x) && IsLeast(s, y) ensures x == y { LeastUnique(s, x, y); }
      }
      var x :| x in s && IsLeast(s, x);
      [x] + Listing(s - {x})
  }

  lemma BothEmpty(a: seq<string>, b: seq<string>)
    requires forall x :: x in a <==> x in b
    ensures a == [] <==> b == []
  {
    assert a != [] ==> a[0] in b;
    assert b != [] ==> b[0] in a;
  }

  /** There is only one sorted listing, so how the keys were gathered does not matter. */
  lemma {:induction false} ListingUnique(a: seq<string>, b: seq<string>)
    requires Sorted(a) && Sorted(b)
    requires forall x :: x in a <==> x in b
    ensures a == b
  {
    BothEmpty(a, b);
    if a != [] {
      assert a[0] in b && b[0] in a;
      LessTotal(a[0], b[0]);
      assert a[0] == b[0];
      forall x ensures x in a[1..] <==> x in b[1..] {
        LessTotal(a[0], a[0]);
        assert x in a <==> x == a[0] || x in a[1..];
        assert x in b <==> x == b[0] || x in b[1..];
      }
      ListingUnique(a[1..], b[1..]);
      assert a == [a[0]] + a[1..] && b == [b[0]] + b[1..];
    }
  }

  /** A key put where everything before it is smaller and the key there is not. */
  lemma InsertedSorted(s: seq<string>, i: nat, x: string)
    requires Sorted(s) && x !in s && i <= |s|
    requires (forall j :: 0 <= j < i ==> Less(s[j], x)) && (i < |s| ==> !Less(s[i], x))
    ensures Sorted(s[..i] + [x] + s[i..])
    ensures forall y :: y in s[..i] + [x] + s[i..] <==> y == x || y in s
  {
    hide Less;
    forall j | i <= j < |s| ensures Less(x, s[j]) {
      LessTotal(s[i], x);
      if i < j { LessTrans(x, s[i], s[j]); }
    }
    assert s == s[..i] + s[i..];
    assert forall y :: y in s <==> y in s[..i] || y in s[i..];
  }

  /** Insertion of one key into a sorted list. */
  method Insert(s: seq<string>, x: string) returns (r: seq<string>)
    requires Sorted(s) && x !in s
    ensures Sorted(r)
    ensures forall y :: y in r <==> y == x || y in s
  {
    var i := 0;
    while i < |s| && Less(s[i], x)
      invariant 0 <= i <= |s|
      invariant forall j :: 0 <= j < i ==> Less(s[j], x)
    {
      i := i + 1;
    }
    InsertedSorted(s, i, x);
    r := s[..i] + [x] + s[i..];
  }
}
