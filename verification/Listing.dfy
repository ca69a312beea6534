/** Text order and the `ORDER BY key, id` that every listing of tasks uses. */
module Listing {
  import opened Basics

  /** Text compared character by character, a proper prefix first. */
  predicate TextLess(a: string, b: string) {
    if a == "" then b != ""
    else if b == "" then false
    else a[0] < b[0] || (a[0] == b[0] && TextLess(a[1..], b[1..]))
  }

  lemma {:induction false} TextLessTotal(a: string, b: string)
    ensures a == b || TextLess(a, b) || TextLess(b, a)
    ensures !(TextLess(a, b) && TextLess(b, a)) && !TextLess(a, a)
  {
    if a != "" && b != "" {
      TextLessTotal(a[1..], b[1..]);
      TextLessTotal(a[1..], a[1..]);
      if a[0] == b[0] && a[1..] == b[1..] { assert a == [a[0]] + a[1..] && b == [b[0]] + b[1..]; }
    } else if a != "" {
      TextLessTotal(a[1..], a[1..]);
    }
  }

  lemma {:induction false} TextLessTransitive(a: string, b: string, c: string)
    requires TextLess(a, b) && TextLess(b, c)
    ensures TextLess(a, c)
  {
    if a != "" && a[0] == b[0] && b[0] == c[0] {
      TextLessTransitive(a[1..], b[1..], c[1..]);
    }
  }

  /** The listing order: by key, then by id. */
  predicate Precedes(key: map<Id, int>, a: Id, b: Id)
    requires a in key && b in key
  {
    key[a] < key[b] || (key[a] == key[b] && TextLess(a, b))
  }

  ghost predicate InOrder(key: map<Id, int>, rows: seq<Id>) {
    && (forall x :: x in rows ==> x in key)
    && (forall i, j :: 0 <= i < j < |rows| ==> Precedes(key, rows[i], rows[j]))
  }

  function Place(key: map<Id, int>, x: Id, rows: seq<Id>): (r: seq<Id>)
    requires x in key && forall y :: y in rows ==> y in key
    ensures forall y :: y in r <==> y == x || y in rows
  {
    if rows == [] then [x]
    else if Precedes(key, x, rows[0]) then [x] + rows
    else [rows[0]] + Place(key, x, rows[1..])
  }

  /** `rows` sorted by `key`, then by id. */
  function Sorted(key: map<Id, int>, rows: seq<Id>): (r: seq<Id>)
    requires forall x :: x in rows ==> x in key
    ensures forall x :: x in r <==> x in rows
  {
    if rows == [] then [] else Place(key, rows[0], Sorted(key, rows[1..]))
  }

  lemma PrecedesTransitive(key: map<Id, int>, a: Id, b: Id, c: Id)
    requires a in key && b in key && c in key && Precedes(key, a, b) && Precedes(key, b, c)
    ensures Precedes(key, a, c)
  {
    if key[a] == key[b] == key[c] { TextLessTransitive(a, b, c); }
  }

  lemma {:induction false} PlaceInOrder(key: map<Id, int>, x: Id, rows: seq<Id>)
    requires x in key && x !in rows && InOrder(key, rows)
    ensures InOrder(key, Place(key, x, rows))
  {
    if rows != [] {
      var r := Place(key, x, rows);
      if Precedes(key, x, rows[0]) {
        forall j | 0 < j < |r| ensures Precedes(key, x, r[j]) {
          if j > 1 { PrecedesTransitive(key, x, rows[0], rows[j - 1]); }
        }
        forall i, j | 0 <= i < j < |r| ensures Precedes(key, r[i], r[j]) {
          if i > 0 { assert r[i] == rows[i - 1] && r[j] == rows[j - 1]; }
        }
      } else {
        TextLessTotal(x, rows[0]);
        PlaceInOrder(key, x, rows[1..]);
        var below := Place(key, x, rows[1..]);
        forall j | 0 < j < |r| ensures Precedes(key, rows[0], r[j]) {
          assert r[j] == below[j - 1] && r[j] in below;
          if r[j] != x {
            var k :| 0 <= k < |rows[1..]| && rows[1..][k] == r[j];
            assert rows[k + 1] == r[j];
          }
        }
        forall i, j | 0 <= i < j < |r| ensures Precedes(key, r[i], r[j]) {
          if i > 0 { assert r[i] == below[i - 1] && r[j] == below[j - 1]; }
        }
      }
    }
  }

  /** Sorting a listing without duplicates puts it in strict order, so again without duplicates. */
  lemma {:induction false} SortedInOrder(key: map<Id, int>, rows: seq<Id>)
    requires NoDuplicates(rows) && forall x :: x in rows ==> x in key
    ensures InOrder(key, Sorted(key, rows)) && NoDuplicates(Sorted(key, rows))
  {
    if rows != [] {
      SortedInOrder(key, rows[1..]);
      assert rows[0] !in rows[1..];
      PlaceInOrder(key, rows[0], Sorted(key, rows[1..]));
    }
    var r := Sorted(key, rows);
    forall i, j | 0 <= i < j < |r| ensures r[i] != r[j] { TextLessTotal(r[i], r[i]); }
  }
}
