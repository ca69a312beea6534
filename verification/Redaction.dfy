/**
 Structural redaction of plain data.  The text rules are regular expressions and
 stay abstract: a `Redactor` is any text function with a secret-key test.
 */
module Redaction {
  import opened Basics

  const REDACTED := "[redacted]"

  datatype Json =
    | Null
    | Flag(value: bool)
    | Number(number: int)
    | Text(text: string)
    | Array(items: seq<Json>)
    | Object(fields: seq<Field>)

  datatype Field = Field(key: string, value: Json)

  datatype Redactor = Redactor(text: string -> string, secret: string -> bool)

  ghost predicate Idempotent(r: Redactor) {
    forall s: string {:trigger r.text(r.text(s))} :: r.text(r.text(s)) == r.text(s)
  }

  function RedactData(r: Redactor, v: Json): Json {
    match v
    case Text(s) => Text(r.text(s))
    case Array(items) => Array(RedactItems(r, items))
    case Object(fields) => Object(RedactFields(r, fields))
    case _ => v
  }

  function RedactItems(r: Redactor, items: seq<Json>): seq<Json> {
    if items == [] then [] else [RedactData(r, items[0])] + RedactItems(r, items[1..])
  }

  function RedactFields(r: Redactor, fields: seq<Field>): seq<Field> {
    if fields == [] then []
    else
      var f := fields[0];
      [Field(f.key, if r.secret(f.key) then Text(REDACTED) else RedactData(r, f.value))]
      + RedactFields(r, fields[1..])
  }

  lemma {:induction false} RedactItemsIdempotent(r: Redactor, items: seq<Json>)
    requires Idempotent(r)
    ensures RedactItems(r, RedactItems(r, items)) == RedactItems(r, items)
  {
    if items != [] {
      RedactDataIdempotent(r, items[0]);
      RedactItemsIdempotent(r, items[1..]);
      assert RedactItems(r, items)[1..] == RedactItems(r, items[1..]);
    }
  }

  lemma {:induction false} RedactFieldsIdempotent(r: Redactor, fields: seq<Field>)
    requires Idempotent(r)
    ensures RedactFields(r, RedactFields(r, fields)) == RedactFields(r, fields)
  {
    if fields != [] {
      RedactDataIdempotent(r, fields[0].value);
      RedactFieldsIdempotent(r, fields[1..]);
      assert RedactFields(r, fields)[1..] == RedactFields(r, fields[1..]);
    }
  }

  /** Redacting redacted data changes nothing, however deep the secret sits. */
  lemma {:induction false} RedactDataIdempotent(r: Redactor, v: Json)
    requires Idempotent(r)
    ensures RedactData(r, RedactData(r, v)) == RedactData(r, v)
  {
    match v
    case Text(s) => assert r.text(r.text(s)) == r.text(s);
    case Array(items) => RedactItemsIdempotent(r, items);
    case Object(fields) => RedactFieldsIdempotent(r, fields);
    case _ =>
  }

  /** `w` is `v` with every text redacted and every value under a secret key replaced: the same
      lists and the same keys, in the same order, and the same numbers and flags. */
  ghost predicate RedactedTo(r: Redactor, v: Json, w: Json) {
    match v
    case Text(s) => w == Text(r.text(s))
    case Array(items) =>
      w.Array? && |w.items| == |items| && forall i :: 0 <= i < |items| ==> RedactedTo(r, items[i], w.items[i])
    case Object(fields) =>
      && w.Object? && |w.fields| == |fields|
      && forall i :: 0 <= i < |fields| ==>
           && w.fields[i].key == fields[i].key
           && if r.secret(fields[i].key) then w.fields[i].value == Text("[redacted]")
              else RedactedTo(r, fields[i].value, w.fields[i].value)
    case _ => w == v
  }

  /** Nothing is left to hide: under a secret key there is only the mark, and every other text
      is its own redaction, however deep it sits. */
  ghost predicate Masked(r: Redactor, v: Json) {
    match v
    case Text(s) => r.text(s) == s
    case Array(items) => forall i :: 0 <= i < |items| ==> Masked(r, items[i])
    case Object(fields) =>
      forall i :: 0 <= i < |fields| ==>
        if r.secret(fields[i].key) then fields[i].value == Text("[redacted]") else Masked(r, fields[i].value)
    case _ => true
  }

  lemma {:induction false} ItemsRedactedTo(r: Redactor, items: seq<Json>)
    ensures var u := RedactItems(r, items); |u| == |items| && forall i :: 0 <= i < |items| ==> RedactedTo(r, items[i], u[i])
  {
    if items != [] {
      RedactDataExactly(r, items[0]);
      ItemsRedactedTo(r, items[1..]);
      hide RedactedTo;
      forall i | 0 <= i < |items| ensures RedactedTo(r, items[i], RedactItems(r, items)[i]) {
        if i > 0 { assert items[i] == items[1..][i - 1]; }
      }
    }
  }

  ghost predicate FieldRedactedTo(r: Redactor, f: Field, g: Field) {
    g.key == f.key && if r.secret(f.key) then g.value == Text("[redacted]") else RedactedTo(r, f.value, g.value)
  }

  lemma {:induction false} FieldsRedactedTo(r: Redactor, fields: seq<Field>)
    ensures var u := RedactFields(r, fields);
      |u| == |fields| && forall i :: 0 <= i < |fields| ==> FieldRedactedTo(r, fields[i], u[i])
  {
    if fields != [] {
      RedactDataExactly(r, fields[0].value);
      FieldsRedactedTo(r, fields[1..]);
      assert FieldRedactedTo(r, fields[0], RedactFields(r, fields)[0]);
      hide FieldRedactedTo;
      forall i | 0 <= i < |fields| ensures FieldRedactedTo(r, fields[i], RedactFields(r, fields)[i]) {
        if i > 0 { assert fields[i] == fields[1..][i - 1]; }
      }
    }
  }

  /** What redaction does to nested data, value by value. */
  lemma {:induction false} RedactDataExactly(r: Redactor, v: Json)
    ensures RedactedTo(r, v, RedactData(r, v))
  {
    match v
    case Array(items) => ItemsRedactedTo(r, items);
    case Object(fields) =>
      FieldsRedactedTo(r, fields);
      forall i | 0 <= i < |fields| ensures FieldRedactedTo(r, fields[i], RedactFields(r, fields)[i]) {}
    case _ =>
  }

  /** No secret survives redaction. */
  lemma {:induction false} RedactedIsMasked(r: Redactor, v: Json, w: Json)
    requires Idempotent(r) && RedactedTo(r, v, w)
    ensures Masked(r, w)
  {
    match v
    case Text(s) => assert r.text(r.text(s)) == r.text(s);
    case Array(items) =>
      forall i | 0 <= i < |items| ensures Masked(r, w.items[i]) { RedactedIsMasked(r, items[i], w.items[i]); }
    case Object(fields) =>
      forall i | 0 <= i < |fields| && !r.secret(w.fields[i].key) ensures Masked(r, w.fields[i].value) {
        RedactedIsMasked(r, fields[i].value, w.fields[i].value);
      }
    case _ =>
  }

  // ----- Lists of names, kept free of duplicates -----

  /** First occurrences, in order. */
  function Unique(s: seq<string>): (u: seq<string>)
    ensures forall x :: x in u <==> x in s
    ensures forall i, j :: 0 <= i < j < |u| ==> u[i] != u[j]
  {
    if s == [] then []
    else
      var u := Unique(s[..|s| - 1]);
      assert s == s[..|s| - 1] + [Last(s)];
      if Last(s) in u then u else u + [Last(s)]
  }

  /** What comes first stays first: a longer list only adds at the end. */
  lemma {:induction false} UniqueKeepsOrder(s: seq<string>, k: nat)
    requires k <= |s|
    ensures Unique(s[..k]) <= Unique(s)
    decreases |s| - k
  {
    if k == |s| {
      assert s[..k] == s;
    } else {
      UniqueKeepsOrder(s, k + 1);
      assert s[..k + 1][..k] == s[..k];
    }
  }

  function RedactEach(r: Redactor, s: seq<string>): (u: seq<string>)
    ensures |u| == |s| && forall i :: 0 <= i < |s| ==> u[i] == r.text(s[i])
  {
    seq(|s|, i requires 0 <= i < |s| => r.text(s[i]))
  }

  function RedactNames(r: Redactor, s: seq<string>): seq<string> {
    Unique(RedactEach(r, s))
  }

  function RedactOption(r: Redactor, s: Option<string>): Option<string> {
    match s
    case None => None
    case Some(t) => Some(r.text(t))
  }

  ghost predicate Clean(r: Redactor, s: seq<string>) {
    forall x :: x in s ==> r.text(x) == x
  }

  lemma {:induction false} UniqueOfDistinct(s: seq<string>)
    requires NoDuplicates(s)
    ensures Unique(s) == s
  {
    if s != [] {
      UniqueOfDistinct(s[..|s| - 1]);
      assert s == s[..|s| - 1] + [Last(s)];
    }
  }

  lemma RedactNamesIdempotent(r: Redactor, s: seq<string>)
    requires Idempotent(r)
    ensures Clean(r, RedactNames(r, s)) && NoDuplicates(RedactNames(r, s))
    ensures RedactNames(r, RedactNames(r, s)) == RedactNames(r, s)
  {
    var u := RedactNames(r, s);
    forall x | x in u ensures r.text(x) == x {
      var i :| 0 <= i < |s| && RedactEach(r, s)[i] == x;
      assert r.text(r.text(s[i])) == r.text(s[i]);
    }
    RedactNamesOfClean(r, u);
  }

  lemma RedactNamesOfClean(r: Redactor, s: seq<string>)
    requires Clean(r, s) && NoDuplicates(s)
    ensures RedactNames(r, s) == s
  {
    assert RedactEach(r, s) == s;
    UniqueOfDistinct(s);
  }
}
