/** The canonical text of plain values (packages/codec/src/canonical.ts). */
module Canonical {
  import opened Results
  import opened Octets
  import opened Base64Url

  datatype Field = Field(key: Text, value: Value)

  /** A plain value; a record lists its own fields in any order. */
  datatype Value =
    | Null
    | Bool(truth: bool)
    | Num(number: int)
    | Str(text: Text)
    | Bytes(bytes: seq<byte>)
    | Arr(items: seq<Value>)
    | Rec(fields: seq<Field>)

  datatype Member = Member(key: Text, value: Json)

  datatype Json =
    | JNull
    | JBool(truth: bool)
    | JNum(number: int)
    | JStr(text: Text)
    | JArr(items: seq<Json>)
    | JObj(members: seq<Member>)

  /** The reserved key of a byte tag: a dollar sign and a lower-case b. */
  const BYTE_TAG: Text := [36, 98]

  /** Up to here every integer is a double. */
  const TWO_53 := 9007199254740992

  // ---- key order ----

  predicate Less(a: Text, b: Text) {
    if b == [] then false
    else if a == [] then true
    else a[0] < b[0] || (a[0] == b[0] && Less(a[1..], b[1..]))
  }

  ghost predicate FirstDifference(a: Text, b: Text, k: nat) {
    k < |a| && k < |b| && a[..k] == b[..k] && a[k] != b[k]
  }

  /** The order of strings: a proper prefix comes first, and else the smaller code unit where they first differ. */
  ghost predicate Before(a: Text, b: Text) {
    || (|a| < |b| && a == b[..|a|])
    || exists k: nat :: FirstDifference(a, b, k) && a[k] < b[k]
  }

  lemma {:induction false} LessIsBefore(a: Text, b: Text)
    ensures Less(a, b) <==> Before(a, b)
  {
    if a != [] && b != [] {
      var p, q := a[1..], b[1..];
      LessIsBefore(p, q);
      assert |a| <= |b| ==> b[..|a|][0] == b[0];
      if a[0] != b[0] {
        assert FirstDifference(a, b, 0);
        assert forall k: nat :: FirstDifference(a, b, k) && k > 0 ==> a[..k][0] == b[..k][0];
      } else {
        if Before(p, q) {
          if |p| < |q| && p == q[..|p|] {
            assert a == [a[0]] + p && b[..|a|] == [b[0]] + q[..|p|];
          } else {
            var k: nat :| FirstDifference(p, q, k) && p[k] < q[k];
            assert a[..k + 1] == [a[0]] + p[..k] && b[..k + 1] == [b[0]] + q[..k];
            assert FirstDifference(a, b, k + 1);
          }
        }
        if Before(a, b) {
          if |a| < |b| && a == b[..|a|] {
            assert p == b[..|a|][1..] == q[..|p|];
          } else {
            var k: nat :| FirstDifference(a, b, k) && a[k] < b[k];
            assert k > 0;
            assert p[..k - 1] == a[..k][1..] && q[..k - 1] == b[..k][1..];
            assert FirstDifference(p, q, k - 1);
          }
        }
      }
    }
  }

  lemma {:induction false} LessTotal(a: Text, b: Text)
    ensures a == b || Less(a, b) || Less(b, a)
    ensures !(Less(a, b) && Less(b, a)) && !Less(a, a)
  {
    if a != [] && b != [] {
      LessTotal(a[1..], b[1..]);
      assert a == [a[0]] + a[1..] && b == [b[0]] + b[1..];
    }
    if a != [] {
      LessTotal(a[1..], a[1..]);
    }
  }

  lemma {:induction false} LessTransitive(a: Text, b: Text, c: Text)
    requires Less(a, b) && Less(b, c)
    ensures Less(a, c)
  {
    if a != [] && a[0] == b[0] && b[0] == c[0] {
      LessTransitive(a[1..], b[1..], c[1..]);
    }
  }

  function InsertField(f: Field, fields: seq<Field>): (r: seq<Field>)
    ensures |r| == |fields| + 1
  {
    if fields == [] || !Less(fields[0].key, f.key) then [f] + fields else [fields[0]] + InsertField(f, fields[1..])
  }

  function SortFields(fields: seq<Field>): (r: seq<Field>)
    ensures |r| == |fields|
  {
    if fields == [] then [] else InsertField(fields[0], SortFields(fields[1..]))
  }

  ghost predicate Sorted(fields: seq<Field>) {
    forall i, j :: 0 <= i < j < |fields| ==> Less(fields[i].key, fields[j].key)
  }

  predicate UniqueKeys(fields: seq<Field>) {
    forall i, j :: 0 <= i < j < |fields| ==> fields[i].key != fields[j].key
  }

  lemma {:induction false} InsertMembers(f: Field, fields: seq<Field>, x: Field)
    ensures x in InsertField(f, fields) <==> x == f || x in fields
  {
    if fields != [] && Less(fields[0].key, f.key) {
      InsertMembers(f, fields[1..], x);
    }
  }

  lemma {:induction false} SortMembers(fields: seq<Field>, x: Field)
    ensures x in SortFields(fields) <==> x in fields
  {
    if fields != [] {
      SortMembers(fields[1..], x);
      InsertMembers(fields[0], SortFields(fields[1..]), x);
    }
  }

  lemma {:induction false} InsertSorts(f: Field, fields: seq<Field>)
    requires Sorted(fields) && forall x :: x in fields ==> x.key != f.key
    ensures Sorted(InsertField(f, fields))
  {
    if fields != [] {
      if Less(fields[0].key, f.key) {
        InsertSorts(f, fields[1..]);
        var tail := InsertField(f, fields[1..]);
        forall j | 0 <= j < |tail| ensures Less(fields[0].key, tail[j].key) {
          InsertMembers(f, fields[1..], tail[j]);
          if tail[j] != f {
            var k :| 0 <= k < |fields[1..]| && fields[1..][k] == tail[j];
            assert fields[k + 1] == tail[j];
          }
        }
      } else {
        LessTotal(fields[0].key, f.key);
        assert fields[0] in fields;
        forall j | 0 <= j < |fields| ensures Less(f.key, fields[j].key) {
          if j > 0 {
            LessTransitive(f.key, fields[0].key, fields[j].key);
          }
        }
      }
    }
  }

  lemma {:induction false} SortSorts(fields: seq<Field>)
    requires UniqueKeys(fields)
    ensures Sorted(SortFields(fields))
  {
    if fields != [] {
      SortSorts(fields[1..]);
      forall x | x in SortFields(fields[1..]) ensures x.key != fields[0].key {
        SortMembers(fields[1..], x);
        var k :| 0 <= k < |fields[1..]| && fields[1..][k] == x;
        assert fields[k + 1] == x;
      }
      InsertSorts(fields[0], SortFields(fields[1..]));
    }
  }

  /** The sorted fields are the given ones, and their keys rise in the order of strings. */
  lemma SortRises(fields: seq<Field>)
    requires UniqueKeys(fields)
    ensures forall x :: x in SortFields(fields) <==> x in fields
    ensures |SortFields(fields)| == |fields|
    ensures forall i, j :: 0 <= i < j < |fields| ==> Before(SortFields(fields)[i].key, SortFields(fields)[j].key)
  {
    SortSorts(fields);
    forall x ensures x in SortFields(fields) <==> x in fields {
      SortMembers(fields, x);
    }
    forall i, j | 0 <= i < j < |fields| ensures Before(SortFields(fields)[i].key, SortFields(fields)[j].key) {
      LessIsBefore(SortFields(fields)[i].key, SortFields(fields)[j].key);
    }
  }

  // ---- values and their tagged form ----

  /** An integer that a double holds: below two to the 1024, and at most two to the 53 once the halves are taken. */
  predicate Double(n: int) {
    -n < TwoTo(1024) && n < TwoTo(1024) && Halves(n)
  }

  predicate Halves(n: int)
    decreases if n < 0 then -n else n
  {
    -TWO_53 <= n <= TWO_53 || (n % 2 == 0 && Halves(n / 2))
  }

  /** A number is a double, and a JavaScript record has each key once. */
  predicate WellFormed(v: Value) {
    match v
    case Num(n) => Double(n)
    case Arr(items) => forall i :: 0 <= i < |items| ==> WellFormed(items[i])
    case Rec(fields) => UniqueKeys(fields) && forall i :: 0 <= i < |fields| ==> WellFormed(fields[i].value)
    case _ => true
  }

  /** The one shape that is refused: a record whose only key is the byte tag. */
  predicate Accepted(v: Value) {
    match v
    case Arr(items) => forall i :: 0 <= i < |items| ==> Accepted(items[i])
    case Rec(fields) =>
      !(|fields| == 1 && fields[0].key == BYTE_TAG) && forall i :: 0 <= i < |fields| ==> Accepted(fields[i].value)
    case _ => true
  }

  function NormalItems(items: seq<Value>): (r: seq<Value>)
    ensures |r| == |items| && forall i :: 0 <= i < |r| ==> r[i] == Normal(items[i])
  {
    if items == [] then [] else [Normal(items[0])] + NormalItems(items[1..])
  }

  function NormalFields(fields: seq<Field>): (r: seq<Field>)
    ensures |r| == |fields| && forall i :: 0 <= i < |r| ==> r[i] == Field(fields[i].key, Normal(fields[i].value))
  {
    if fields == [] then [] else [Field(fields[0].key, Normal(fields[0].value))] + NormalFields(fields[1..])
  }

  /** The same value with every record's fields in key order. */
  function Normal(v: Value): Value {
    match v
    case Arr(items) => Arr(NormalItems(items))
    case Rec(fields) => Rec(SortFields(NormalFields(fields)))
    case _ => v
  }

  function TaggedItems(items: seq<Value>): (r: seq<Json>)
    ensures |r| == |items| && forall i :: 0 <= i < |r| ==> r[i] == Tagged(items[i])
  {
    if items == [] then [] else [Tagged(items[0])] + TaggedItems(items[1..])
  }

  function TaggedFields(fields: seq<Field>): (r: seq<Member>)
    ensures |r| == |fields| && forall i :: 0 <= i < |r| ==> r[i] == Member(fields[i].key, Tagged(fields[i].value))
  {
    if fields == [] then [] else [Member(fields[0].key, Tagged(fields[0].value))] + TaggedFields(fields[1..])
  }

  /** The JSON of a normal value: byte strings become one-key tags. */
  function Tagged(v: Value): Json {
    match v
    case Null => JNull
    case Bool(b) => JBool(b)
    case Num(n) => JNum(n)
    case Str(s) => JStr(s)
    case Bytes(bs) => JObj([Member(BYTE_TAG, JStr(Encode(bs)))])
    case Arr(items) => JArr(TaggedItems(items))
    case Rec(fields) => JObj(TaggedFields(fields))
  }

  function DecodeItems(items: seq<Json>): Result<seq<Value>>
    decreases items
  {
    if items == [] then Ok([])
    else
      match DecodeTagged(items[0])
      case Err(code) => Err(code)
      case Ok(first) =>
        match DecodeItems(items[1..])
        case Err(code) => Err(code)
        case Ok(rest) => Ok([first] + rest)
  }

  function DecodeMembers(members: seq<Member>): Result<seq<Field>>
    decreases members
  {
    if members == [] then Ok([])
    else
      match DecodeTagged(members[0].value)
      case Err(code) => Err(code)
      case Ok(first) =>
        match DecodeMembers(members[1..])
        case Err(code) => Err(code)
        case Ok(rest) => Ok([Field(members[0].key, first)] + rest)
  }

  /** Turns byte tags back into bytes, everywhere inside a parsed value. */
  function DecodeTagged(j: Json): Result<Value>
    decreases j
  {
    match j
    case JNull => Ok(Null)
    case JBool(b) => Ok(Bool(b))
    case JNum(n) => Ok(Num(n))
    case JStr(s) => Ok(Str(s))
    case JArr(items) =>
      (match DecodeItems(items)
       case Ok(values) => Ok(Arr(values))
       case Err(code) => Err(code))
    case JObj(members) =>
      if |members| == 1 && members[0].key == BYTE_TAG then
        if !members[0].value.JStr? then Err("byte-tag")
        else
          match Decode(members[0].value.text)
          case Ok(bytes) => Ok(Bytes(bytes))
          case Err(code) => Err(code)
      else
        match DecodeMembers(members)
        case Ok(fields) => Ok(Rec(fields))
        case Err(code) => Err(code)
  }

  lemma {:induction false} TaggedItemsDecode(items: seq<Value>)
    requires forall i :: 0 <= i < |items| ==> Accepted(items[i])
    ensures DecodeItems(TaggedItems(items)) == Ok(items)
    decreases items
  {
    hide Accepted, Tagged, DecodeTagged, DecodeMembers, TaggedFields;
    if items != [] {
      var first, rest := items[0], items[1..];
      TaggedDecodes(first);
      TaggedItemsDecode(rest);
      assert TaggedItems(items) == [Tagged(first)] + TaggedItems(rest);
      assert ([Tagged(first)] + TaggedItems(rest))[1..] == TaggedItems(rest);
      assert items == [first] + rest;
    }
  }

  lemma {:induction false} TaggedFieldsDecode(fields: seq<Field>)
    requires forall i :: 0 <= i < |fields| ==> Accepted(fields[i].value)
    ensures DecodeMembers(TaggedFields(fields)) == Ok(fields)
    decreases fields
  {
    hide Accepted, Tagged, DecodeTagged, DecodeItems, TaggedItems;
    if fields != [] {
      TaggedDecodes(fields[0].value);
      TaggedFieldsDecode(fields[1..]);
      assert TaggedFields(fields)[1..] == TaggedFields(fields[1..]);
      assert fields == [fields[0]] + fields[1..];
    }
  }

  /** Decoding tags undoes tagging, because no accepted record looks like a tag. */
  lemma {:induction false} TaggedDecodes(v: Value)
    requires Accepted(v)
    ensures DecodeTagged(Tagged(v)) == Ok(v)
    decreases v
  {
    match v {
      case Bytes(bs) => DecodeUndoesEncode(bs, []);
      case Arr(items) => TaggedItemsDecode(items);
      case Rec(fields) => TaggedFieldsDecode(fields);
      case _ =>
    }
  }

  /** Sorting fields keeps every value accepted, and sorting twice changes nothing. */
  lemma {:induction false} NormalAccepted(v: Value)
    requires Accepted(v)
    ensures Accepted(Normal(v))
    decreases v
  {
    match v {
      case Arr(items) =>
        forall i | 0 <= i < |items| ensures Accepted(Normal(items[i])) {
          NormalAccepted(items[i]);
        }
      case Rec(fields) =>
        var normal := NormalFields(fields);
        var sorted := SortFields(normal);
        forall i | 0 <= i < |sorted| ensures Accepted(sorted[i].value) {
          SortMembers(normal, sorted[i]);
          var k :| 0 <= k < |normal| && normal[k] == sorted[i];
          NormalAccepted(fields[k].value);
        }
        if |sorted| == 1 {
          SortMembers(normal, sorted[0]);
        }
      case _ =>
    }
  }

  lemma {:induction false} SortedStays(fields: seq<Field>)
    requires Sorted(fields)
    ensures SortFields(fields) == fields
  {
    if fields != [] {
      SortedStays(fields[1..]);
      if |fields| > 1 {
        LessTotal(fields[0].key, fields[1].key);
      }
      assert fields == [fields[0]] + fields[1..];
    }
  }

  lemma {:induction false} NormalTwice(v: Value)
    requires WellFormed(v)
    ensures Normal(Normal(v)) == Normal(v)
    decreases v
  {
    match v {
      case Arr(items) =>
        forall i | 0 <= i < |items| ensures Normal(Normal(items[i])) == Normal(items[i]) {
          NormalTwice(items[i]);
        }
        assert NormalItems(NormalItems(items)) == NormalItems(items);
      case Rec(fields) =>
        var normal := NormalFields(fields);
        var sorted := SortFields(normal);
        SortSorts(normal);
        forall i | 0 <= i < |sorted| ensures Normal(sorted[i].value) == sorted[i].value {
          SortMembers(normal, sorted[i]);
          var k :| 0 <= k < |normal| && normal[k] == sorted[i];
          NormalTwice(fields[k].value);
        }
        assert NormalFields(sorted) == sorted;
        SortedStays(sorted);
      case _ =>
    }
  }

  lemma {:induction false} NormalWellFormed(v: Value)
    requires WellFormed(v)
    ensures WellFormed(Normal(v))
    decreases v
  {
    match v {
      case Arr(items) =>
        forall i | 0 <= i < |items| ensures WellFormed(Normal(items[i])) {
          NormalWellFormed(items[i]);
        }
      case Rec(fields) =>
        var normal := NormalFields(fields);
        var sorted := SortFields(normal);
        SortSorts(normal);
        forall i, j | 0 <= i < j < |sorted| ensures sorted[i].key != sorted[j].key {
          LessTotal(sorted[i].key, sorted[j].key);
        }
        forall i | 0 <= i < |sorted| ensures WellFormed(sorted[i].value) {
          SortMembers(normal, sorted[i]);
          var k :| 0 <= k < |normal| && normal[k] == sorted[i];
          NormalWellFormed(fields[k].value);
        }
      case _ =>
    }
  }

  lemma {:induction false} SameSorted(xs: seq<Field>, ys: seq<Field>)
    requires |xs| == |ys| && Sorted(xs) && Sorted(ys) && forall x :: x in xs <==> x in ys
    ensures xs == ys
  {
    if xs != [] {
      assert xs[0] in ys && ys[0] in ys;
      var k :| 0 <= k < |ys| && ys[k] == xs[0];
      var i :| 0 <= i < |xs| && xs[i] == ys[0];
      LessTotal(xs[0].key, ys[0].key);
      assert xs[0] == ys[0];
      forall x ensures x in xs[1..] <==> x in ys[1..] {
        SortedRest(xs, x);
        SortedRest(ys, x);
      }
      SameSorted(xs[1..], ys[1..]);
    }
  }

  lemma SortedRest(xs: seq<Field>, x: Field)
    requires Sorted(xs) && xs != []
    ensures x in xs[1..] <==> x in xs && x != xs[0]
  {
    if x in xs[1..] {
      var i :| 0 <= i < |xs[1..]| && xs[1..][i] == x;
      assert xs[i + 1] == x;
      LessTotal(xs[0].key, x.key);
    }
    if x in xs && x != xs[0] {
      var i :| 0 <= i < |xs| && xs[i] == x;
      assert xs[1..][i - 1] == x;
    }
  }

  /** Lists of the same fields sort alike, whatever order they came in. */
  lemma SameSorts(xs: seq<Field>, ys: seq<Field>)
    requires |xs| == |ys| && UniqueKeys(xs) && UniqueKeys(ys) && forall x :: x in xs <==> x in ys
    ensures SortFields(xs) == SortFields(ys)
  {
    SortSorts(xs);
    SortSorts(ys);
    forall x ensures x in SortFields(xs) <==> x in SortFields(ys) {
      SortMembers(xs, x);
      SortMembers(ys, x);
    }
    SameSorted(SortFields(xs), SortFields(ys));
  }
}
