/** The faithful codec that the streaming results take for granted exists: JSON values can be written as
    single, non-empty lines from which they can be read back. */
module Codecs {
  import opened Prelude
  import opened Wire

  /** A number as so many strokes and an end. */
  function Strokes(n: nat): string {
    if n == 0 then ";" else "1" + Strokes(n - 1)
  }

  function Quoted(s: string): string {
    if s == "" then "." else "c" + Strokes(s[0] as nat) + Quoted(s[1..])
  }

  ghost function SomeKey(fields: map<string, Json>): (k: string)
    requires fields != map[]
    ensures k in fields
  {
    assert fields.Keys != {};
    var k :| k in fields;
    k
  }

  ghost function Enc(j: Json): string
    decreases j, 1, 0
  {
    match j
    case Null => "n"
    case Bool(b) => if b then "t" else "f"
    case Num(n) => if n < 0 then "-" + Strokes(-n) else "+" + Strokes(n)
    case Str(s) => "s" + Quoted(s)
    case Arr(items) => "a" + EncItems(j, items)
    case Obj(fields) => "o" + EncFields(j, fields)
  }

  ghost function EncItems(parent: Json, items: seq<Json>): string
    requires forall i :: 0 <= i < |items| ==> items[i] < parent
    decreases parent, 0, |items|
  {
    if items == [] then "." else "," + Enc(items[0]) + EncItems(parent, items[1..])
  }

  ghost function EncFields(parent: Json, fields: map<string, Json>): string
    requires forall k :: k in fields ==> fields[k] < parent
    decreases parent, 0, |fields|
  {
    if fields == map[] then "."
    else
      var k := SomeKey(fields);
      assert |fields - {k}| < |fields| by { FewerFields(fields, k); }
      "," + Quoted(k) + Enc(fields[k]) + EncFields(parent, fields - {k})
  }

  lemma FewerFields(fields: map<string, Json>, k: string)
    requires k in fields
    ensures |fields - {k}| < |fields|
  {
    assert (fields - {k}).Keys == fields.Keys - {k};
    assert |(fields - {k}).Keys| == |fields - {k}| && |fields.Keys| == |fields|;
  }

  // ---------------------------------------------------------------------------------------------
  // What is written can be read back, whatever follows it
  // ---------------------------------------------------------------------------------------------

  lemma {:induction false} StrokesPrefix(m: nat, n: nat, x: string, y: string)
    requires Strokes(m) + x == Strokes(n) + y
    ensures m == n && x == y
    decreases m
  {
    assert (Strokes(m) + x)[0] == Strokes(m)[0] && (Strokes(n) + y)[0] == Strokes(n)[0];
    Drop1(Strokes(m), x);
    Drop1(Strokes(n), y);
    if m > 0 && n > 0 {
      assert Strokes(m)[1..] == Strokes(m - 1) && Strokes(n)[1..] == Strokes(n - 1);
      StrokesPrefix(m - 1, n - 1, x, y);
    }
  }

  lemma Drop1(a: string, x: string)
    requires a != ""
    ensures (a + x)[1..] == a[1..] + x && (a + x)[0] == a[0]
  {
  }

  lemma Regroup(a: string, b: string, x: string)
    ensures (("," + a + b) + x)[0] == ','
    ensures (("," + a + b) + x)[1..] == a + (b + x)
  {
  }

  lemma RegroupField(k: string, v: string, b: string, x: string)
    ensures (("," + k + v + b) + x)[0] == ','
    ensures (("," + k + v + b) + x)[1..] == k + (v + (b + x))
  {
  }

  lemma {:induction false} QuotedPrefix(a: string, b: string, x: string, y: string)
    requires Quoted(a) + x == Quoted(b) + y
    ensures a == b && x == y
    decreases |a|
  {
    Drop1(Quoted(a), x);
    Drop1(Quoted(b), y);
    if a != "" && b != "" {
      var ra, rb := Quoted(a[1..]), Quoted(b[1..]);
      assert Quoted(a)[1..] + x == Strokes(a[0] as nat) + (ra + x);
      assert Quoted(b)[1..] + y == Strokes(b[0] as nat) + (rb + y);
      StrokesPrefix(a[0] as nat, b[0] as nat, ra + x, rb + y);
      QuotedPrefix(a[1..], b[1..], x, y);
      assert a == [a[0]] + a[1..] && b == [b[0]] + b[1..];
    }
  }

  lemma EncStarts(j: Json)
    ensures Enc(j) != ""
    ensures Enc(j)[0] == match j
                         case Null => 'n'
                         case Bool(b) => if b then 't' else 'f'
                         case Num(n) => if n < 0 then '-' else '+'
                         case Str(s) => 's'
                         case Arr(items) => 'a'
                         case Obj(fields) => 'o'
  {
  }

  lemma {:induction false} EncPrefix(a: Json, b: Json, x: string, y: string)
    requires Enc(a) + x == Enc(b) + y
    ensures a == b && x == y
    decreases a, 1, 0
  {
    EncStarts(a);
    EncStarts(b);
    Drop1(Enc(a), x);
    Drop1(Enc(b), y);
    var ta, tb := Enc(a)[1..], Enc(b)[1..];
    match a {
      case Null =>
      case Bool(_) =>
      case Num(n) => StrokesPrefix(if n < 0 then -n else n, if b.n < 0 then -b.n else b.n, x, y);
      case Str(s) => QuotedPrefix(s, b.s, x, y);
      case Arr(items) => ItemsPrefix(a, items, b, b.items, x, y);
      case Obj(fields) => FieldsPrefix(a, fields, b, b.fields, x, y);
    }
  }

  lemma {:induction false} ItemsPrefix(p: Json, a: seq<Json>, q: Json, b: seq<Json>, x: string, y: string)
    requires forall i :: 0 <= i < |a| ==> a[i] < p
    requires forall i :: 0 <= i < |b| ==> b[i] < q
    requires EncItems(p, a) + x == EncItems(q, b) + y
    ensures a == b && x == y
    decreases p, 0, |a|
  {
    Drop1(EncItems(p, a), x);
    Drop1(EncItems(q, b), y);
    if a != [] && b != [] {
      var ra, rb := EncItems(p, a[1..]), EncItems(q, b[1..]);
      Regroup(Enc(a[0]), ra, x);
      Regroup(Enc(b[0]), rb, y);
      EncPrefix(a[0], b[0], ra + x, rb + y);
      ItemsPrefix(p, a[1..], q, b[1..], x, y);
      assert a == [a[0]] + a[1..] && b == [b[0]] + b[1..];
    }
  }

  lemma {:induction false} FieldsPrefix(p: Json, a: map<string, Json>, q: Json, b: map<string, Json>,
                                        x: string, y: string)
    requires forall k :: k in a ==> a[k] < p
    requires forall k :: k in b ==> b[k] < q
    requires EncFields(p, a) + x == EncFields(q, b) + y
    ensures a == b && x == y
    decreases p, 0, |a|
  {
    Drop1(EncFields(p, a), x);
    Drop1(EncFields(q, b), y);
    if a != map[] && b != map[] {
      var k, l := SomeKey(a), SomeKey(b);
      var ra, rb := EncFields(p, a - {k}), EncFields(q, b - {l});
      RegroupField(Quoted(k), Enc(a[k]), ra, x);
      RegroupField(Quoted(l), Enc(b[l]), rb, y);
      QuotedPrefix(k, l, Enc(a[k]) + (ra + x), Enc(b[l]) + (rb + y));
      EncPrefix(a[k], b[l], ra + x, rb + y);
      FewerFields(a, k);
      FieldsPrefix(p, a - {k}, q, b - {l}, x, y);
      assert a == (a - {k})[k := a[k]] && b == (b - {l})[l := b[l]];
    }
  }

  // ---------------------------------------------------------------------------------------------
  // One line
  // ---------------------------------------------------------------------------------------------

  lemma {:induction false} StrokesLine(n: nat)
    ensures '\n' !in Strokes(n)
  {
    if n > 0 {
      StrokesLine(n - 1);
    }
  }

  lemma {:induction false} QuotedLine(s: string)
    ensures '\n' !in Quoted(s)
    decreases |s|
  {
    if s != "" {
      StrokesLine(s[0] as nat);
      QuotedLine(s[1..]);
    }
  }

  lemma {:induction false} EncLine(j: Json)
    ensures '\n' !in Enc(j)
    decreases j, 1, 0
  {
    match j {
      case Num(n) => StrokesLine(if n < 0 then -n else n);
      case Str(s) => QuotedLine(s);
      case Arr(items) => ItemsLine(j, items);
      case Obj(fields) => FieldsLine(j, fields);
      case _ =>
    }
  }

  lemma {:induction false} ItemsLine(parent: Json, items: seq<Json>)
    requires forall i :: 0 <= i < |items| ==> items[i] < parent
    ensures '\n' !in EncItems(parent, items)
    decreases parent, 0, |items|
  {
    if items != [] {
      EncLine(items[0]);
      ItemsLine(parent, items[1..]);
    }
  }

  lemma {:induction false} FieldsLine(parent: Json, fields: map<string, Json>)
    requires forall k :: k in fields ==> fields[k] < parent
    ensures '\n' !in EncFields(parent, fields)
    decreases parent, 0, |fields|
  {
    if fields != map[] {
      var k := SomeKey(fields);
      QuotedLine(k);
      EncLine(fields[k]);
      FewerFields(fields, k);
      FieldsLine(parent, fields - {k});
    }
  }

  ghost function Dec(s: string): Option<Json> {
    if exists j :: Enc(j) == s then
      var j :| Enc(j) == s;
      Some(j)
    else None
  }

  /** Reading back what was written. */
  lemma DecEnc(j: Json)
    ensures Dec(Enc(j)) == Some(j)
  {
    var back := Dec(Enc(j)).value;
    assert Enc(back) + "" == Enc(j) + "";
    EncPrefix(back, j, "", "");
  }

  lemma FaithfulCodecExists()
    ensures exists codec :: Faithful(codec)
  {
    var codec := Codec((j: Json) => Enc(j), (s: string) => Dec(s));
    forall j: Json
      ensures codec.parse(codec.marshal(j)) == Some(j) && codec.marshal(j) != "" && '\n' !in codec.marshal(j)
    {
      DecEnc(j);
      EncStarts(j);
      EncLine(j);
    }
    assert Faithful(codec);
  }
}
