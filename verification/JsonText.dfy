/**
 That trees can be written as text and read back at all: a self-delimiting notation. It is not the
 notation of JSON; it shows that what is assumed of JSON text elsewhere can be met.
 */
module JsonText {
  import opened Options
  import opened SeqFacts
  import opened JsonSchema

  function NatText(n: nat): string {
    if n == 0 then "." else "1" + NatText(n - 1)
  }

  function IntText(n: int): string {
    if n < 0 then "-" + NatText(-n) else "+" + NatText(n)
  }

  function StringText(s: string): string {
    NatText(|s|) + s
  }

  function Text(j: Json): string
    decreases j, 1, 0
  {
    match j
    case Null => "n"
    case Bool(b) => if b then "t" else "f"
    case Int(n) => "i" + IntText(n)
    case Float(x) => "d" + (IntText(x.0) + IntText(x.1))
    case Str(s) => "s" + StringText(s)
    case Arr(items) => "a" + (NatText(|items|) + ItemsText(j, 0))
    case Obj(fields) => "o" + (NatText(|fields|) + FieldsText(j, 0))
  }

  function ItemsText(j: Json, i: nat): string
    requires j.Arr? && i <= |j.items|
    decreases j, 0, |j.items| - i
  {
    if i == |j.items| then "" else Text(j.items[i]) + ItemsText(j, i + 1)
  }

  function FieldsText(j: Json, i: nat): string
    requires j.Obj? && i <= |j.fields|
    decreases j, 0, |j.fields| - i
  {
    if i == |j.fields| then "" else StringText(j.fields[i].0) + (Text(j.fields[i].1) + FieldsText(j, i + 1))
  }

  // ---------- No text continues another ----------

  lemma SameHead(a: string, b: string, x: string, y: string)
    requires a != "" && b != "" && a + x == b + y
    ensures a[0] == b[0] && a[1..] + x == b[1..] + y
  {
    assert (a + x)[0] == a[0] && (b + y)[0] == b[0];
    assert (a + x)[1..] == a[1..] + x && (b + y)[1..] == b[1..] + y;
  }

  lemma AfterTag(tag: string, text: string)
    requires |tag| == 1
    ensures (tag + text)[0] == tag[0] && (tag + text)[1..] == text
  {
  }

  lemma {:induction false} NatReads(m: nat, n: nat, x: string, y: string)
    requires NatText(m) + x == NatText(n) + y
    ensures m == n && x == y
  {
    SameHead(NatText(m), NatText(n), x, y);
    if m > 0 && n > 0 {
      AfterTag("1", NatText(m - 1));
      AfterTag("1", NatText(n - 1));
      NatReads(m - 1, n - 1, x, y);
    } else {
      assert m == 0 && n == 0;
      assert ""+ x == x && "" + y == y;
    }
  }

  lemma IntReads(m: int, n: int, x: string, y: string)
    requires IntText(m) + x == IntText(n) + y
    ensures m == n && x == y
  {
    SameHead(IntText(m), IntText(n), x, y);
    assert m < 0 <==> n < 0;
    AfterTag(if m < 0 then "-" else "+", NatText(if m < 0 then -m else m));
    AfterTag(if n < 0 then "-" else "+", NatText(if n < 0 then -n else n));
    NatReads(if m < 0 then -m else m, if n < 0 then -n else n, x, y);
  }

  lemma SamePrefix(a: string, b: string, x: string, y: string)
    requires |a| == |b| && a + x == b + y
    ensures a == b && x == y
  {
    assert (a + x)[..|a|] == a && (b + y)[..|b|] == b;
    assert (a + x)[|a|..] == x && (b + y)[|b|..] == y;
  }

  lemma StringReads(s: string, t: string, x: string, y: string)
    requires StringText(s) + x == StringText(t) + y
    ensures s == t && x == y
  {
    ConcatAssoc(NatText(|s|), s, x);
    ConcatAssoc(NatText(|t|), t, y);
    NatReads(|s|, |t|, s + x, t + y);
    SamePrefix(s, t, x, y);
  }

  lemma {:induction false} ItemsRead(a: Json, b: Json, i: nat, x: string, y: string)
    requires a.Arr? && b.Arr? && |a.items| == |b.items| && i <= |a.items| && ItemsText(a, i) + x == ItemsText(b, i) + y
    ensures a.items[i..] == b.items[i..] && x == y
    decreases a, 0, |a.items| - i
  {
    if i == |a.items| {
      assert "" + x == x && "" + y == y;
    } else {
      ConcatAssoc(Text(a.items[i]), ItemsText(a, i + 1), x);
      ConcatAssoc(Text(b.items[i]), ItemsText(b, i + 1), y);
      TextReads(a.items[i], b.items[i], ItemsText(a, i + 1) + x, ItemsText(b, i + 1) + y);
      ItemsRead(a, b, i + 1, x, y);
      assert a.items[i..] == [a.items[i]] + a.items[i + 1..] && b.items[i..] == [b.items[i]] + b.items[i + 1..];
    }
  }

  lemma {:induction false} FieldsRead(a: Json, b: Json, i: nat, x: string, y: string)
    requires a.Obj? && b.Obj? && |a.fields| == |b.fields| && i <= |a.fields| && FieldsText(a, i) + x == FieldsText(b, i) + y
    ensures a.fields[i..] == b.fields[i..] && x == y
    decreases a, 0, |a.fields| - i
  {
    if i == |a.fields| {
      assert "" + x == x && "" + y == y;
    } else {
      var (k, v) := a.fields[i];
      var (l, w) := b.fields[i];
      var p, q := FieldsText(a, i + 1), FieldsText(b, i + 1);
      ConcatAssoc(StringText(k), Text(v) + p, x);
      ConcatAssoc(StringText(l), Text(w) + q, y);
      StringReads(k, l, (Text(v) + p) + x, (Text(w) + q) + y);
      ConcatAssoc(Text(v), p, x);
      ConcatAssoc(Text(w), q, y);
      TextReads(v, w, p + x, q + y);
      FieldsRead(a, b, i + 1, x, y);
      assert a.fields[i..] == [a.fields[i]] + a.fields[i + 1..] && b.fields[i..] == [b.fields[i]] + b.fields[i + 1..];
    }
  }

  /** The letter a text begins with. */
  function Tag(j: Json): char {
    match j
    case Null => 'n'
    case Bool(b) => if b then 't' else 'f'
    case Int(_) => 'i'
    case Float(_) => 'd'
    case Str(_) => 's'
    case Arr(_) => 'a'
    case Obj(_) => 'o'
  }

  function Rest(j: Json): string {
    match j
    case Null => ""
    case Bool(_) => ""
    case Int(n) => IntText(n)
    case Float(x) => IntText(x.0) + IntText(x.1)
    case Str(s) => StringText(s)
    case Arr(items) => NatText(|items|) + ItemsText(j, 0)
    case Obj(fields) => NatText(|fields|) + FieldsText(j, 0)
  }

  lemma TextIs(j: Json)
    ensures Text(j) != "" && Text(j)[0] == Tag(j) && Text(j)[1..] == Rest(j)
  {
  }

  lemma DoubleReads(a: Double, b: Double, x: string, y: string)
    requires (IntText(a.0) + IntText(a.1)) + x == (IntText(b.0) + IntText(b.1)) + y
    ensures a == b && x == y
  {
    ConcatAssoc(IntText(a.0), IntText(a.1), x);
    ConcatAssoc(IntText(b.0), IntText(b.1), y);
    IntReads(a.0, b.0, IntText(a.1) + x, IntText(b.1) + y);
    IntReads(a.1, b.1, x, y);
  }

  /** Main result: a text determines its tree and where it ends. */
  lemma {:induction false} TextReads(a: Json, b: Json, x: string, y: string)
    requires Text(a) + x == Text(b) + y
    ensures a == b && x == y
    decreases a, 1, 0
  {
    TextIs(a);
    TextIs(b);
    SameHead(Text(a), Text(b), x, y);
    match a
    case Null => assert "" + x == x && "" + y == y;
    case Bool(_) => assert "" + x == x && "" + y == y;
    case Int(n) => IntReads(n, b.n, x, y);
    case Float(f) => DoubleReads(f, b.x, x, y);
    case Str(s) => StringReads(s, b.s, x, y);
    case Arr(items) =>
      ConcatAssoc(NatText(|items|), ItemsText(a, 0), x);
      ConcatAssoc(NatText(|b.items|), ItemsText(b, 0), y);
      NatReads(|items|, |b.items|, ItemsText(a, 0) + x, ItemsText(b, 0) + y);
      ItemsRead(a, b, 0, x, y);
      assert a.items[0..] == a.items && b.items[0..] == b.items;
    case Obj(fields) =>
      ConcatAssoc(NatText(|fields|), FieldsText(a, 0), x);
      ConcatAssoc(NatText(|b.fields|), FieldsText(b, 0), y);
      NatReads(|fields|, |b.fields|, FieldsText(a, 0) + x, FieldsText(b, 0) + y);
      FieldsRead(a, b, 0, x, y);
      assert a.fields[0..] == a.fields && b.fields[0..] == b.fields;
  }

  lemma TextIsInjective(a: Json, b: Json)
    requires Text(a) == Text(b)
    ensures a == b
  {
    ConcatEmpty(Text(a));
    ConcatEmpty(Text(b));
    TextReads(a, b, "", "");
  }

  /** The tree a text is of. */
  ghost function Reading(s: string): Option<Json> {
    if j :| Text(j) == s then Some(j) else None
  }

  lemma ReadsBack(j: Json)
    ensures Text(j) != "" && Reading(Text(j)) == Some(j)
  {
    TextIs(j);
    var read := Reading(Text(j));
    assert Text(j) == Text(j);
    TextIsInjective(read.value, j);
  }
}
