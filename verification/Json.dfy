/** JSON values and the text JSON.stringify gives them. Text is a sequence of UTF-16 code
  * units, as JavaScript strings are. */
module Json {
  newtype Unit = x: int | 0 <= x < 65_536

  type Text = seq<Unit>

  const QUOTE: Unit := 34
  const COMMA: Unit := 44
  const COLON: Unit := 58
  const OPEN_ARRAY: Unit := 91
  const BACKSLASH: Unit := 92
  const CLOSE_ARRAY: Unit := 93
  const OPEN_OBJECT: Unit := 123
  const CLOSE_OBJECT: Unit := 125

  // A number is represented by the text it prints as.
  datatype Json =
    | Null
    | Bool(value: bool)
    | Number(text: Text)
    | Str(text: Text)
    | Arr(items: seq<Json>)
    | Obj(fields: seq<Field>)

  datatype Field = Field(key: Text, value: Json)

  predicate IsNumberUnit(u: Unit) {
    48 <= u <= 57 || u == 43 || u == 45 || u == 46 || u == 101
  }

  predicate DistinctKeys(fields: seq<Field>) {
    forall i, j | 0 <= i < j < |fields| :: fields[i].key != fields[j].key
  }

  predicate Valid(v: Json)
    decreases v
  {
    match v
    case Number(text) => text != [] && forall u | u in text :: IsNumberUnit(u)
    case Arr(items) => forall item | item in items :: Valid(item)
    case Obj(fields) => DistinctKeys(fields) && forall f | f in fields :: Valid(f.value)
    case _ => true
  }

  // ----- Strings -----

  predicate HighSurrogate(u: Unit) { 0xD800 <= u <= 0xDBFF }

  predicate LowSurrogate(u: Unit) { 0xDC00 <= u <= 0xDFFF }

  function Hex(digit: Unit): Unit
    requires digit < 16
  {
    if digit < 10 then 48 + digit else 87 + digit
  }

  function LongEscape(u: Unit): Text {
    var a := u / 16;
    var b := a / 16;
    [BACKSLASH, 117, Hex(b / 16), Hex(b % 16), Hex(a % 16), Hex(u % 16)]
  }

  /** The letter of a two-character escape, 0 where there is none. */
  function ShortEscape(u: Unit): Unit {
    if u == 8 then 98 else if u == 9 then 116 else if u == 10 then 110 else if u == 12 then 102
    else if u == 13 then 114 else if u == QUOTE then QUOTE else if u == BACKSLASH then BACKSLASH else 0
  }

  /** How many code units are printed together: a surrogate pair, or one. */
  function Taken(s: Text): nat
    requires s != []
  {
    if HighSurrogate(s[0]) && |s| > 1 && LowSurrogate(s[1]) then 2 else 1
  }

  function Chunk(s: Text): Text
    requires s != []
  {
    if Taken(s) == 2 then s[..2]
    else if ShortEscape(s[0]) != 0 then [BACKSLASH, ShortEscape(s[0])]
    else if s[0] < 32 || HighSurrogate(s[0]) || LowSurrogate(s[0]) then LongEscape(s[0])
    else [s[0]]
  }

  function Escaped(s: Text): Text
    decreases |s|
  {
    if s == [] then [] else Chunk(s) + Escaped(s[Taken(s)..])
  }

  function Quoted(s: Text): Text {
    [QUOTE] + (Escaped(s) + [QUOTE])
  }

  // ----- JSON.stringify -----

  function Print(v: Json): Text
    decreases v, 0
  {
    match v
    case Null => [110, 117, 108, 108]
    case Bool(value) => if value then [116, 114, 117, 101] else [102, 97, 108, 115, 101]
    case Number(text) => text
    case Str(text) => Quoted(text)
    case Arr(items) => [OPEN_ARRAY] + (if items == [] then [CLOSE_ARRAY] else Print(items[0]) + PrintItems(items[1..]))
    case Obj(fields) =>
      [OPEN_OBJECT] + (if fields == [] then [CLOSE_OBJECT]
                       else Quoted(fields[0].key) + ([COLON] + (Print(fields[0].value) + PrintFields(fields[1..]))))
  }

  function PrintItems(items: seq<Json>): Text
    decreases items, 0
  {
    if items == [] then [CLOSE_ARRAY] else [COMMA] + (Print(items[0]) + PrintItems(items[1..]))
  }

  function PrintFields(fields: seq<Field>): Text
    decreases fields, 0
  {
    if fields == [] then [CLOSE_OBJECT]
    else [COMMA] + (Quoted(fields[0].key) + ([COLON] + (Print(fields[0].value) + PrintFields(fields[1..]))))
  }

  // ----- Nothing is lost in printing -----

  lemma HexInjective(a: Unit, b: Unit)
    requires a < 16 && b < 16 && Hex(a) == Hex(b)
    ensures a == b
  {
  }

  lemma SplitBy16(a: Unit, b: Unit)
    requires a / 16 == b / 16 && a % 16 == b % 16
    ensures a == b
  {
    assert a == 16 * (a / 16) + a % 16 && b == 16 * (b / 16) + b % 16;
  }

  lemma LongEscapeInjective(a: Unit, b: Unit)
    requires LongEscape(a) == LongEscape(b)
    ensures a == b
  {
    var x, y := LongEscape(a), LongEscape(b);
    assert x[2] == y[2] && x[3] == y[3] && x[4] == y[4] && x[5] == y[5];
    HexInjective(a / 16 / 16 / 16, b / 16 / 16 / 16);
    HexInjective(a / 16 / 16 % 16, b / 16 / 16 % 16);
    HexInjective(a / 16 % 16, b / 16 % 16);
    HexInjective(a % 16, b % 16);
    SplitBy16(a / 16 / 16, b / 16 / 16);
    SplitBy16(a / 16, b / 16);
    SplitBy16(a, b);
  }

  /** The first two code units tell how long a chunk is. */
  lemma ChunkLength(s: Text)
    requires s != []
    ensures var c := Chunk(s);
            && c != [] && c[0] != QUOTE
            && (c[0] == BACKSLASH <==> |c| > 1 && !HighSurrogate(c[0]))
            && (c[0] == BACKSLASH ==> |c| == if c[1] == 117 then 6 else 2)
            && (HighSurrogate(c[0]) ==> |c| == 2)
  {
  }

  lemma ConcatAt(a: Text, b: Text, i: nat)
    requires i < |a|
    ensures (a + b)[i] == a[i]
  {
  }

  lemma ConcatCancel(a: Text, x: Text, b: Text, y: Text)
    requires a + x == b + y && |a| == |b|
    ensures a == b && x == y
  {
    assert a == (a + x)[..|a|] == (b + y)[..|b|] == b;
    assert x == (a + x)[|a|..] == (b + y)[|b|..] == y;
  }

  /** A chunk is determined by any text that begins with it. */
  lemma ChunkDetermined(s: Text, t: Text, x: Text, y: Text)
    requires s != [] && t != [] && Chunk(s) + x == Chunk(t) + y
    ensures Chunk(s) == Chunk(t) && x == y
  {
    ChunkLength(s);
    ChunkLength(t);
    var c, d := Chunk(s), Chunk(t);
    ConcatAt(c, x, 0);
    ConcatAt(d, y, 0);
    if |c| > 1 && |d| > 1 {
      ConcatAt(c, x, 1);
      ConcatAt(d, y, 1);
    }
    ConcatCancel(c, x, d, y);
  }

  lemma EscapeInjective(s: Text, t: Text)
    requires s != [] && t != [] && Chunk(s) == Chunk(t) && Chunk(s)[0] == BACKSLASH
    ensures Taken(s) == Taken(t) == 1 && s[0] == t[0]
  {
    var c, d := Chunk(s), Chunk(t);
    assert c[0] == d[0] && c[1] == d[1];
    if c[1] == 117 { LongEscapeInjective(s[0], t[0]); }
  }

  lemma ChunkInjective(s: Text, t: Text)
    requires s != [] && t != [] && Chunk(s) == Chunk(t)
    ensures Taken(s) == Taken(t) && s[..Taken(s)] == t[..Taken(t)]
  {
    ChunkLength(s);
    if Chunk(s)[0] == BACKSLASH { EscapeInjective(s, t); } else { assert Chunk(s)[0] == Chunk(t)[0]; }
  }

  lemma {:induction false} EscapedDetermined(s: Text, t: Text, x: Text, y: Text)
    requires Escaped(s) + [QUOTE] + x == Escaped(t) + [QUOTE] + y
    ensures s == t && x == y
    decreases |s|
  {
    if s == [] || t == [] {
      if s != [] { ChunkLength(s); EscapedBegins(s, x); EscapedBegins(t, y); }
      else if t != [] { ChunkLength(t); EscapedBegins(s, x); EscapedBegins(t, y); }
      else {
        assert Escaped(s) + [QUOTE] + x == [QUOTE] + x && Escaped(t) + [QUOTE] + y == [QUOTE] + y;
        ConcatCancel([QUOTE], x, [QUOTE], y);
      }
    } else {
      var s', t' := s[Taken(s)..], t[Taken(t)..];
      EscapedBegins(s, x);
      EscapedBegins(t, y);
      ChunkDetermined(s, t, Escaped(s') + [QUOTE] + x, Escaped(t') + [QUOTE] + y);
      ChunkInjective(s, t);
      EscapedDetermined(s', t', x, y);
      assert s == s[..Taken(s)] + s' && t == t[..Taken(t)] + t';
    }
  }

  lemma EscapedBegins(s: Text, x: Text)
    ensures s != [] ==> Escaped(s) + [QUOTE] + x == Chunk(s) + (Escaped(s[Taken(s)..]) + [QUOTE] + x)
    ensures (Escaped(s) + [QUOTE] + x)[0] == if s == [] then QUOTE else Chunk(s)[0]
  {
    if s != [] { ChunkLength(s); }
  }

  lemma QuotedDetermined(s: Text, t: Text, x: Text, y: Text)
    requires Quoted(s) + x == Quoted(t) + y
    ensures s == t && x == y
  {
    DropUnit(QUOTE, Escaped(s) + [QUOTE], x, Escaped(t) + [QUOTE], y);
    EscapedDetermined(s, t, x, y);
  }

  /** What follows a value never continues a number. */
  predicate Ends(x: Text) {
    x == [] || !IsNumberUnit(x[0])
  }

  /** The kind of a value, as its first code unit shows it. */
  function KindUnit(v: Json): Unit {
    match v
    case Null => 110
    case Bool(value) => if value then 116 else 102
    case Number(_) => 48
    case Str(_) => QUOTE
    case Arr(_) => OPEN_ARRAY
    case Obj(_) => OPEN_OBJECT
  }

  lemma FirstUnit(v: Json)
    requires Valid(v)
    ensures var p := Print(v);
            p != [] && (if v.Number? then IsNumberUnit(p[0]) else p[0] == KindUnit(v))
  {
  }

  lemma SameKind(a: Json, b: Json, x: Text, y: Text)
    requires Valid(a) && Valid(b) && Print(a) + x == Print(b) + y
    ensures KindUnit(a) == KindUnit(b)
  {
    FirstUnit(a);
    FirstUnit(b);
    ConcatAt(Print(a), x, 0);
    ConcatAt(Print(b), y, 0);
  }

  function NumberSpan(s: Text): nat {
    if s == [] || !IsNumberUnit(s[0]) then 0 else 1 + NumberSpan(s[1..])
  }

  lemma {:induction false} SpanOfNumber(a: Text, x: Text)
    requires Ends(x) && forall u | u in a :: IsNumberUnit(u)
    ensures NumberSpan(a + x) == |a|
    decreases |a|
  {
    if a == [] {
      assert a + x == x;
    } else {
      assert (a + x)[1..] == a[1..] + x;
      SpanOfNumber(a[1..], x);
    }
  }

  lemma NumberDetermined(a: Text, b: Text, x: Text, y: Text)
    requires a + x == b + y && Ends(x) && Ends(y)
    requires forall u | u in a :: IsNumberUnit(u)
    requires forall u | u in b :: IsNumberUnit(u)
    ensures a == b && x == y
  {
    SpanOfNumber(a, x);
    SpanOfNumber(b, y);
    ConcatCancel(a, x, b, y);
  }

  lemma Regroup(a: Text, b: Text, c: Text)
    ensures (a + b) + c == a + (b + c)
  {
  }

  /** Both texts begin with the same code unit: so do their remainders agree. */
  lemma DropUnit(u: Unit, s: Text, x: Text, t: Text, y: Text)
    requires ([u] + s) + x == ([u] + t) + y
    ensures s + x == t + y
  {
    Regroup([u], s, x);
    Regroup([u], t, y);
    ConcatCancel([u], s + x, [u], t + y);
  }

  lemma {:induction false} PrintDetermined(a: Json, b: Json, x: Text, y: Text)
    requires Valid(a) && Valid(b) && Ends(x) && Ends(y)
    requires Print(a) + x == Print(b) + y
    ensures a == b && x == y
    decreases a, 1
  {
    SameKind(a, b, x, y);
    match a
    case Number(text) => NumberDetermined(text, b.text, x, y);
    case Str(text) => QuotedDetermined(text, b.text, x, y);
    case Arr(items) => ArrayDetermined(a, b, x, y);
    case Obj(fields) => ObjectDetermined(a, b, x, y);
    case _ => ConcatCancel(Print(a), x, Print(b), y);
  }

  function ArrayText(items: seq<Json>): Text {
    if items == [] then [CLOSE_ARRAY] else Print(items[0]) + PrintItems(items[1..])
  }

  lemma {:induction false} ArrayDetermined(a: Json, b: Json, x: Text, y: Text)
    requires Valid(a) && Valid(b) && Ends(x) && Ends(y) && a.Arr? && b.Arr?
    requires Print(a) + x == Print(b) + y
    ensures a == b && x == y
    decreases a, 0
  {
    var vs, ws := a.items, b.items;
    DropUnit(OPEN_ARRAY, ArrayText(vs), x, ArrayText(ws), y);
    FirstOfArray(vs, x);
    FirstOfArray(ws, y);
    if vs == [] {
      ConcatCancel([CLOSE_ARRAY], x, [CLOSE_ARRAY], y);
    } else {
      ItemDetermined(vs, ws, x, y);
    }
  }

  lemma FirstOfArray(items: seq<Json>, x: Text)
    requires forall v | v in items :: Valid(v)
    ensures var t := ArrayText(items) + x; t != [] && (t[0] == CLOSE_ARRAY <==> items == [])
  {
    if items != [] { FirstUnit(items[0]); }
  }

  lemma {:induction false} ItemDetermined(vs: seq<Json>, ws: seq<Json>, x: Text, y: Text)
    requires (forall v | v in vs :: Valid(v)) && (forall v | v in ws :: Valid(v))
    requires vs != [] && ws != [] && Ends(x) && Ends(y)
    requires (Print(vs[0]) + PrintItems(vs[1..])) + x == (Print(ws[0]) + PrintItems(ws[1..])) + y
    ensures vs == ws && x == y
    decreases vs, 2
  {
    Regroup(Print(vs[0]), PrintItems(vs[1..]), x);
    Regroup(Print(ws[0]), PrintItems(ws[1..]), y);
    PrintDetermined(vs[0], ws[0], PrintItems(vs[1..]) + x, PrintItems(ws[1..]) + y);
    ItemsDetermined(vs[1..], ws[1..], x, y);
    assert vs == [vs[0]] + vs[1..] && ws == [ws[0]] + ws[1..];
  }

  lemma {:induction false} ItemsDetermined(vs: seq<Json>, ws: seq<Json>, x: Text, y: Text)
    requires (forall v | v in vs :: Valid(v)) && (forall v | v in ws :: Valid(v))
    requires Ends(x) && Ends(y) && PrintItems(vs) + x == PrintItems(ws) + y
    ensures vs == ws && x == y
    decreases vs, 3
  {
    ConcatAt(PrintItems(vs), x, 0);
    ConcatAt(PrintItems(ws), y, 0);
    if vs == [] {
      ConcatCancel([CLOSE_ARRAY], x, [CLOSE_ARRAY], y);
    } else {
      DropUnit(COMMA, Print(vs[0]) + PrintItems(vs[1..]), x, Print(ws[0]) + PrintItems(ws[1..]), y);
      ItemDetermined(vs, ws, x, y);
    }
  }

  function FieldText(fields: seq<Field>): (t: Text)
    requires fields != []
    ensures t != [] && t[0] == QUOTE
  {
    Quoted(fields[0].key) + ([COLON] + (Print(fields[0].value) + PrintFields(fields[1..])))
  }

  function ObjectText(fields: seq<Field>): Text {
    if fields == [] then [CLOSE_OBJECT] else FieldText(fields)
  }

  lemma {:induction false} ObjectDetermined(a: Json, b: Json, x: Text, y: Text)
    requires Valid(a) && Valid(b) && Ends(x) && Ends(y) && a.Obj? && b.Obj?
    requires Print(a) + x == Print(b) + y
    ensures a == b && x == y
    decreases a, 0
  {
    var fs, gs := a.fields, b.fields;
    DropUnit(OPEN_OBJECT, ObjectText(fs), x, ObjectText(gs), y);
    ConcatAt(ObjectText(fs), x, 0);
    ConcatAt(ObjectText(gs), y, 0);
    if fs == [] {
      ConcatCancel([CLOSE_OBJECT], x, [CLOSE_OBJECT], y);
    } else {
      FieldDetermined(fs, gs, x, y);
    }
  }

  lemma {:induction false} FieldDetermined(fs: seq<Field>, gs: seq<Field>, x: Text, y: Text)
    requires (forall f | f in fs :: Valid(f.value)) && (forall f | f in gs :: Valid(f.value))
    requires fs != [] && gs != [] && Ends(x) && Ends(y) && FieldText(fs) + x == FieldText(gs) + y
    ensures fs == gs && x == y
    decreases fs, 2
  {
    var s, t := Print(fs[0].value) + PrintFields(fs[1..]), Print(gs[0].value) + PrintFields(gs[1..]);
    Regroup(Quoted(fs[0].key), [COLON] + s, x);
    Regroup(Quoted(gs[0].key), [COLON] + t, y);
    QuotedDetermined(fs[0].key, gs[0].key, ([COLON] + s) + x, ([COLON] + t) + y);
    DropUnit(COLON, s, x, t, y);
    Regroup(Print(fs[0].value), PrintFields(fs[1..]), x);
    Regroup(Print(gs[0].value), PrintFields(gs[1..]), y);
    PrintDetermined(fs[0].value, gs[0].value, PrintFields(fs[1..]) + x, PrintFields(gs[1..]) + y);
    FieldsDetermined(fs[1..], gs[1..], x, y);
    assert fs == [fs[0]] + fs[1..] && gs == [gs[0]] + gs[1..];
  }

  lemma {:induction false} FieldsDetermined(fs: seq<Field>, gs: seq<Field>, x: Text, y: Text)
    requires (forall f | f in fs :: Valid(f.value)) && (forall f | f in gs :: Valid(f.value))
    requires Ends(x) && Ends(y) && PrintFields(fs) + x == PrintFields(gs) + y
    ensures fs == gs && x == y
    decreases fs, 3
  {
    ConcatAt(PrintFields(fs), x, 0);
    ConcatAt(PrintFields(gs), y, 0);
    if fs == [] {
      ConcatCancel([CLOSE_OBJECT], x, [CLOSE_OBJECT], y);
    } else {
      DropUnit(COMMA, FieldText(fs), x, FieldText(gs), y);
      FieldDetermined(fs, gs, x, y);
    }
  }

  /** JSON.stringify is injective. */
  lemma PrintInjective(a: Json, b: Json)
    requires Valid(a) && Valid(b) && Print(a) == Print(b)
    ensures a == b
  {
    assert Print(a) + [] == Print(b) + [];
    PrintDetermined(a, b, [], []);
  }
}
