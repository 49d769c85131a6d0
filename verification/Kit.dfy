/**
 * The recovery kit page: a record written as JSON, escaped so that it cannot leave the script it
 * is put in, and spliced into the page template. Text is a sequence of UTF-16 code units, as the
 * browser's strings are, so lone surrogates are covered too.
 */
module Kit {
  import opened Wrappers
  import Decimal

  type Unit = n: nat | n < 0x1_0000 witness 0

  type Text = seq<Unit>

  const QUOTE: Unit := 34
  const COMMA: Unit := 44
  const COLON: Unit := 58
  const LESS: Unit := 60
  const BACKSLASH: Unit := 92
  const LETTER_U: Unit := 117
  const OPEN_BRACE: Unit := 123
  const CLOSE_BRACE: Unit := 125

  predicate Ascii(s: string) {
    forall i :: 0 <= i < |s| ==> s[i] as int < 128
  }

  function Units(s: string): (t: Text)
    requires Ascii(s)
    ensures |t| == |s| && forall i :: 0 <= i < |s| ==> t[i] == s[i] as int
  {
    seq(|s|, i requires 0 <= i < |s| => s[i] as int)
  }

  // ----- escapes -----

  function HexDigit(d: nat): Unit
    requires d < 16
  {
    if d < 10 then 48 + d else 87 + d
  }

  function HexValue(u: Unit): Option<nat> {
    if 48 <= u <= 57 then Some(u - 48)
    else if 97 <= u <= 102 then Some(u - 87)
    else if 65 <= u <= 70 then Some(u - 55)
    else None
  }

  function UnicodeEscape(u: Unit): Text {
    [BACKSLASH, LETTER_U, HexDigit(u / 4096), HexDigit(u / 256 % 16), HexDigit(u / 16 % 16), HexDigit(u % 16)]
  }

  function ReadHex4(t: Text): Option<Unit>
    requires |t| >= 4
  {
    match (HexValue(t[0]), HexValue(t[1]), HexValue(t[2]), HexValue(t[3]))
    case (Some(a), Some(b), Some(c), Some(d)) =>
      if a < 16 && b < 16 && c < 16 && d < 16 then Some(a * 4096 + b * 256 + c * 16 + d) else None
    case _ => None
  }

  lemma Hex4RoundTrip(u: Unit, rest: Text)
    ensures ReadHex4(UnicodeEscape(u)[2..] + rest) == Some(u)
  {
    var a, b, c, d := u / 4096, u / 256 % 16, u / 16 % 16, u % 16;
    assert HexValue(HexDigit(a)) == Some(a) && HexValue(HexDigit(b)) == Some(b);
    assert HexValue(HexDigit(c)) == Some(c) && HexValue(HexDigit(d)) == Some(d);
    assert u == a * 4096 + b * 256 + c * 16 + d by {
      assert u / 256 / 16 == a && u / 16 / 16 == u / 256;
    }
  }

  /** The short escape letter of a character that has one. */
  function ShortEscape(u: Unit): Option<Unit> {
    if u == 8 then Some(98)
    else if u == 9 then Some(116)
    else if u == 10 then Some(110)
    else if u == 12 then Some(102)
    else if u == 13 then Some(114)
    else if u == QUOTE || u == BACKSLASH then Some(u)
    else None
  }

  function ReadShort(u: Unit): Option<Unit> {
    if u == 98 then Some(8)
    else if u == 116 then Some(9)
    else if u == 110 then Some(10)
    else if u == 102 then Some(12)
    else if u == 114 then Some(13)
    else if u == QUOTE || u == BACKSLASH || u == 47 then Some(u)
    else None
  }

  predicate Leading(u: Unit) {
    0xD800 <= u < 0xDC00
  }

  predicate Trailing(u: Unit) {
    0xDC00 <= u < 0xE000
  }

  predicate StartsPair(s: Text) {
    |s| >= 2 && Leading(s[0]) && Trailing(s[1])
  }

  /** One code unit inside a JSON string, when it does not start a surrogate pair. */
  function EscapeUnit(u: Unit): Text {
    match ShortEscape(u)
    case Some(letter) => [BACKSLASH, letter]
    case None => if u < 32 || Leading(u) || Trailing(u) then UnicodeEscape(u) else [u]
  }

  /** The body of a JSON string literal, as JSON.stringify writes it. */
  function Escape(s: Text): Text {
    if s == [] then []
    else if StartsPair(s) then s[..2] + Escape(s[2..])
    else EscapeUnit(s[0]) + Escape(s[1..])
  }

  /** Replaces every `<` by its JSON escape. */
  function HideLess(t: Text): Text {
    if t == [] then []
    else (if t[0] == LESS then UnicodeEscape(LESS) else [t[0]]) + HideLess(t[1..])
  }

  lemma {:induction false} HideLessAppend(a: Text, b: Text)
    ensures HideLess(a + b) == HideLess(a) + HideLess(b)
  {
    if a == [] {
      assert a + b == b;
    } else {
      assert (a + b)[1..] == a[1..] + b;
      HideLessAppend(a[1..], b);
    }
  }

  lemma {:induction false} HideLessLeavesNone(t: Text)
    ensures LESS !in HideLess(t)
  {
    if t != [] {
      HideLessLeavesNone(t[1..]);
    }
  }

  lemma {:induction false} HideLessSkips(t: Text)
    requires LESS !in t
    ensures HideLess(t) == t
  {
    if t != [] {
      assert t == [t[0]] + t[1..];
      HideLessSkips(t[1..]);
    }
  }

  // ----- reading strings back -----

  type ReadText = Option<(Text, Text)>

  function Prepend(u: Text, r: ReadText): ReadText {
    match r
    case None => None
    case Some((s, rest)) => Some((u + s, rest))
  }

  /** A JSON string body up to its closing quote, and what follows it (RFC 8259, section 7). */
  function ReadBody(t: Text): (r: ReadText)
    ensures r.Some? ==> |r.value.1| < |t|
  {
    if t == [] then None
    else if t[0] == QUOTE then Some(([], t[1..]))
    else if t[0] != BACKSLASH then (if t[0] < 32 then None else Prepend([t[0]], ReadBody(t[1..])))
    else if |t| >= 6 && t[1] == LETTER_U then
      (match ReadHex4(t[2..])
       case None => None
       case Some(u) => Prepend([u], ReadBody(t[6..])))
    else if |t| >= 2 then
      (match ReadShort(t[1])
       case None => None
       case Some(u) => Prepend([u], ReadBody(t[2..])))
    else None
  }

  lemma ReadUnicodeEscape(u: Unit, tail: Text)
    ensures ReadBody(UnicodeEscape(u) + tail) == Prepend([u], ReadBody(tail))
  {
    var t := UnicodeEscape(u) + tail;
    Hex4RoundTrip(u, tail);
    assert t[2..] == UnicodeEscape(u)[2..] + tail;
    assert t[6..] == tail;
  }

  /** One escaped unit, with `<` hidden, reads back as that unit. */
  lemma ReadEscapedUnit(u: Unit, tail: Text)
    ensures ReadBody(HideLess(EscapeUnit(u)) + tail) == Prepend([u], ReadBody(tail))
  {
    if ShortEscape(u).Some? {
      var e := [BACKSLASH, ShortEscape(u).value];
      HideLessSkips(e);
      var t := e + tail;
      assert t[2..] == tail && t[1] != LETTER_U;
    } else if u < 32 || Leading(u) || Trailing(u) {
      HideLessSkips(UnicodeEscape(u));
      ReadUnicodeEscape(u, tail);
    } else if u == LESS {
      assert HideLess([LESS]) == UnicodeEscape(LESS) + HideLess([LESS][1..]);
      assert UnicodeEscape(LESS) + [] == UnicodeEscape(LESS);
      ReadUnicodeEscape(LESS, tail);
    } else {
      HideLessSkips([u]);
      assert ([u] + tail)[1..] == tail;
    }
  }

  /** A written string, with every `<` hidden, reads back unchanged, backslashes and all. */
  lemma {:induction false} ReadEscaped(s: Text, rest: Text)
    ensures ReadBody(HideLess(Escape(s)) + [QUOTE] + rest) == Some((s, rest))
    decreases |s|
  {
    hide HideLess, EscapeUnit, ReadBody;
    if s == [] {
      NothingLeft(rest);
    } else if StartsPair(s) {
      HideLessAppend(s[..2], Escape(s[2..]));
      ReadEscaped(s[2..], rest);
      var tail := HideLess(Escape(s[2..])) + [QUOTE] + rest;
      assert HideLess(Escape(s)) + [QUOTE] + rest == HideLess(s[..2]) + tail;
      ReadPair(s, tail);
      assert s[..2] + s[2..] == s;
    } else {
      HideLessAppend(EscapeUnit(s[0]), Escape(s[1..]));
      ReadEscaped(s[1..], rest);
      var tail := HideLess(Escape(s[1..])) + [QUOTE] + rest;
      assert HideLess(Escape(s)) + [QUOTE] + rest == HideLess(EscapeUnit(s[0])) + tail;
      ReadEscapedUnit(s[0], tail);
      assert [s[0]] + s[1..] == s;
    }
  }

  lemma NothingLeft(rest: Text)
    ensures ReadBody(HideLess(Escape([])) + [QUOTE] + rest) == Some(([], rest))
  {}

  lemma ReadPair(s: Text, tail: Text)
    requires StartsPair(s)
    ensures ReadBody(HideLess(s[..2]) + tail) == Prepend(s[..2], ReadBody(tail))
  {
    HideLessSkips(s[..2]);
    var t := s[..2] + tail;
    assert t[1..] == [s[1]] + tail;
    assert t[1..][1..] == tail;
    assert ReadBody(t[1..]) == Prepend([s[1]], ReadBody(tail));
    assert [s[0]] + [s[1]] == s[..2];
    if ReadBody(tail).Some? {
      assert [s[0]] + ([s[1]] + ReadBody(tail).value.0) == s[..2] + ReadBody(tail).value.0;
    }
  }

  // ----- records -----

  datatype Value = Str(text: Text) | Num(n: nat) | Null

  datatype Field = Field(name: Text, value: Value)

  const NULL_TEXT: Text := [110, 117, 108, 108]

  function Quoted(s: Text): Text {
    [QUOTE] + Escape(s) + [QUOTE]
  }

  function WriteValue(v: Value): Text {
    match v
    case Str(s) => Quoted(s)
    case Num(n) => PrintUnits(n)
    case Null => NULL_TEXT
  }

  function PrintUnits(n: nat): Text {
    var s := Decimal.Print(n);
    seq(|s|, i requires 0 <= i < |s| => s[i] as int)
  }

  function WriteField(f: Field): Text {
    Quoted(f.name) + [COLON] + WriteValue(f.value)
  }

  function WriteFields(fs: seq<Field>): Text
    requires fs != []
  {
    if |fs| == 1 then WriteField(fs[0]) + [CLOSE_BRACE]
    else WriteField(fs[0]) + [COMMA] + WriteFields(fs[1..])
  }

  /** JSON.stringify of a record with at least one field. */
  function Stringify(fs: seq<Field>): Text
    requires fs != []
  {
    [OPEN_BRACE] + WriteFields(fs)
  }

  predicate DigitUnit(u: Unit) {
    48 <= u <= 57
  }

  function DigitUnits(t: Text): (k: nat)
    ensures k <= |t| && (forall i :: 0 <= i < k ==> DigitUnit(t[i])) && (k < |t| ==> !DigitUnit(t[k]))
  {
    if t == [] || !DigitUnit(t[0]) then 0 else 1 + DigitUnits(t[1..])
  }

  function DigitText(t: Text): (s: string)
    requires forall i :: 0 <= i < |t| ==> DigitUnit(t[i])
    ensures Decimal.AllDigits(s) && |s| == |t| && forall i :: 0 <= i < |t| ==> s[i] as int == t[i]
  {
    seq(|t|, i requires 0 <= i < |t| && DigitUnit(t[i]) => Decimal.DigitChar(t[i] - 48))
  }

  function ReadValue(t: Text): (r: Option<(Value, Text)>)
    ensures r.Some? ==> |r.value.1| < |t|
  {
    if t == [] then None
    else if t[0] == QUOTE then
      (match ReadBody(t[1..])
       case None => None
       case Some((s, rest)) => Some((Str(s), rest)))
    else if NULL_TEXT <= t then Some((Null, t[4..]))
    else
      var k := DigitUnits(t);
      if k == 0 then None else Some((Num(Decimal.Read(DigitText(t[..k]))), t[k..]))
  }

  function ReadField(t: Text): (r: Option<(Field, Text)>)
    ensures r.Some? ==> |r.value.1| < |t|
  {
    if t == [] || t[0] != QUOTE then None
    else
      match ReadBody(t[1..])
      case None => None
      case Some((name, rest)) =>
        if rest == [] || rest[0] != COLON then None
        else
          match ReadValue(rest[1..])
          case None => None
          case Some((v, tail)) => Some((Field(name, v), tail))
  }

  function ReadFields(t: Text): Option<seq<Field>>
    decreases |t|
  {
    match ReadField(t)
    case None => None
    case Some((f, rest)) =>
      if rest == [CLOSE_BRACE] then Some([f])
      else if rest == [] || rest[0] != COMMA then None
      else
        match ReadFields(rest[1..])
        case None => None
        case Some(fs) => Some([f] + fs)
  }

  /** The reader of the kit page: JSON.parse on a record. */
  function Parse(t: Text): Option<seq<Field>> {
    if t == [] || t[0] != OPEN_BRACE then None else ReadFields(t[1..])
  }

  lemma HideQuoted(s: Text)
    ensures HideLess(Quoted(s)) == [QUOTE] + HideLess(Escape(s)) + [QUOTE]
  {
    HideLessAppend([QUOTE] + Escape(s), [QUOTE]);
    HideLessAppend([QUOTE], Escape(s));
    HideLessSkips([QUOTE]);
  }

  lemma ReadQuoted(s: Text, rest: Text)
    ensures var t := HideLess(Quoted(s)) + rest;
            t != [] && t[0] == QUOTE && ReadBody(t[1..]) == Some((s, rest))
  {
    hide ReadBody, HideLess, Escape;
    HideQuoted(s);
    ReadEscaped(s, rest);
    var t := HideLess(Quoted(s)) + rest;
    assert t[1..] == HideLess(Escape(s)) + [QUOTE] + rest;
  }

  lemma ReadNumber(n: nat, rest: Text)
    requires rest != [] && !DigitUnit(rest[0])
    ensures ReadValue(HideLess(PrintUnits(n)) + rest) == Some((Num(n), rest))
  {
    var s, d := Decimal.Print(n), PrintUnits(n);
    assert forall i :: 0 <= i < |d| ==> Decimal.IsDigit(s[i]) && DigitUnit(d[i]);
    HideLessSkips(d);
    var t := d + rest;
    assert forall i :: 0 <= i < |d| ==> t[i] == d[i];
    assert t[|d|] == rest[0];
    assert DigitUnits(t) == |d|;
    assert t[..|d|] == d && t[|d|..] == rest;
    assert DigitText(d) == s;
    Decimal.ReadPrint(n);
    assert t[0] != QUOTE && t[0] != NULL_TEXT[0];
  }

  lemma ReadWrittenValue(v: Value, rest: Text)
    requires rest != [] && !DigitUnit(rest[0])
    ensures ReadValue(HideLess(WriteValue(v)) + rest) == Some((v, rest))
  {
    match v
    case Str(s) =>
      ReadQuoted(s, rest);
    case Num(n) =>
      ReadNumber(n, rest);
    case Null =>
      HideLessSkips(NULL_TEXT);
      assert (NULL_TEXT + rest)[4..] == rest;
  }

  lemma ReadWrittenField(f: Field, rest: Text)
    requires rest != [] && !DigitUnit(rest[0])
    ensures ReadField(HideLess(WriteField(f)) + rest) == Some((f, rest))
  {
    hide HideLess, Quoted, WriteValue, ReadBody, ReadValue;
    var value := HideLess(WriteValue(f.value)) + rest;
    HideLessAppend(Quoted(f.name) + [COLON], WriteValue(f.value));
    HideLessAppend(Quoted(f.name), [COLON]);
    HideLessSkips([COLON]);
    assert HideLess(WriteField(f)) + rest == HideLess(Quoted(f.name)) + ([COLON] + value);
    ReadQuoted(f.name, [COLON] + value);
    assert ([COLON] + value)[1..] == value;
    ReadWrittenValue(f.value, rest);
  }

  lemma {:induction false} ReadWrittenFields(fs: seq<Field>)
    requires fs != []
    ensures ReadFields(HideLess(WriteFields(fs))) == Some(fs)
    decreases |fs|
  {
    hide HideLess, WriteField, ReadField;
    var f := fs[0];
    if |fs| == 1 {
      HideLessAppend(WriteField(f), [CLOSE_BRACE]);
      HideLessSkips([CLOSE_BRACE]);
      ReadWrittenField(f, [CLOSE_BRACE]);
      assert fs == [f];
    } else {
      HideLessAppend(WriteField(f) + [COMMA], WriteFields(fs[1..]));
      HideLessAppend(WriteField(f), [COMMA]);
      HideLessSkips([COMMA]);
      var rest := [COMMA] + HideLess(WriteFields(fs[1..]));
      assert HideLess(WriteFields(fs)) == HideLess(WriteField(f)) + rest;
      ReadWrittenField(f, rest);
      assert rest[1..] == HideLess(WriteFields(fs[1..]));
      CommaIsNotAll(rest);
      ReadWrittenFields(fs[1..]);
      assert fs == [f] + fs[1..];
    }
  }

  lemma CommaIsNotAll(rest: Text)
    requires rest != [] && rest[0] == COMMA
    ensures rest != [CLOSE_BRACE]
  {}

  /** The JSON the page carries: no `<` in it, and the page's reader gets the record back from it. */
  lemma KitJsonRoundTrip(fs: seq<Field>)
    requires fs != []
    ensures LESS !in HideLess(Stringify(fs))
    ensures Parse(HideLess(Stringify(fs))) == Some(fs)
  {
    HideLessLeavesNone(Stringify(fs));
    HideLessAppend([OPEN_BRACE], WriteFields(fs));
    HideLessSkips([OPEN_BRACE]);
    ReadWrittenFields(fs);
    hide HideLess, WriteFields, ReadFields;
    assert ([OPEN_BRACE] + HideLess(WriteFields(fs)))[1..] == HideLess(WriteFields(fs));
  }

  /** How one code unit of a string is written: as JSON.stringify does, but for `<`. */
  lemma WrittenUnit(u: Unit)
    ensures HideLess(EscapeUnit(u)) ==
              if u == 34 || u == 92 then [92, u]
              else if u == 8 then [92, 98]
              else if u == 9 then [92, 116]
              else if u == 10 then [92, 110]
              else if u == 12 then [92, 102]
              else if u == 13 then [92, 114]
              else if u == 60 then [92, 117, 48, 48, 51, 99]
              else if u < 32 || 0xD800 <= u < 0xE000 then
                [92, 117, HexDigit(u / 4096), HexDigit(u / 256 % 16), HexDigit(u / 16 % 16), HexDigit(u % 16)]
              else [u]
  {
    var e := EscapeUnit(u);
    if u == 60 {
      assert e == [60] && e[1..] == [];
      assert HideLess(e) == UnicodeEscape(60) + HideLess([]);
    } else {
      HideLessSkips(e);
    }
  }

  /** A surrogate pair is written as it is. */
  lemma WrittenPair(high: Unit, low: Unit, rest: Text)
    requires 0xD800 <= high < 0xDC00 <= low < 0xE000
    ensures Escape([high, low] + rest) == [high, low] + Escape(rest)
  {
    var s := [high, low] + rest;
    assert s[..2] == [high, low] && s[2..] == rest;
  }

  /** How a field is written. */
  lemma WrittenField(name: Text, s: Text)
    ensures WriteField(Field(name, Null)) == [34] + Escape(name) + [34, 58, 110, 117, 108, 108]
    ensures WriteField(Field(name, Str(s))) == [34] + Escape(name) + [34, 58, 34] + Escape(s) + [34]
  {
    hide Escape;
  }

  /** How a record of two fields is written. */
  lemma WrittenRecord(f: Field, g: Field)
    ensures Stringify([f, g]) == [123] + WriteField(f) + [44] + WriteField(g) + [125]
  {
    hide WriteField;
    assert [f, g][1..] == [g];
    assert WriteFields([g]) == WriteField(g) + [125];
    assert WriteFields([f, g]) == WriteField(f) + [44] + WriteFields([g]);
  }

  // ----- splicing -----

  predicate OccursAt(t: Text, p: Text, i: nat) {
    i + |p| <= |t| && t[i..i + |p|] == p
  }

  ghost predicate Contains(t: Text, p: Text) {
    exists i :: OccursAt(t, p, i)
  }

  /** The leftmost occurrence at or after `i`. */
  function Find(t: Text, p: Text, i: nat): (r: Option<nat>)
    requires i <= |t|
    ensures r.Some? ==> i <= r.value && OccursAt(t, p, r.value)
    ensures forall j :: i <= j && (r.None? || j < r.value) ==> !OccursAt(t, p, j)
    decreases |t| - i
  {
    if OccursAt(t, p, i) then Some(i)
    else if i == |t| then None
    else Find(t, p, i + 1)
  }

  /** Splitting a text at every occurrence of a separator, left to right. */
  function Split(t: Text, p: Text): (r: seq<Text>)
    requires p != []
    ensures r != []
    decreases |t|
  {
    match Find(t, p, 0)
    case None => [t]
    case Some(k) => [t[..k]] + Split(t[k + |p|..], p)
  }

  function Join(pieces: seq<Text>, sep: Text): Text
    requires pieces != []
  {
    if |pieces| == 1 then pieces[0] else pieces[0] + sep + Join(pieces[1..], sep)
  }

  function SpliceKit(template: Text, placeholder: Text, fs: seq<Field>): Text
    requires placeholder != [] && fs != []
  {
    Join(Split(template, placeholder), HideLess(Stringify(fs)))
  }

  /** The pieces are the template without its placeholders: none is left in a piece, none is lost. */
  lemma {:induction false} SplitPieces(t: Text, p: Text)
    requires p != []
    ensures Join(Split(t, p), p) == t
    ensures forall i :: 0 <= i < |Split(t, p)| ==> !Contains(Split(t, p)[i], p)
    decreases |t|
  {
    match Find(t, p, 0)
    case None =>
    case Some(k) =>
      var tail := t[k + |p|..];
      SplitPieces(tail, p);
      assert t == t[..k] + p + tail by {
        assert t[k..k + |p|] == p;
      }
      PrefixHasNone(t, p, k);
      var pieces := [t[..k]] + Split(tail, p);
      assert pieces[1..] == Split(tail, p);
      assert forall i :: 1 <= i < |pieces| ==> pieces[i] == Split(tail, p)[i - 1];
  }

  lemma PrefixHasNone(t: Text, p: Text, k: nat)
    requires p != [] && k <= |t| && forall j :: 0 <= j < k ==> !OccursAt(t, p, j)
    ensures !Contains(t[..k], p)
  {
    forall i: nat
      ensures !OccursAt(t[..k], p, i)
    {
      if i + |p| <= k {
        assert !OccursAt(t, p, i);
        assert t[..k][i..i + |p|] == t[i..i + |p|];
      }
    }
  }

  /** The placeholder after a part is the leftmost one: none begins inside the part. */
  ghost predicate Opens(part: Text, p: Text) {
    forall j :: 0 <= j < |part| ==> !OccursAt(part + p, p, j)
  }

  /** The parts of a template between its placeholders, as reading from the left finds them. */
  ghost predicate PartsOf(parts: seq<Text>, p: Text) {
    && parts != []
    && (forall i :: 0 <= i < |parts| - 1 ==> Opens(parts[i], p))
    && !Contains(parts[|parts| - 1], p)
  }

  lemma OpensFinds(part: Text, p: Text, rest: Text)
    requires p != [] && Opens(part, p)
    ensures Find(part + p + rest, p, 0) == Some(|part|)
  {
    var t := part + p + rest;
    assert t[|part|..|part| + |p|] == p;
    assert OccursAt(t, p, |part|);
    forall j | 0 <= j < |part|
      ensures !OccursAt(t, p, j)
    {
      assert !OccursAt(part + p, p, j);
      assert t[j..j + |p|] == (part + p)[j..j + |p|];
    }
  }

  /** Splitting finds exactly the parts a template was joined from. */
  lemma {:induction false} SplitJoined(parts: seq<Text>, p: Text)
    requires p != [] && PartsOf(parts, p)
    ensures Split(Join(parts, p), p) == parts
    decreases |parts|
  {
    hide OccursAt, Opens;
    var t := Join(parts, p);
    if |parts| == 1 {
      assert Find(t, p, 0) == None;
    } else {
      var rest := Join(parts[1..], p);
      assert Opens(parts[0], p);
      OpensFinds(parts[0], p, rest);
      assert t[|parts[0]| + |p|..] == rest && t[..|parts[0]|] == parts[0];
      assert forall i :: 0 <= i < |parts| - 2 ==> parts[1..][i] == parts[i + 1];
      SplitJoined(parts[1..], p);
      assert parts == [parts[0]] + parts[1..];
    }
  }

  /** Every template is joined from such parts, the pieces of its splitting. */
  lemma {:induction false} SplitIsParts(t: Text, p: Text)
    requires p != []
    ensures PartsOf(Split(t, p), p) && Join(Split(t, p), p) == t
    decreases |t|
  {
    SplitPieces(t, p);
    if Find(t, p, 0).Some? {
      var k := Find(t, p, 0).value;
      var tail := Split(t[k + |p|..], p);
      SplitIsParts(t[k + |p|..], p);
      var pieces := Split(t, p);
      assert pieces == [t[..k]] + tail;
      assert forall i :: 1 <= i < |pieces| ==> pieces[i] == tail[i - 1];
      forall j | 0 <= j < k
        ensures !OccursAt(t[..k] + p, p, j)
      {
        assert t[k..k + |p|] == p;
        assert t[..k] + p == t[..k + |p|];
        assert !OccursAt(t, p, j);
        assert t[..k + |p|][j..j + |p|] == t[j..j + |p|];
      }
      assert Opens(pieces[0], p);
    }
  }

  function CountLess(t: Text): nat {
    if t == [] then 0 else (if t[0] == LESS then 1 else 0) + CountLess(t[1..])
  }

  lemma {:induction false} CountLessAppend(a: Text, b: Text)
    ensures CountLess(a + b) == CountLess(a) + CountLess(b)
  {
    if a == [] {
      assert a + b == b;
    } else {
      assert (a + b)[1..] == a[1..] + b;
      CountLessAppend(a[1..], b);
    }
  }

  lemma {:induction false} NoLess(t: Text)
    requires LESS !in t
    ensures CountLess(t) == 0
  {
    if t != [] {
      NoLess(t[1..]);
    }
  }

  /** Joining with either of two separators free of `<` leaves the same number of them. */
  lemma {:induction false} JoinCountsLess(pieces: seq<Text>, a: Text, b: Text)
    requires pieces != [] && LESS !in a && LESS !in b
    ensures CountLess(Join(pieces, a)) == CountLess(Join(pieces, b))
    decreases |pieces|
  {
    hide CountLess;
    NoLess(a);
    NoLess(b);
    if |pieces| > 1 {
      JoinCountsLess(pieces[1..], a, b);
      CountLessAppend(pieces[0] + a, Join(pieces[1..], a));
      CountLessAppend(pieces[0] + b, Join(pieces[1..], b));
      CountLessAppend(pieces[0], a);
      CountLessAppend(pieces[0], b);
    }
  }

  /** The finished page has exactly the template's `<` characters: the data opens and closes no tag. */
  lemma SpliceAddsNoTag(template: Text, placeholder: Text, fs: seq<Field>)
    requires placeholder != [] && fs != [] && LESS !in placeholder
    ensures CountLess(SpliceKit(template, placeholder, fs)) == CountLess(template)
  {
    SplitPieces(template, placeholder);
    HideLessLeavesNone(Stringify(fs));
    JoinCountsLess(Split(template, placeholder), HideLess(Stringify(fs)), placeholder);
  }

  // ----- the kit itself -----

  const PLACEHOLDER: string := "__GHOSTKEY_KIT_DATA__"

  datatype Role = Owner | Heir

  datatype KitData = KitData(
    role: Role, generatedAt: Text, title: Option<Text>, vaultId: Text, network: Text, timelockBlocks: nat,
    descriptorExternal: Text, descriptorInternal: Text, passwordSalt: Text, kdfMemKiB: nat, kdfIters: nat,
    xprvCiphertext: Text, xprvNonce: Text)

  /** A field name, or the text of a role; these are all ASCII. */
  function Key(name: string): Text {
    if Ascii(name) then Units(name) else []
  }

  function VaultFields(d: KitData): seq<Field> {
    [Field(Key("v"), Num(1)),
     Field(Key("role"), Str(if d.role == Owner then Key("owner") else Key("heir"))),
     Field(Key("generated_at"), Str(d.generatedAt)),
     Field(Key("label"), if d.title.Some? then Str(d.title.value) else Null),
     Field(Key("vault_id"), Str(d.vaultId)),
     Field(Key("network"), Str(d.network)),
     Field(Key("timelock_blocks"), Num(d.timelockBlocks))]
  }

  function DescriptorFields(d: KitData): seq<Field> {
    [Field(Key("descriptor_external"), Str(d.descriptorExternal)),
     Field(Key("descriptor_internal"), Str(d.descriptorInternal))]
  }

  function SealedFields(d: KitData): seq<Field> {
    [Field(Key("password_salt_b64"), Str(d.passwordSalt)),
     Field(Key("password_kdf_mem_kib"), Num(d.kdfMemKiB)),
     Field(Key("password_kdf_iters"), Num(d.kdfIters)),
     Field(Key("owner_xprv_ct_b64"), Str(d.xprvCiphertext)),
     Field(Key("owner_xprv_nonce_b64"), Str(d.xprvNonce))]
  }

  /** The record spliced into the page, field by field in the order it is written. */
  function Record(d: KitData): (fs: seq<Field>)
    ensures |fs| == 14
  {
    VaultFields(d) + DescriptorFields(d) + SealedFields(d)
  }

  /** The record determines the kit's data: no field is dropped or merged. */
  lemma RecordInjective(d: KitData, e: KitData)
    requires Record(d) == Record(e)
    ensures d == e
  {
    hide Units, Key;
    assert VaultFields(d) == Record(d)[..7] && VaultFields(e) == Record(e)[..7];
    assert DescriptorFields(d) == Record(d)[7..9] && DescriptorFields(e) == Record(e)[7..9];
    assert SealedFields(d) == Record(d)[9..] && SealedFields(e) == Record(e)[9..];
    VaultFieldsInjective(d, e);
    assert DescriptorFields(d)[0] == DescriptorFields(e)[0] && DescriptorFields(d)[1] == DescriptorFields(e)[1];
    SealedFieldsInjective(d, e);
  }

  lemma VaultFieldsInjective(d: KitData, e: KitData)
    requires VaultFields(d) == VaultFields(e)
    ensures d.role == e.role && d.generatedAt == e.generatedAt && d.title == e.title
    ensures d.vaultId == e.vaultId && d.network == e.network && d.timelockBlocks == e.timelockBlocks
  {}

  lemma SealedFieldsInjective(d: KitData, e: KitData)
    requires SealedFields(d) == SealedFields(e)
    ensures d.passwordSalt == e.passwordSalt && d.kdfMemKiB == e.kdfMemKiB && d.kdfIters == e.kdfIters
    ensures d.xprvCiphertext == e.xprvCiphertext && d.xprvNonce == e.xprvNonce
  {}

  /** What a reader of the record finds under a name. */
  function ValueOf(fs: seq<Field>, name: Text): Option<Value> {
    if fs == [] then None
    else if fs[0].name == name then Some(fs[0].value)
    else ValueOf(fs[1..], name)
  }

  lemma {:induction false} ValueAt(fs: seq<Field>, i: nat)
    requires i < |fs| && forall j :: 0 <= j < i ==> fs[j].name != fs[i].name
    ensures ValueOf(fs, fs[i].name) == Some(fs[i].value)
  {
    if i > 0 {
      assert fs[1..][i - 1] == fs[i] && forall j :: 0 <= j < i - 1 ==> fs[1..][j] == fs[j + 1];
      ValueAt(fs[1..], i - 1);
    }
  }

  /** Different texts are different names. */
  lemma UnitsDiffer(a: string, b: string)
    requires Ascii(a) && Ascii(b)
    ensures Units(a) == Units(b) <==> a == b
  {
    if Units(a) == Units(b) {
      assert |a| == |b|;
      forall i | 0 <= i < |a|
        ensures a[i] == b[i]
      {
        assert Units(a)[i] == Units(b)[i];
      }
    }
  }

  /** The names the kit page looks for, in the order they are written. */
  const NAMES: seq<string> := [
    "v", "role", "generated_at", "label", "vault_id", "network", "timelock_blocks",
    "descriptor_external", "descriptor_internal",
    "password_salt_b64", "password_kdf_mem_kib", "password_kdf_iters", "owner_xprv_ct_b64", "owner_xprv_nonce_b64"]

  lemma NamesAscii(i: nat)
    requires i < |NAMES|
    ensures Ascii(NAMES[i])
  {}

  lemma NamesDiffer(i: nat, j: nat)
    requires i < j < |NAMES|
    ensures Key(NAMES[i]) != Key(NAMES[j])
  {
    NamesAscii(i);
    NamesAscii(j);
    var a, b := NAMES[i], NAMES[j];
    assert |a| != |b| || a[0] != b[0] || a[11] != b[11];
    hide NAMES;
    UnitsDiffer(a, b);
  }

  lemma RecordNames(d: KitData)
    ensures |NAMES| == 14 && forall i :: 0 <= i < 14 ==> Record(d)[i].name == Key(NAMES[i])
  {
    hide Key, Units;
  }

  lemma FoundAt(d: KitData, i: nat)
    requires i < |NAMES| == 14
    ensures Under(d, NAMES[i]) == Some(Record(d)[i].value)
  {
    hide Record, Key, ValueOf, NAMES;
    RecordNames(d);
    forall j | 0 <= j < i
      ensures Record(d)[j].name != Record(d)[i].name
    {
      NamesDiffer(j, i);
    }
    ValueAt(Record(d), i);
  }

  /** What the page's reader finds under a name. */
  function Under(d: KitData, name: string): Option<Value> {
    ValueOf(Record(d), Key(name))
  }

  /** Under each name the page's reader finds what belongs there. */
  lemma KitHolds(d: KitData)
    ensures Under(d, "v") == Some(Num(1))
    ensures Under(d, "role") == Some(Str(if d.role == Owner then Key("owner") else Key("heir")))
    ensures Under(d, "generated_at") == Some(Str(d.generatedAt))
    ensures Under(d, "label") == Some(if d.title.Some? then Str(d.title.value) else Null)
    ensures Under(d, "vault_id") == Some(Str(d.vaultId))
    ensures Under(d, "network") == Some(Str(d.network))
    ensures Under(d, "timelock_blocks") == Some(Num(d.timelockBlocks))
    ensures Under(d, "descriptor_external") == Some(Str(d.descriptorExternal))
    ensures Under(d, "descriptor_internal") == Some(Str(d.descriptorInternal))
    ensures Under(d, "password_salt_b64") == Some(Str(d.passwordSalt))
    ensures Under(d, "password_kdf_mem_kib") == Some(Num(d.kdfMemKiB))
    ensures Under(d, "password_kdf_iters") == Some(Num(d.kdfIters))
    ensures Under(d, "owner_xprv_ct_b64") == Some(Str(d.xprvCiphertext))
    ensures Under(d, "owner_xprv_nonce_b64") == Some(Str(d.xprvNonce))
  {
    hide Under, Units, Key;
    assert NAMES[0] == "v" && NAMES[1] == "role" && NAMES[2] == "generated_at" && NAMES[3] == "label";
    assert NAMES[4] == "vault_id" && NAMES[5] == "network" && NAMES[6] == "timelock_blocks";
    assert NAMES[7] == "descriptor_external" && NAMES[8] == "descriptor_internal";
    assert NAMES[9] == "password_salt_b64" && NAMES[10] == "password_kdf_mem_kib";
    assert NAMES[11] == "password_kdf_iters" && NAMES[12] == "owner_xprv_ct_b64";
    assert NAMES[13] == "owner_xprv_nonce_b64";
    hide NAMES;
    forall i | 0 <= i < 14
      ensures Under(d, NAMES[i]) == Some(Record(d)[i].value)
    {
      FoundAt(d, i);
    }
  }

  /**
   * The page: in a template of any parts with placeholders between them, each placeholder and
   * nothing else is replaced by the record, whatever the record holds, and the kit's data can be
   * read back from what replaced it.
   */
  lemma KitPage(parts: seq<Text>, d: KitData)
    requires PartsOf(parts, Units("__GHOSTKEY_KIT_DATA__"))
    ensures var json := HideLess(Stringify(Record(d)));
            && SpliceKit(Join(parts, Units("__GHOSTKEY_KIT_DATA__")), Units(PLACEHOLDER), Record(d))
               == Join(parts, json)
            && LESS !in json
            && Parse(json) == Some(Record(d))
  {
    hide Record, Join, Split, Stringify, HideLess, Parse, PartsOf;
    SplitJoined(parts, Units(PLACEHOLDER));
    KitJsonRoundTrip(Record(d));
  }
}
