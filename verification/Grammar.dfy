/**
 * Descriptor text: printing an expression tree, reading it back by recursive descent, and the
 * round trip between the two.
 */
module Grammar {
  import opened Wrappers
  import opened Miniscript
  import Decimal

  /** A Taproot descriptor with a single leaf. */
  datatype Descriptor = Tr(internalKey: string, leaf: Expr<string>)

  // ----- fragment names -----

  /** The text that opens each fragment. */
  datatype Head = PkHead | OlderHead | AfterHead | VHead | SHead | AndVHead | OrBHead | OrDHead

  function HeadText(h: Head): string {
    match h
    case PkHead => "pk("
    case OlderHead => "older("
    case AfterHead => "after("
    case VHead => "v:"
    case SHead => "s:"
    case AndVHead => "and_v("
    case OrBHead => "or_b("
    case OrDHead => "or_d("
  }

  function ReadHead(s: string): (r: Option<(Head, string)>)
    ensures r.Some? ==> s == HeadText(r.value.0) + r.value.1 && |r.value.1| < |s|
  {
    if "pk(" <= s then Some((PkHead, s[3..]))
    else if "older(" <= s then Some((OlderHead, s[6..]))
    else if "after(" <= s then Some((AfterHead, s[6..]))
    else if "v:" <= s then Some((VHead, s[2..]))
    else if "s:" <= s then Some((SHead, s[2..]))
    else if "and_v(" <= s then Some((AndVHead, s[6..]))
    else if "or_b(" <= s then Some((OrBHead, s[5..]))
    else if "or_d(" <= s then Some((OrDHead, s[5..]))
    else None
  }

  lemma ReadHeadText(h: Head, body: string)
    ensures ReadHead(HeadText(h) + body) == Some((h, body))
  {
    var s := HeadText(h) + body;
    assert s[|HeadText(h)|..] == body;
    match h
    case PkHead => assert s[0] == 'p';
    case OlderHead => assert s[0] == 'o' && s[1] == 'l';
    case AfterHead => assert s[0] == 'a' && s[1] == 'f';
    case VHead => assert s[0] == 'v';
    case SHead => assert s[0] == 's';
    case AndVHead => assert s[0] == 'a' && s[1] == 'n';
    case OrBHead => assert s[0] == 'o' && s[1] == 'r' && s[3] == 'b';
    case OrDHead => assert s[0] == 'o' && s[1] == 'r' && s[3] == 'd';
  }

  // ----- printing -----

  function Print(e: Expr<string>): string {
    match e
    case Pk(k) => HeadText(PkHead) + (k + ")")
    case Older(n) => HeadText(OlderHead) + (Decimal.Print(n) + ")")
    case After(n) => HeadText(AfterHead) + (Decimal.Print(n) + ")")
    case V(x) => HeadText(VHead) + Print(x)
    case S(x) => HeadText(SHead) + Print(x)
    case AndV(x, y) => HeadText(AndVHead) + Arguments(Print(x), Print(y))
    case OrB(x, y) => HeadText(OrBHead) + Arguments(Print(x), Print(y))
    case OrD(x, y) => HeadText(OrDHead) + Arguments(Print(x), Print(y))
  }

  function Arguments(x: string, y: string): string {
    x + "," + y + ")"
  }

  function PrintDescriptor(d: Descriptor): string {
    "tr(" + d.internalKey + "," + Print(d.leaf) + ")"
  }

  // ----- reading -----

  predicate Delimiter(c: char) {
    c == ',' || c == '(' || c == ')'
  }

  /** Key text the grammar can carry: not empty, with no comma and no parenthesis. */
  predicate CleanKey(k: string) {
    k != "" && forall i :: 0 <= i < |k| ==> !Delimiter(k[i])
  }

  lemma CleanKeyIff(k: string)
    ensures CleanKey(k) <==> k != "" && ',' !in k && '(' !in k && ')' !in k
  {}

  function KeyPrefix(s: string): (n: nat)
    ensures n <= |s| && (forall i :: 0 <= i < n ==> !Delimiter(s[i])) && (n < |s| ==> Delimiter(s[n]))
  {
    if s == "" || Delimiter(s[0]) then 0 else 1 + KeyPrefix(s[1..])
  }

  function ReadKey(s: string): (r: Option<(string, string)>)
    ensures r.Some? ==> CleanKey(r.value.0) && s == r.value.0 + r.value.1
  {
    var n := KeyPrefix(s);
    if n == 0 then None else Some((s[..n], s[n..]))
  }

  /** A decimal 32-bit number without leading zeros. */
  function ReadNumber(s: string): (r: Option<(nat, string)>)
    ensures r.Some? ==> |r.value.1| < |s|
  {
    var k := Decimal.DigitsPrefix(s);
    if k == 0 || (k > 1 && s[0] == '0') then None
    else
      var n := Decimal.Read(s[..k]);
      if n > 0xFFFF_FFFF then None else Some((n, s[k..]))
  }

  function Expect(c: char, s: string): (r: Option<string>)
    ensures r.Some? ==> s == [c] + r.value
  {
    if s != "" && s[0] == c then Some(s[1..]) else None
  }

  type Read = Option<(Expr<string>, string)>

  function Close(e: Expr<string>, s: string): (r: Read)
    ensures r.Some? ==> r.value.0 == e && |r.value.1| < |s|
  {
    match Expect(')', s)
    case None => None
    case Some(rest) => Some((e, rest))
  }

  /** One expression at the start of the text, and what follows it. */
  function ReadExpr(s: string): (r: Read)
    ensures r.Some? ==> |r.value.1| < |s|
    decreases |s|, 0
  {
    match ReadHead(s)
    case None => None
    case Some((PkHead, body)) =>
      (match ReadKey(body)
       case None => None
       case Some((k, rest)) => Close(Pk(k), rest))
    case Some((OlderHead, body)) =>
      (match ReadNumber(body)
       case None => None
       case Some((n, rest)) => Close(Older(n), rest))
    case Some((AfterHead, body)) =>
      (match ReadNumber(body)
       case None => None
       case Some((n, rest)) => Close(After(n), rest))
    case Some((VHead, body)) =>
      (match ReadExpr(body)
       case None => None
       case Some((x, rest)) => Some((V(x), rest)))
    case Some((SHead, body)) =>
      (match ReadExpr(body)
       case None => None
       case Some((x, rest)) => Some((S(x), rest)))
    case Some((AndVHead, body)) =>
      (match ReadArguments(body)
       case None => None
       case Some((x, y, rest)) => Some((AndV(x, y), rest)))
    case Some((OrBHead, body)) =>
      (match ReadArguments(body)
       case None => None
       case Some((x, y, rest)) => Some((OrB(x, y), rest)))
    case Some((OrDHead, body)) =>
      (match ReadArguments(body)
       case None => None
       case Some((x, y, rest)) => Some((OrD(x, y), rest)))
  }

  /** Two expressions, the comma between them and the closing parenthesis. */
  function ReadArguments(s: string): (r: Option<(Expr<string>, Expr<string>, string)>)
    ensures r.Some? ==> |r.value.2| < |s|
    decreases |s|, 1
  {
    match ReadExpr(s)
    case None => None
    case Some((x, rest)) =>
      match Expect(',', rest)
      case None => None
      case Some(more) =>
        match ReadExpr(more)
        case None => None
        case Some((y, last)) =>
          match Expect(')', last)
          case None => None
          case Some(tail) => Some((x, y, tail))
  }

  function ReadDescriptor(s: string): Option<Descriptor> {
    if !("tr(" <= s) then None
    else
      match ReadKey(s[3..])
      case None => None
      case Some((k, rest)) =>
        match Expect(',', rest)
        case None => None
        case Some(more) =>
          match ReadExpr(more)
          case None => None
          case Some((e, last)) => if last == ")" then Some(Tr(k, e)) else None
  }

  // ----- the round trip -----

  /** Trees whose text can be read back: clean keys and 32-bit numbers. */
  predicate Printable(e: Expr<string>) {
    match e
    case Pk(k) => CleanKey(k)
    case Older(n) => n <= 0xFFFF_FFFF
    case After(n) => n <= 0xFFFF_FFFF
    case V(x) => Printable(x)
    case S(x) => Printable(x)
    case AndV(x, y) => Printable(x) && Printable(y)
    case OrB(x, y) => Printable(x) && Printable(y)
    case OrD(x, y) => Printable(x) && Printable(y)
  }

  lemma ReadKeyPrinted(k: string, rest: string)
    requires CleanKey(k) && rest != "" && Delimiter(rest[0])
    ensures ReadKey(k + rest) == Some((k, rest))
  {
    var s := k + rest;
    var n := KeyPrefix(s);
    assert forall i :: 0 <= i < |k| ==> s[i] == k[i];
    assert s[|k|] == rest[0];
    assert s[..|k|] == k && s[|k|..] == rest;
  }

  lemma ReadNumberPrinted(n: nat, rest: string)
    requires n <= 0xFFFF_FFFF && rest != "" && !Decimal.IsDigit(rest[0])
    ensures ReadNumber(Decimal.Print(n) + rest) == Some((n, rest))
  {
    var d := Decimal.Print(n);
    var s := d + rest;
    Decimal.ReadPrint(n);
    Decimal.DigitsThen(d, rest);
    assert s[..|d|] == d && s[|d|..] == rest && s[0] == d[0];
    if n < 10 {
      assert |d| == 1;
    }
  }

  /** Reading the text of a tree, whatever follows it, gives the tree and leaves what follows. */
  lemma {:induction false} ReadPrinted(e: Expr<string>, rest: string)
    requires Printable(e)
    ensures ReadExpr(Print(e) + rest) == Some((e, rest))
    decreases e, 1
  {
    hide Decimal.Print, HeadText, ReadHead, ReadKey, ReadNumber, ReadArguments, Arguments;
    match e
    case Pk(k) =>
      Opens(PkHead, k + ")", rest);
      assert (k + ")") + rest == k + (")" + rest);
      ReadKeyPrinted(k, ")" + rest);
    case Older(n) =>
      Opens(OlderHead, Decimal.Print(n) + ")", rest);
      assert (Decimal.Print(n) + ")") + rest == Decimal.Print(n) + (")" + rest);
      ReadNumberPrinted(n, ")" + rest);
    case After(n) =>
      Opens(AfterHead, Decimal.Print(n) + ")", rest);
      assert (Decimal.Print(n) + ")") + rest == Decimal.Print(n) + (")" + rest);
      ReadNumberPrinted(n, ")" + rest);
    case V(x) =>
      Opens(VHead, Print(x), rest);
      ReadPrinted(x, rest);
    case S(x) =>
      Opens(SHead, Print(x), rest);
      ReadPrinted(x, rest);
    case AndV(x, y) =>
      Opens(AndVHead, Arguments(Print(x), Print(y)), rest);
      ReadPrintedArguments(e, x, y, rest);
    case OrB(x, y) =>
      Opens(OrBHead, Arguments(Print(x), Print(y)), rest);
      ReadPrintedArguments(e, x, y, rest);
    case OrD(x, y) =>
      Opens(OrDHead, Arguments(Print(x), Print(y)), rest);
      ReadPrintedArguments(e, x, y, rest);
  }

  lemma Opens(h: Head, body: string, rest: string)
    ensures ReadHead((HeadText(h) + body) + rest) == Some((h, body + rest))
  {
    assert (HeadText(h) + body) + rest == HeadText(h) + (body + rest);
    ReadHeadText(h, body + rest);
  }

  lemma {:induction false} ReadPrintedArguments(e: Expr<string>, x: Expr<string>, y: Expr<string>, rest: string)
    requires x < e && y < e
    requires Printable(x) && Printable(y)
    ensures ReadArguments(Arguments(Print(x), Print(y)) + rest) == Some((x, y, rest))
    decreases e, 0
  {
    hide Print, ReadExpr;
    var afterX := "," + (Print(y) + (")" + rest));
    assert Arguments(Print(x), Print(y)) + rest == Print(x) + afterX;
    ReadPrinted(x, afterX);
    assert afterX[1..] == Print(y) + (")" + rest);
    ReadPrinted(y, ")" + rest);
    assert (")" + rest)[1..] == rest;
  }

  /** Printing then reading a descriptor is the identity. */
  lemma ReadPrintedDescriptor(d: Descriptor)
    requires CleanKey(d.internalKey) && Printable(d.leaf)
    ensures ReadDescriptor(PrintDescriptor(d)) == Some(d)
  {
    hide Print, ReadExpr, ReadKey;
    var s := PrintDescriptor(d);
    var afterKey := "," + (Print(d.leaf) + ")");
    assert s == "tr(" + (d.internalKey + afterKey);
    assert s[3..] == d.internalKey + afterKey;
    ReadKeyPrinted(d.internalKey, afterKey);
    assert afterKey[1..] == Print(d.leaf) + ")";
    ReadPrinted(d.leaf, ")");
  }

  /** Whatever is read is a tree that can be printed. */
  lemma {:induction false} ReadIsPrintable(s: string)
    ensures ReadExpr(s).Some? ==> Printable(ReadExpr(s).value.0)
    decreases |s|, 0
  {
    hide HeadText;
    match ReadHead(s)
    case Some((VHead, body)) => ReadIsPrintable(body);
    case Some((SHead, body)) => ReadIsPrintable(body);
    case Some((AndVHead, body)) => ReadArgumentsArePrintable(body);
    case Some((OrBHead, body)) => ReadArgumentsArePrintable(body);
    case Some((OrDHead, body)) => ReadArgumentsArePrintable(body);
    case _ =>
  }

  lemma {:induction false} ReadArgumentsArePrintable(s: string)
    ensures ReadArguments(s).Some? ==> Printable(ReadArguments(s).value.0) && Printable(ReadArguments(s).value.1)
    decreases |s|, 1
  {
    ReadIsPrintable(s);
    match ReadExpr(s) {
      case None =>
      case Some((_, rest)) =>
        if Expect(',', rest).Some? {
          ReadIsPrintable(Expect(',', rest).value);
        }
    }
  }
}
