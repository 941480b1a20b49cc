/**
 * Compiling rule conditions to CEL text (internal/rules/engine.go): validating a condition, quoting its value,
 * rendering it and joining the parts; and that the text lexes to exactly the tokens that were meant.
 */
module RuleText {
  import opened Rows
  import opened Text
  import opened Cel

  const TEXT_FIELDS := ["subject", "body", "from", "fromName", "recipient", "fromDomain"]
  const TEXT_OPERATORS := ["contains", "not_contains", "equals", "not_equals", "starts_with", "ends_with", "matches"]
  const NUMERIC_OPERATORS := ["gt", "gte", "lt", "lte", "eq", "neq"]
  const BOOL_OPERATORS := ["equals", "not_equals", "eq", "neq"]
  const MAX_CONDITIONS := 50
  const MAX_VALUE_LEN := 1000
  const MAX_EXPRESSION_LEN := 4096

  /** What strconv prints for a float with format 'g': the parts of the shortest decimal that reads back as it. */
  datatype Decimal = Decimal(negative: bool, whole: string, frac: string, expNegative: bool, exp: string)

  /**
   * Outside functions: casing, which code points above ASCII count as printable, which patterns compile,
   * and reading and printing a float (None: not a number, or not finite).
   */
  datatype Host = Host(
    cs: Casing, printable: char -> bool, compiles: string -> bool,
    parseFloat: string -> Option<real>, formatFloat: real -> Decimal)

  // ------------------------------------------------------------------- literals

  function Utf8Len(s: string): nat {
    if s == "" then 0 else Utf8Len(s[..|s| - 1]) + Width(s[|s| - 1])
  }

  function Width(c: char): nat {
    if c < '\U{80}' then 1 else if c < '\U{800}' then 2 else if c as int < 0x1_0000 then 3 else 4
  }

  function HexDigit(d: int): char
    requires 0 <= d < 16
  {
    if d < 10 then ('0' as int + d) as char else ('a' as int + d - 10) as char
  }

  /** The last k hexadecimal digits of n. */
  function HexText(n: nat, k: nat): string {
    if k == 0 then "" else HexText(n / 16, k - 1) + [HexDigit(n % 16)]
  }

  function QuoteChar(printable: char -> bool, c: char): string {
    if c == '\\' then "\\\\"
    else if c == '"' then "\\\""
    else if ' ' <= c <= '~' then [c]
    else if c >= '\U{80}' && printable(c) then [c]
    else if c as int <= 0xFFFF then "\\u" + HexText(c as int, 4)
    else "\\U" + HexText(c as int, 8)
  }

  function QuoteChars(printable: char -> bool, s: string): string {
    if s == "" then "" else QuoteChar(printable, s[0]) + QuoteChars(printable, s[1..])
  }

  function Quoted(printable: char -> bool, s: string): string {
    "\"" + QuoteChars(printable, s) + "\""
  }

  method Quote(printable: char -> bool, s: string) returns (b: string)
    ensures b == Quoted(printable, s)
  {
    hide QuoteChar;
    b := "\"";
    var i := 0;
    while i < |s|
      invariant 0 <= i <= |s|
      invariant b + QuoteChars(printable, s[i..]) == "\"" + QuoteChars(printable, s)
    {
      assert s[i..][1..] == s[i + 1..];
      assert b + QuoteChars(printable, s[i..]) == (b + QuoteChar(printable, s[i])) + QuoteChars(printable, s[i + 1..]);
      b := b + QuoteChar(printable, s[i]);
      i := i + 1;
    }
    assert s[i..] == "" && b + "" == b;
    b := b + "\"";
  }

  predicate Digits(s: string) { s != "" && forall i :: 0 <= i < |s| ==> IsDigit(s[i]) }

  predicate WellFormed(d: Decimal) {
    Digits(d.whole) && (d.frac == "" || Digits(d.frac)) && (d.exp == "" || Digits(d.exp))
  }

  function Fraction(d: Decimal): string { if d.frac == "" then "" else "." + d.frac }
  function ExponentText(d: Decimal): string {
    if d.exp == "" then "" else (if d.expNegative then "e-" else "e+") + d.exp
  }

  /** The literal without its sign, with ".0" added when it would read as an integer. */
  function Unsigned(d: Decimal): string {
    var lit := d.whole + Fraction(d) + ExponentText(d);
    if d.frac == "" && d.exp == "" then lit + ".0" else lit
  }

  function DoubleLiteral(d: Decimal): string { (if d.negative then "-" else "") + Unsigned(d) }

  // ----------------------------------------------------------------- conditions

  /** A condition that passed validation. */
  datatype Test =
    | Attachments(differs: bool, want: bool)
    | Score(op: string, number: real)
    | Pattern(field: string, pattern: string)
    | Plain(field: string, op: string, value: string)

  function Check(h: Host, c: Condition): Option<Test> {
    var field, op := TrimSpace(c.field), h.cs.lower(TrimSpace(c.operator));
    if Utf8Len(c.value) > MAX_VALUE_LEN then None
    else if field == "hasAttachments" then
      if op != "" && op !in BOOL_OPERATORS then None
      else
        var v := h.cs.lower(TrimSpace(c.value));
        if v == "" || v == "true" then Some(Attachments(op == "not_equals" || op == "neq", true))
        else if v == "false" then Some(Attachments(op == "not_equals" || op == "neq", false))
        else None
    else if field == "spamScore" then
      if op !in NUMERIC_OPERATORS then None
      else
        var n := h.parseFloat(TrimSpace(c.value));
        if n.None? then None else Some(Score(op, n.value))
    else if field !in TEXT_FIELDS || op !in TEXT_OPERATORS then None
    else if c.value == "" && op != "equals" && op != "not_equals" then None
    else if op == "matches" then
      if h.compiles(c.value) then Some(Pattern(field, c.value)) else None
    else Some(Plain(field, op, c.value))
  }

  function NumericSymbol(op: string): string {
    match op
    case "gt" => ">"
    case "gte" => ">="
    case "lt" => "<"
    case "lte" => "<="
    case "eq" => "=="
    case _ => "!="
  }

  function Render(h: Host, t: Test): string {
    match t
    case Attachments(differs, want) =>
      "hasAttachments" + " " + (if differs then "!=" else "==") + " " + (if want then "true" else "false")
    case Score(op, n) =>
      "spamScore" + " " + NumericSymbol(op) + " " + DoubleLiteral(h.formatFloat(n))
    case Pattern(field, pattern) =>
      field + ".matches(" + Quoted(h.printable, pattern) + ")"
    case Plain(field, op, value) =>
      var lf, lv := field + ".lowerAscii()", Quoted(h.printable, AsciiLower(value));
      match op
      case "contains" => lf + ".contains(" + lv + ")"
      case "not_contains" => "!" + lf + ".contains(" + lv + ")"
      case "equals" => lf + " == " + lv
      case "not_equals" => lf + " != " + lv
      case "starts_with" => lf + ".startsWith(" + lv + ")"
      case _ => lf + ".endsWith(" + lv + ")"
  }

  function NormalizeMatch(h: Host, mode: string): Option<string> {
    var m := h.cs.lower(TrimSpace(mode));
    if m == "" || m == MATCH_ALL then Some(MATCH_ALL) else if m == MATCH_ANY then Some(MATCH_ANY) else None
  }

  function CheckAll(h: Host, conds: seq<Condition>): Option<seq<Test>> {
    if conds == [] then Some([])
    else
      var ts, t := CheckAll(h, conds[..|conds| - 1]), Check(h, conds[|conds| - 1]);
      if ts.None? || t.None? then None else Some(ts.value + [t.value])
  }

  function Joiner(mode: string): string { if mode == MATCH_ANY then " || " else " && " }

  function JoinAll(h: Host, mode: string, ts: seq<Test>): string {
    if ts == [] then ""
    else if |ts| == 1 then "(" + Render(h, ts[0]) + ")"
    else JoinAll(h, mode, ts[..|ts| - 1]) + Joiner(mode) + ("(" + Render(h, ts[|ts| - 1]) + ")")
  }

  /** The accepted mode and tests of a condition list. */
  function Accepted(h: Host, mode: string, conds: seq<Condition>): Option<(string, seq<Test>)> {
    var m, ts := NormalizeMatch(h, mode), CheckAll(h, conds);
    if m.None? || conds == [] || |conds| > MAX_CONDITIONS || ts.None? then None else Some((m.value, ts.value))
  }

  function Expression(h: Host, mode: string, conds: seq<Condition>): Option<string> {
    match Accepted(h, mode, conds)
    case None => None
    case Some((m, ts)) => Some(JoinAll(h, m, ts))
  }

  lemma {:induction false} CheckAllPrefix(h: Host, conds: seq<Condition>, n: nat)
    requires n <= |conds|
    requires CheckAll(h, conds[..n]).None?
    ensures CheckAll(h, conds).None?
    decreases |conds| - n
  {
    if n < |conds| {
      assert conds[..n + 1][..n] == conds[..n];
      CheckAllPrefix(h, conds, n + 1);
    } else {
      assert conds[..n] == conds;
    }
  }

  lemma {:induction false} CheckAllLength(h: Host, conds: seq<Condition>)
    requires CheckAll(h, conds).Some?
    ensures |CheckAll(h, conds).value| == |conds|
    ensures forall i :: 0 <= i < |conds| ==> Check(h, conds[i]) == Some(CheckAll(h, conds).value[i])
  {
    hide Check;
    if conds != [] { CheckAllLength(h, conds[..|conds| - 1]); }
  }

  /** The loop over the conditions, stopping at the first refused one. */
  method BuildExpression(h: Host, mode: string, conds: seq<Condition>) returns (r: Option<string>)
    ensures r == Expression(h, mode, conds)
  {
    var m := NormalizeMatch(h, mode);
    if m.None? || conds == [] || |conds| > MAX_CONDITIONS { return None; }
    var text := "";
    var i := 0;
    ghost var ts: seq<Test> := [];
    while i < |conds|
      invariant 0 <= i <= |conds|
      invariant CheckAll(h, conds[..i]) == Some(ts) && |ts| == i
      invariant text == JoinAll(h, m.value, ts)
    {
      var t := Check(h, conds[i]);
      assert conds[..i + 1][..i] == conds[..i];
      if t.None? {
        CheckAllPrefix(h, conds, i + 1);
        return None;
      }
      var part := "(" + Render(h, t.value) + ")";
      assert (ts + [t.value])[..i] == ts;
      text := if i == 0 then part else text + Joiner(m.value) + part;
      ts := ts + [t.value];
      i := i + 1;
    }
    assert conds[..i] == conds;
    r := Some(text);
  }

  /** A raw expression wins over the conditions. */
  function Effective(h: Host, r: Rule): Option<string> {
    var x := TrimSpace(r.expression);
    if x != "" then
      if Utf8Len(r.expression) > MAX_EXPRESSION_LEN then None else Some(x)
    else Expression(h, r.combine, r.conditions)
  }

  // ------------------------------------------------------ a literal is one token

  function Pow16(k: nat): nat { if k == 0 then 1 else 16 * Pow16(k - 1) }

  lemma {:induction false} HexReads(n: nat, k: nat)
    requires n < Pow16(k)
    ensures |HexText(n, k)| == k && HexNumber(HexText(n, k)) == Some(n)
  {
    if k > 0 {
      HexReads(n / 16, k - 1);
      var t := HexText(n, k);
      assert t[..|t| - 1] == HexText(n / 16, k - 1);
    }
  }

  lemma QuotedCharReads(printable: char -> bool, c: char, rest: string)
    ensures QuoteChar(printable, c) != "" && QuoteChar(printable, c)[0] != '"'
    ensures StringChar(QuoteChar(printable, c) + rest) == Some((c, rest))
  {
    var q := QuoteChar(printable, c);
    var s := q + rest;
    assert Pow16(4) == 0x1_0000 && Pow16(8) == 0x1_0000_0000 by {
      assert Pow16(2) == 256 && Pow16(4) == 256 * 256;
      assert Pow16(6) == 256 * Pow16(4) && Pow16(8) == 256 * Pow16(6);
    }
    if c == '\\' || c == '"' {
      assert s[2..] == rest;
    } else if ' ' <= c <= '~' || (c >= '\U{80}' && printable(c)) {
      assert s[1..] == rest;
    } else if c as int <= 0xFFFF {
      HexReads(c as int, 4);
      assert s[2..6] == HexText(c as int, 4) && s[6..] == rest;
    } else {
      HexReads(c as int, 8);
      assert s[2..10] == HexText(c as int, 8) && s[10..] == rest;
    }
  }

  lemma {:induction false} QuotedBodyReads(printable: char -> bool, s: string, value: string, rest: string)
    ensures StringBody(QuoteChars(printable, s) + "\"" + rest, value) == Lexeme(Str(value + s), rest)
    decreases |s|
  {
    var text := QuoteChars(printable, s) + "\"" + rest;
    if s == "" {
      assert text == "\"" + rest && value + s == value;
      assert text[1..] == rest;
    } else {
      var tail := QuoteChars(printable, s[1..]) + "\"" + rest;
      assert text == QuoteChar(printable, s[0]) + tail;
      QuotedCharReads(printable, s[0], tail);
      QuotedBodyReads(printable, s[1..], value + [s[0]], rest);
      assert value + [s[0]] + s[1..] == value + s;
    }
  }

  /** Whatever the value holds, its literal is exactly one string token with that value. */
  lemma QuoteIsOneToken(printable: char -> bool, s: string, rest: string)
    requires s == "" ==> rest == "" || rest[0] != '"'
    ensures LexOne(Quoted(printable, s) + rest) == Lexeme(Str(s), rest)
  {
    var text := Quoted(printable, s) + rest;
    QuotedBodyReads(printable, s, "", rest);
    assert text[1..] == QuoteChars(printable, s) + "\"" + rest;
    assert "" + s == s;
    if s == "" {
      assert text == "\"\"" + rest;
    } else {
      QuotedCharReads(printable, s[0], "");
      assert text[1] == QuoteChar(printable, s[0])[0];
    }
  }

  // ------------------------------------------------------------- numbers lex back

  lemma {:induction false} SpanOf(s: string, rest: string, p: char -> bool)
    requires forall i :: 0 <= i < |s| ==> p(s[i])
    requires rest == "" || !p(rest[0])
    ensures Span(s + rest, p) == s
  {
    if s == "" {
      assert s + rest == rest;
    } else {
      assert (s + rest)[1..] == s[1..] + rest;
      SpanOf(s[1..], rest, p);
    }
  }

  predicate EndsNumber(rest: string) { rest == "" || rest[0] == ')' }

  lemma ExponentReads(d: Decimal, rest: string)
    requires WellFormed(d) && EndsNumber(rest)
    ensures ExponentOf(ExponentText(d) + rest) == ExponentText(d)
  {
    if d.exp != "" {
      var s := ExponentText(d) + rest;
      assert s[2..] == d.exp + rest;
      SpanOf(d.exp, rest, IsDigit);
      assert s[..2] + d.exp == ExponentText(d);
    }
  }

  lemma FractionReads(frac: string, tail: string)
    requires Digits(frac)
    requires tail == "" || !IsDigit(tail[0])
    ensures FractionOf("." + frac + tail) == "." + frac
  {
    var s := "." + frac + tail;
    assert s[1..] == frac + tail;
    SpanOf(frac, tail, IsDigit);
  }

  lemma NoFraction(tail: string)
    requires tail == "" || tail[0] != '.'
    ensures FractionOf(tail) == ""
  {
  }

  lemma NumberReads(whole: string, f: string, e: string, rest: string)
    requires Digits(whole) && (f != "" || e != "")
    requires FractionOf(f + e + rest) == f && ExponentOf(e + rest) == e
    requires f + e + rest == "" || !IsDigit((f + e + rest)[0])
    ensures Number(whole + f + e + rest) == Lexeme(Dbl(whole + f + e), rest)
  {
    hide FractionOf, ExponentOf;
    var s := whole + f + e + rest;
    assert s == whole + (f + e + rest);
    SpanOf(whole, f + e + rest, IsDigit);
    assert s[|whole|..] == f + e + rest;
    assert s[|whole| + |f|..] == e + rest;
    assert s[|whole| + |f| + |e|..] == rest;
  }

  /** A printed double is one double token, never an integer. */
  lemma DoubleReads(d: Decimal, rest: string)
    requires WellFormed(d) && EndsNumber(rest)
    ensures LexOne(Unsigned(d) + rest) == Lexeme(Dbl(Unsigned(d)), rest)
  {
    hide Number, FractionOf, ExponentOf;
    var frac := if d.frac == "" && d.exp == "" then "0" else d.frac;
    var f, e := if frac == "" then "" else "." + frac, ExponentText(d);
    assert Unsigned(d) == d.whole + f + e;
    assert Digits("0");
    ExponentReads(d, rest);
    if frac == "" {
      assert f + e + rest == e + rest;
      NoFraction(e + rest);
    } else {
      assert f + e + rest == "." + frac + (e + rest);
      FractionReads(frac, e + rest);
    }
    NumberReads(d.whole, f, e, rest);
    assert (Unsigned(d) + rest)[0] == d.whole[0];
  }

  // ------------------------------------------------------------ pieces of the text

  /** A token as it is printed, or a blank. */
  datatype Piece = Word(name: string) | Literal(value: string) | Num(d: Decimal) | Punct(sym: string) | Gap

  function PieceText(printable: char -> bool, p: Piece): string {
    match p
    case Word(name) => name
    case Literal(value) => Quoted(printable, value)
    case Num(d) => Unsigned(d)
    case Punct(sym) => sym
    case Gap => " "
  }

  function TokensOf(p: Piece): seq<Token> {
    match p
    case Word(name) => [Ident(name)]
    case Literal(value) => [Str(value)]
    case Num(d) => [Dbl(Unsigned(d))]
    case Punct(sym) => [Sym(sym)]
    case Gap => []
  }

  function Tokens(ps: seq<Piece>): seq<Token> {
    if ps == [] then [] else TokensOf(ps[0]) + Tokens(ps[1..])
  }

  function Print(printable: char -> bool, ps: seq<Piece>): string {
    if ps == [] then "" else PieceText(printable, ps[0]) + Print(printable, ps[1..])
  }

  predicate GoodPiece(p: Piece) {
    match p
    case Word(name) => name != "" && IdentStart(name[0]) && forall i :: 0 <= i < |name| ==> IdentChar(name[i])
    case Literal(_) => true
    case Num(d) => WellFormed(d)
    case Punct(sym) => sym in PAIRS || sym in ["(", ")", ".", "!", "<", ">", "-"]
    case Gap => true
  }

  /** b may be printed right after a without changing what a lexes to. */
  predicate MayFollow(a: Piece, b: Piece) {
    match a
    case Word(_) => b.Gap? || b.Punct?
    case Literal(_) => !b.Literal?
    case Num(_) => b == Punct(")")
    case Punct(_) => b.Punct? ==> b.sym != "" && b.sym[0] != '='
    case Gap => true
  }

  ghost predicate Printable(ps: seq<Piece>) {
    (forall i :: 0 <= i < |ps| ==> GoodPiece(ps[i])) &&
    (forall i, j :: 0 <= i < j < |ps| && j == i + 1 ==> MayFollow(ps[i], ps[j]))
  }

  /** What must not come next for p to end where its text ends. */
  predicate Boundary(p: Piece, rest: string) {
    match p
    case Word(_) => rest == "" || (!IdentChar(rest[0]) && rest[0] != '"')
    case Literal(_) => rest == "" || rest[0] != '"'
    case Num(_) => EndsNumber(rest)
    case Punct(_) => rest == "" || rest[0] != '='
    case Gap => true
  }

  lemma LexStep(text: string, t: Token, rest: string)
    requires text != "" && text[0] != ' '
    requires LexOne(text + rest) == Lexeme(t, rest)
    ensures Lex(text + rest) == Prepend(t, Lex(rest))
  {
    hide LexOne;
    assert (text + rest)[0] == text[0];
  }

  lemma WordReads(name: string, rest: string)
    requires GoodPiece(Word(name)) && Boundary(Word(name), rest)
    ensures LexOne(name + rest) == Lexeme(Ident(name), rest)
  {
    SpanOf(name, rest, IdentChar);
    assert (name + rest)[0] == name[0];
    assert (name + rest)[|name|..] == rest;
  }

  lemma PunctReads(sym: string, rest: string)
    requires GoodPiece(Punct(sym)) && Boundary(Punct(sym), rest)
    ensures LexOne(sym + rest) == Lexeme(Sym(sym), rest)
  {
    var s := sym + rest;
    assert s[|sym|..] == rest && s[..|sym|] == sym;
    if |sym| == 1 && |s| >= 2 {
      assert s[..2] == [sym[0], rest[0]];
    }
  }

  lemma PieceReads(printable: char -> bool, p: Piece, rest: string)
    requires GoodPiece(p) && Boundary(p, rest)
    requires Lex(rest).Some?
    ensures Lex(PieceText(printable, p) + rest) == Some(TokensOf(p) + Lex(rest).value)
  {
    hide LexOne;
    match p
    case Word(name) =>
      WordReads(name, rest);
      LexStep(name, Ident(name), rest);
    case Literal(value) =>
      QuoteIsOneToken(printable, value, rest);
      LexStep(Quoted(printable, value), Str(value), rest);
    case Num(d) =>
      DoubleReads(d, rest);
      assert Unsigned(d)[0] == d.whole[0];
      LexStep(Unsigned(d), Dbl(Unsigned(d)), rest);
    case Punct(sym) =>
      PunctReads(sym, rest);
      LexStep(sym, Sym(sym), rest);
    case Gap =>
      assert (" " + rest)[1..] == rest;
      assert [] + Lex(rest).value == Lex(rest).value;
  }

  lemma FollowersBound(printable: char -> bool, a: Piece, b: Piece, rest: string)
    requires GoodPiece(b) && MayFollow(a, b)
    ensures Boundary(a, PieceText(printable, b) + rest)
  {
    var s := PieceText(printable, b) + rest;
    match b
    case Word(name) => assert s[0] == name[0];
    case Literal(value) => assert s[0] == '"';
    case Num(d) => assert s[0] == d.whole[0];
    case Punct(sym) =>
      assert s[0] == sym[0];
    case Gap =>
  }

  /** Printable pieces lex back to their tokens. */
  lemma {:induction false} PrintLexes(printable: char -> bool, ps: seq<Piece>)
    requires Printable(ps)
    ensures Lex(Print(printable, ps)) == Some(Tokens(ps))
  {
    hide PieceText, TokensOf, GoodPiece, MayFollow, Boundary, Lex;
    if ps == [] {
      LexEmpty();
    } else {
      var rest := Print(printable, ps[1..]);
      PrintLexes(printable, ps[1..]);
      NextBounds(printable, ps);
      PieceReads(printable, ps[0], rest);
    }
  }

  lemma LexEmpty()
    ensures Lex("") == Some([])
  {
  }

  lemma NextBounds(printable: char -> bool, ps: seq<Piece>)
    requires Printable(ps) && ps != []
    ensures Boundary(ps[0], Print(printable, ps[1..]))
  {
    if |ps| > 1 {
      hide PieceText, GoodPiece, MayFollow, Boundary;
      assert MayFollow(ps[0], ps[1]);
      FollowersBound(printable, ps[0], ps[1], Print(printable, ps[1..][1..]));
    }
  }

  // ------------------------------------------------- the pieces of a rendered rule

  function LowerCall(field: string): seq<Piece> {
    [Word(field), Punct("."), Word("lowerAscii"), Punct("("), Punct(")")]
  }

  function MethodCall(fn: string, value: string): seq<Piece> {
    [Punct("."), Word(fn), Punct("("), Literal(value), Punct(")")]
  }

  function Compared(sym: string, right: seq<Piece>): seq<Piece> { [Gap, Punct(sym), Gap] + right }

  function NumberPieces(d: Decimal): seq<Piece> { (if d.negative then [Punct("-")] else []) + [Num(d)] }

  function TestPieces(h: Host, t: Test): seq<Piece> {
    match t
    case Attachments(differs, want) =>
      [Word("hasAttachments")] + Compared(if differs then "!=" else "==", [Word(if want then "true" else "false")])
    case Score(op, n) => [Word("spamScore")] + Compared(NumericSymbol(op), NumberPieces(h.formatFloat(n)))
    case Pattern(field, pattern) => [Word(field)] + MethodCall("matches", pattern)
    case Plain(field, op, value) =>
      var lf, lv := LowerCall(field), AsciiLower(value);
      match op
      case "contains" => lf + MethodCall("contains", lv)
      case "not_contains" => [Punct("!")] + lf + MethodCall("contains", lv)
      case "equals" => lf + Compared("==", [Literal(lv)])
      case "not_equals" => lf + Compared("!=", [Literal(lv)])
      case "starts_with" => lf + MethodCall("startsWith", lv)
      case _ => lf + MethodCall("endsWith", lv)
  }

  function Bracketed(h: Host, t: Test): seq<Piece> { [Punct("(")] + TestPieces(h, t) + [Punct(")")] }

  function JoinPieces(h: Host, mode: string, ts: seq<Test>): seq<Piece> {
    if ts == [] then []
    else if |ts| == 1 then Bracketed(h, ts[0])
    else
      JoinPieces(h, mode, ts[..|ts| - 1]) +
      [Gap, Punct(if mode == MATCH_ANY then "||" else "&&"), Gap] + Bracketed(h, ts[|ts| - 1])
  }

  lemma {:induction false} PrintConcat(printable: char -> bool, a: seq<Piece>, b: seq<Piece>)
    ensures Print(printable, a + b) == Print(printable, a) + Print(printable, b)
  {
    hide PieceText;
    if a == [] {
      assert a + b == b;
    } else {
      assert (a + b)[1..] == a[1..] + b;
      PrintConcat(printable, a[1..], b);
    }
  }

  lemma {:induction false} TokensConcat(a: seq<Piece>, b: seq<Piece>)
    ensures Tokens(a + b) == Tokens(a) + Tokens(b)
  {
    if a == [] {
      assert a + b == b;
    } else {
      assert (a + b)[1..] == a[1..] + b;
      TokensConcat(a[1..], b);
    }
  }
}
