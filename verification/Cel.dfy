/**
 * The part of the CEL language that compiled rules use (literals, member calls and operator precedence per
 * the CEL language definition): a lexer from text, a recursive-descent parser and an evaluator over an email.
 */
module Cel {
  import opened Rows
  import opened Text

  // --------------------------------------------------------------------- lexer

  datatype Token = Ident(name: string) | Str(value: string) | Dbl(text: string)
                   | Whole(digits: string) | Sym(text: string)

  predicate IsDigit(c: char) { '0' <= c <= '9' }
  predicate IdentStart(c: char) { 'a' <= c <= 'z' || 'A' <= c <= 'Z' || c == '_' }
  predicate IdentChar(c: char) { IdentStart(c) || IsDigit(c) }

  /** The leading run of characters that satisfy p. */
  function Span(s: string, p: char -> bool): string {
    if s == "" || !p(s[0]) then "" else [s[0]] + Span(s[1..], p)
  }

  lemma {:induction false} SpanIsPrefix(s: string, p: char -> bool)
    ensures Span(s, p) <= s
  {
    if s != "" && p(s[0]) { SpanIsPrefix(s[1..], p); }
  }

  datatype Lexeme = NoLexeme | Lexeme(token: Token, rest: string)

  function HexValue(c: char): Option<int> {
    if '0' <= c <= '9' then Some(c as int - '0' as int)
    else if 'a' <= c <= 'f' then Some(c as int - 'a' as int + 10)
    else if 'A' <= c <= 'F' then Some(c as int - 'A' as int + 10)
    else None
  }

  function HexNumber(s: string): Option<int> {
    if s == "" then Some(0)
    else
      var before, d := HexNumber(s[..|s| - 1]), HexValue(s[|s| - 1]);
      if before.None? || d.None? then None else Some(before.value * 16 + d.value)
  }

  predicate IsScalar(n: int) { 0 <= n < 0xD800 || 0xE000 <= n < 0x11_0000 }

  /** One character or escape of a string literal; None ends a malformed literal. */
  function StringChar(s: string): Option<(char, string)>
    requires s != ""
  {
    if s[0] == '\n' || s[0] == '\r' then None
    else if s[0] != '\\' then Some((s[0], s[1..]))
    else if |s| < 2 then None
    else
      match s[1]
      case '\\' => Some(('\\', s[2..]))
      case '"' => Some(('"', s[2..]))
      case '\'' => Some(('\'', s[2..]))
      case 'n' => Some(('\n', s[2..]))
      case 'r' => Some(('\r', s[2..]))
      case 't' => Some(('\t', s[2..]))
      case 'u' => if |s| < 6 then None else Escape(s[2..6], s[6..])
      case 'U' => if |s| < 10 then None else Escape(s[2..10], s[10..])
      case _ => None
  }

  function Escape(digits: string, rest: string): Option<(char, string)> {
    var n := HexNumber(digits);
    if n.Some? && IsScalar(n.value) then Some((n.value as char, rest)) else None
  }

  /** The characters up to the closing quote. */
  function StringBody(s: string, value: string): Lexeme
    decreases |s|
  {
    if s == "" then NoLexeme
    else if s[0] == '"' then Lexeme(Str(value), s[1..])
    else
      match StringChar(s)
      case None => NoLexeme
      case Some((c, rest)) => if |rest| < |s| then StringBody(rest, value + [c]) else NoLexeme
  }

  /** Digits, an optional fraction and an optional exponent; without either it is an integer. */
  function Number(s: string): Lexeme {
    SpanIsPrefix(s, IsDigit);
    var a := Span(s, IsDigit);
    var f := FractionOf(s[|a|..]);
    var e := ExponentOf(s[|a| + |f|..]);
    if f == "" && e == "" then Lexeme(Whole(a), s[|a|..])
    else Lexeme(Dbl(a + f + e), s[|a| + |f| + |e|..])
  }

  function FractionOf(s: string): (f: string)
    ensures |f| <= |s|
  {
    if s != "" && s[0] == '.' then
      SpanIsPrefix(s[1..], IsDigit);
      var d := Span(s[1..], IsDigit);
      if d == "" then "" else "." + d
    else ""
  }

  function ExponentOf(s: string): (e: string)
    ensures |e| <= |s|
  {
    if |s| >= 2 && (s[0] == 'e' || s[0] == 'E') then
      var n := if s[1] == '+' || s[1] == '-' then 2 else 1;
      SpanIsPrefix(s[n..], IsDigit);
      var d := Span(s[n..], IsDigit);
      if d == "" then "" else s[..n] + d
    else ""
  }

  const PAIRS := ["&&", "||", "==", "!=", "<=", ">="]
  const SINGLES := "().,!<>-"

  /** The next token of a text that starts with one. Triple-quoted and prefixed literals are not in the subset. */
  function LexOne(s: string): Lexeme
    requires s != ""
  {
    if IdentStart(s[0]) then
      SpanIsPrefix(s, IdentChar);
      var name := Span(s, IdentChar);
      if |name| < |s| && s[|name|] == '"' then NoLexeme else Lexeme(Ident(name), s[|name|..])
    else if s[0] == '"' then
      if |s| >= 3 && s[1] == '"' && s[2] == '"' then NoLexeme else StringBody(s[1..], "")
    else if IsDigit(s[0]) then Number(s)
    else if |s| >= 2 && s[..2] in PAIRS then Lexeme(Sym(s[..2]), s[2..])
    else if s[0] in SINGLES then Lexeme(Sym(s[..1]), s[1..])
    else NoLexeme
  }

  function Prepend(t: Token, ts: Option<seq<Token>>): Option<seq<Token>> {
    if ts.None? then None else Some([t] + ts.value)
  }

  function Lex(s: string): Option<seq<Token>>
    decreases |s|
  {
    if s == "" then Some([])
    else if s[0] == ' ' then Lex(s[1..])
    else
      match LexOne(s)
      case NoLexeme => None
      case Lexeme(t, rest) => if |rest| < |s| then Prepend(t, Lex(rest)) else None
  }

  // -------------------------------------------------------------------- parser

  datatype Expr =
    | Var(name: string)
    | StrLit(s: string)
    | NumLit(text: string)
    | IntLit(digits: string)
    | BoolLit(b: bool)
    | Not(e: Expr)
    | Neg(e: Expr)
    | Call(recv: Expr, fn: string, args: seq<Expr>)
    | Rel(op: string, l: Expr, r: Expr)
    | And(l: Expr, r: Expr)
    | Or(l: Expr, r: Expr)

  datatype Parsed = NoParse | Parsed(e: Expr, rest: seq<Token>)

  const RELATIONS := ["==", "!=", "<", "<=", ">", ">="]

  predicate Starts(ts: seq<Token>, sym: string) { ts != [] && ts[0] == Sym(sym) }
  predicate StartsRelation(ts: seq<Token>) { ts != [] && ts[0].Sym? && ts[0].text in RELATIONS }

  /** A result that used up at least one token. */
  predicate Fits(p: Parsed, ts: seq<Token>) { p.Parsed? ==> |p.rest| < |ts| }

  function ParseOr(ts: seq<Token>): (p: Parsed)
    ensures Fits(p, ts)
    decreases |ts|, 8
  {
    var l := ParseAnd(ts);
    if l.NoParse? then l else OrRest(l.e, l.rest)
  }

  function OrRest(left: Expr, ts: seq<Token>): (p: Parsed)
    ensures p.Parsed? ==> |p.rest| <= |ts|
    decreases |ts|, 7
  {
    if !Starts(ts, "||") then Parsed(left, ts)
    else
      var r := ParseAnd(ts[1..]);
      if r.NoParse? then r else OrRest(Or(left, r.e), r.rest)
  }

  function ParseAnd(ts: seq<Token>): (p: Parsed)
    ensures Fits(p, ts)
    decreases |ts|, 6
  {
    var l := ParseRel(ts);
    if l.NoParse? then l else AndRest(l.e, l.rest)
  }

  function AndRest(left: Expr, ts: seq<Token>): (p: Parsed)
    ensures p.Parsed? ==> |p.rest| <= |ts|
    decreases |ts|, 5
  {
    if !Starts(ts, "&&") then Parsed(left, ts)
    else
      var r := ParseRel(ts[1..]);
      if r.NoParse? then r else AndRest(And(left, r.e), r.rest)
  }

  function ParseRel(ts: seq<Token>): (p: Parsed)
    ensures Fits(p, ts)
    decreases |ts|, 4
  {
    var l := ParseUnary(ts);
    if l.NoParse? then l else RelRest(l.e, l.rest)
  }

  function RelRest(left: Expr, ts: seq<Token>): (p: Parsed)
    ensures p.Parsed? ==> |p.rest| <= |ts|
    decreases |ts|, 3
  {
    if !StartsRelation(ts) then Parsed(left, ts)
    else
      var r := ParseUnary(ts[1..]);
      if r.NoParse? then r else RelRest(Rel(ts[0].text, left, r.e), r.rest)
  }

  function ParseUnary(ts: seq<Token>): (p: Parsed)
    ensures Fits(p, ts)
    decreases |ts|, 2
  {
    if Starts(ts, "!") then
      var e := ParseUnary(ts[1..]);
      if e.NoParse? then e else Parsed(Not(e.e), e.rest)
    else if Starts(ts, "-") then
      var e := ParseUnary(ts[1..]);
      if e.NoParse? then e else Parsed(Neg(e.e), e.rest)
    else
      var m := ParsePrimary(ts);
      if m.NoParse? then m else MemberRest(m.e, m.rest)
  }

  function ParsePrimary(ts: seq<Token>): (p: Parsed)
    ensures Fits(p, ts)
    decreases |ts|, 1
  {
    if ts == [] then NoParse
    else
      match ts[0]
      case Ident(name) =>
        Parsed(if name == "true" then BoolLit(true) else if name == "false" then BoolLit(false) else Var(name), ts[1..])
      case Str(v) => Parsed(StrLit(v), ts[1..])
      case Dbl(text) => Parsed(NumLit(text), ts[1..])
      case Whole(digits) => Parsed(IntLit(digits), ts[1..])
      case Sym(text) =>
        if text != "(" then NoParse
        else
          var e := ParseOr(ts[1..]);
          if e.Parsed? && Starts(e.rest, ")") then Parsed(e.e, e.rest[1..]) else NoParse
  }

  /** Calls on a receiver: ".name()" or ".name(argument)". */
  function MemberRest(left: Expr, ts: seq<Token>): (p: Parsed)
    ensures p.Parsed? ==> |p.rest| <= |ts|
    decreases |ts|, 0
  {
    if !Starts(ts, ".") then Parsed(left, ts)
    else if |ts| < 4 || !ts[1].Ident? || ts[2] != Sym("(") then NoParse
    else if ts[3] == Sym(")") then MemberRest(Call(left, ts[1].name, []), ts[4..])
    else
      var a := ParseOr(ts[3..]);
      if a.Parsed? && Starts(a.rest, ")") then MemberRest(Call(left, ts[1].name, [a.e]), a.rest[1..]) else NoParse
  }

  /** A whole text parses when no token is left over. */
  function Parse(s: string): Option<Expr> {
    var ts := Lex(s);
    if ts.None? then None
    else
      var p := ParseOr(ts.value);
      if p.Parsed? && p.rest == [] then Some(p.e) else None
  }

  // ----------------------------------------------------------------- evaluation

  /** The variables a rule sees. */
  datatype Email = Email(
    subject: string, body: string, from: string, fromName: string, recipient: string, fromDomain: string,
    hasAttachments: bool, spamScore: real)

  datatype Value = VStr(s: string) | VNum(n: real) | VBool(b: bool)

  /** RE2 matching and the value of a double literal come from outside. */
  datatype World = World(matches: (string, string) -> bool, number: string -> real)

  function Lookup(m: Email, name: string): Option<Value> {
    match name
    case "subject" => Some(VStr(m.subject))
    case "body" => Some(VStr(m.body))
    case "from" => Some(VStr(m.from))
    case "fromName" => Some(VStr(m.fromName))
    case "recipient" => Some(VStr(m.recipient))
    case "fromDomain" => Some(VStr(m.fromDomain))
    case "hasAttachments" => Some(VBool(m.hasAttachments))
    case "spamScore" => Some(VNum(m.spamScore))
    case _ => None
  }

  function AsciiLower(s: string): string {
    if s == "" then ""
    else AsciiLower(s[..|s| - 1]) + [if 'A' <= s[|s| - 1] <= 'Z' then (s[|s| - 1] as int + 32) as char else s[|s| - 1]]
  }

  function Compare(op: string, a: Value, b: Value): Option<Value> {
    match (a, b)
    case (VNum(x), VNum(y)) =>
      Some(VBool(if op == "==" then x == y else if op == "!=" then x != y else if op == "<" then x < y
                 else if op == "<=" then x <= y else if op == ">" then x > y else x >= y))
    case (VStr(x), VStr(y)) =>
      if op == "==" then Some(VBool(x == y)) else if op == "!=" then Some(VBool(x != y)) else None
    case (VBool(x), VBool(y)) =>
      if op == "==" then Some(VBool(x == y)) else if op == "!=" then Some(VBool(x != y)) else None
    case _ => None
  }

  function Invoke(w: World, recv: Value, fn: string, args: seq<Value>): Option<Value> {
    if !recv.VStr? then None
    else if fn == "lowerAscii" && args == [] then Some(VStr(AsciiLower(recv.s)))
    else if |args| == 1 && args[0].VStr? then
      if fn == "contains" then Some(VBool(Contains(recv.s, args[0].s)))
      else if fn == "startsWith" then Some(VBool(args[0].s <= recv.s))
      else if fn == "endsWith" then Some(VBool(HasSuffix(recv.s, args[0].s)))
      else if fn == "matches" then Some(VBool(w.matches(args[0].s, recv.s)))
      else None
    else None
  }

  /** None is a type or evaluation error; an integer literal has no place among doubles. */
  function Eval(w: World, m: Email, e: Expr): Option<Value>
    decreases e, 0
  {
    match e
    case Var(name) => Lookup(m, name)
    case StrLit(s) => Some(VStr(s))
    case NumLit(text) => Some(VNum(w.number(text)))
    case IntLit(_) => None
    case BoolLit(b) => Some(VBool(b))
    case Not(x) =>
      var v := Eval(w, m, x);
      if v.Some? && v.value.VBool? then Some(VBool(!v.value.b)) else None
    case Neg(x) =>
      var v := Eval(w, m, x);
      if v.Some? && v.value.VNum? then Some(VNum(-v.value.n)) else None
    case Call(recv, fn, args) =>
      var v, vs := Eval(w, m, recv), EvalAll(w, m, args);
      if v.None? || vs.None? then None else Invoke(w, v.value, fn, vs.value)
    case Rel(op, l, r) =>
      var a, b := Eval(w, m, l), Eval(w, m, r);
      if a.None? || b.None? then None else Compare(op, a.value, b.value)
    case And(l, r) =>
      var a, b := Eval(w, m, l), Eval(w, m, r);
      if a.Some? && b.Some? && a.value.VBool? && b.value.VBool? then Some(VBool(a.value.b && b.value.b)) else None
    case Or(l, r) =>
      var a, b := Eval(w, m, l), Eval(w, m, r);
      if a.Some? && b.Some? && a.value.VBool? && b.value.VBool? then Some(VBool(a.value.b || b.value.b)) else None
  }

  function EvalAll(w: World, m: Email, es: seq<Expr>): Option<seq<Value>>
    decreases es, 1
  {
    if es == [] then Some([])
    else
      var v, vs := Eval(w, m, es[0]), EvalAll(w, m, es[1..]);
      if v.None? || vs.None? then None else Some([v.value] + vs.value)
  }
}
