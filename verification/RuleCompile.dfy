/** The emitted text of a rule parses back to its tests, so compiled rules mean what their conditions say. */
module RuleCompile {
  import opened Rows
  import opened Text
  import opened Cel
  import opened RuleText
  import opened RuleMeaning

  // -------------------------------------------------- the text is the pieces' text

  lemma Print5(p: char -> bool, a: Piece, b: Piece, c: Piece, d: Piece, e: Piece)
    ensures Print(p, [a, b, c, d, e]) ==
            PieceText(p, a) + PieceText(p, b) + PieceText(p, c) + PieceText(p, d) + PieceText(p, e)
  {
    hide PieceText, Print;
    assert [a, b, c, d, e] == [a] + [b, c, d, e] && [b, c, d, e] == [b] + [c, d, e];
    assert [c, d, e] == [c] + [d, e] && [d, e] == [d] + [e];
    PrintConcat(p, [a], [b, c, d, e]);
    PrintConcat(p, [b], [c, d, e]);
    PrintConcat(p, [c], [d, e]);
    PrintConcat(p, [d], [e]);
    PrintOne(p, a);
    PrintOne(p, b);
    PrintOne(p, c);
    PrintOne(p, d);
    PrintOne(p, e);
  }

  lemma PrintLower(p: char -> bool, field: string)
    ensures Print(p, LowerCall(field)) == field + ".lowerAscii()"
  {
    hide Print;
    Print5(p, Word(field), Punct("."), Word("lowerAscii"), Punct("("), Punct(")"));
    assert "." + "lowerAscii" + "(" + ")" == ".lowerAscii()";
  }

  lemma PrintMethod(p: char -> bool, fn: string, value: string)
    ensures Print(p, MethodCall(fn, value)) == "." + fn + "(" + Quoted(p, value) + ")"
  {
    hide Print, Quoted;
    Print5(p, Punct("."), Word(fn), Punct("("), Literal(value), Punct(")"));
  }

  lemma PrintOne(p: char -> bool, a: Piece)
    ensures Print(p, [a]) == PieceText(p, a)
  {
    hide PieceText;
    assert [a][1..] == [];
    assert Print(p, []) == "";
  }

  lemma PrintNone(p: char -> bool)
    ensures Print(p, []) == ""
  {
  }

  lemma PrintSpaced(p: char -> bool, sym: string)
    ensures Print(p, [Gap, Punct(sym), Gap]) == " " + sym + " "
  {
    assert [Gap, Punct(sym), Gap] == [Gap] + ([Punct(sym)] + [Gap]);
    PrintConcat(p, [Gap], [Punct(sym)] + [Gap]);
    PrintConcat(p, [Punct(sym)], [Gap]);
    PrintOne(p, Gap);
    PrintOne(p, Punct(sym));
    hide Print;
  }

  lemma PrintCompared(p: char -> bool, sym: string, right: seq<Piece>)
    ensures Print(p, Compared(sym, right)) == " " + sym + " " + Print(p, right)
  {
    PrintSpaced(p, sym);
    PrintConcat(p, [Gap, Punct(sym), Gap], right);
    hide Print;
  }

  lemma PrintNumber(p: char -> bool, d: Decimal)
    ensures Print(p, NumberPieces(d)) == DoubleLiteral(d)
  {
    hide Print, Unsigned;
    PrintOne(p, Num(d));
    PrintOne(p, Punct("-"));
    PrintConcat(p, [Punct("-")], [Num(d)]);
    assert [] + [Num(d)] == [Num(d)];
    assert "" + Unsigned(d) == Unsigned(d);
  }

  lemma PrintPlain(h: Host, t: Test)
    requires t.Plain?
    ensures Print(h.printable, TestPieces(h, t)) == Render(h, t)
  {
    hide Print, Quoted, AsciiLower, LowerCall, MethodCall, Compared;
    var p, lf, lv := h.printable, LowerCall(t.field), AsciiLower(t.value);
    var q := Quoted(p, lv);
    PrintLower(p, t.field);
    match t.op
    case "contains" =>
      PrintMethod(p, "contains", lv);
      PrintConcat(p, lf, MethodCall("contains", lv));
      assert "." + "contains" + "(" == ".contains(";
    case "not_contains" =>
      PrintMethod(p, "contains", lv);
      PrintConcat(p, [Punct("!")] + lf, MethodCall("contains", lv));
      PrintConcat(p, [Punct("!")], lf);
      PrintOne(p, Punct("!"));
      assert "." + "contains" + "(" == ".contains(";
    case "equals" =>
      PrintOne(p, Literal(lv));
      PrintCompared(p, "==", [Literal(lv)]);
      PrintConcat(p, lf, Compared("==", [Literal(lv)]));
      assert " " + "==" + " " == " == ";
    case "not_equals" =>
      PrintOne(p, Literal(lv));
      PrintCompared(p, "!=", [Literal(lv)]);
      PrintConcat(p, lf, Compared("!=", [Literal(lv)]));
      assert " " + "!=" + " " == " != ";
    case "starts_with" =>
      PrintMethod(p, "startsWith", lv);
      PrintConcat(p, lf, MethodCall("startsWith", lv));
      assert "." + "startsWith" + "(" == ".startsWith(";
    case _ =>
      PrintMethod(p, "endsWith", lv);
      PrintConcat(p, lf, MethodCall("endsWith", lv));
      assert "." + "endsWith" + "(" == ".endsWith(";
  }

  lemma PrintTest(h: Host, t: Test)
    ensures Print(h.printable, TestPieces(h, t)) == Render(h, t)
  {
    hide Print, Quoted, AsciiLower, DoubleLiteral, NumberPieces, NumericSymbol, Compared, MethodCall;
    var p := h.printable;
    match t
    case Attachments(differs, want) =>
      var sym, right := if differs then "!=" else "==", Word(if want then "true" else "false");
      PrintOne(p, Word("hasAttachments"));
      PrintOne(p, right);
      PrintCompared(p, sym, [right]);
      PrintConcat(p, [Word("hasAttachments")], Compared(sym, [right]));
    case Score(op, n) =>
      var right := NumberPieces(h.formatFloat(n));
      PrintOne(p, Word("spamScore"));
      PrintNumber(p, h.formatFloat(n));
      PrintCompared(p, NumericSymbol(op), right);
      PrintConcat(p, [Word("spamScore")], Compared(NumericSymbol(op), right));
    case Pattern(field, pattern) =>
      PrintOne(p, Word(field));
      PrintMethod(p, "matches", pattern);
      PrintConcat(p, [Word(field)], MethodCall("matches", pattern));
      assert "." + "matches" + "(" == ".matches(";
    case Plain(_, _, _) =>
      PrintPlain(h, t);
  }

  lemma PrintBracketed(h: Host, t: Test)
    ensures Print(h.printable, Bracketed(h, t)) == "(" + Render(h, t) + ")"
  {
    hide Print, TestPieces, Render;
    var p := h.printable;
    PrintTest(h, t);
    PrintOne(p, Punct("("));
    PrintOne(p, Punct(")"));
    PrintConcat(p, [Punct("(")] + TestPieces(h, t), [Punct(")")]);
    PrintConcat(p, [Punct("(")], TestPieces(h, t));
  }

  function Operator(mode: string): string { if mode == MATCH_ANY then "||" else "&&" }

  lemma {:induction false} PrintJoined(h: Host, mode: string, ts: seq<Test>)
    ensures Print(h.printable, JoinPieces(h, mode, ts)) == JoinAll(h, mode, ts)
  {
    hide Print, Bracketed, Render;
    var p := h.printable;
    if ts == [] {
      PrintNone(p);
    } else if |ts| == 1 {
      PrintBracketed(h, ts[0]);
    } else {
      var front, last := ts[..|ts| - 1], ts[|ts| - 1];
      var mid := [Gap, Punct(Operator(mode)), Gap];
      PrintJoined(h, mode, front);
      PrintBracketed(h, last);
      PrintSpaced(p, Operator(mode));
      PrintConcat(p, JoinPieces(h, mode, front) + mid, Bracketed(h, last));
      PrintConcat(p, JoinPieces(h, mode, front), mid);
      assert " " + Operator(mode) + " " == Joiner(mode);
    }
  }

  // ------------------------------------------------------- the pieces can be printed

  lemma PrintableConcat(a: seq<Piece>, b: seq<Piece>)
    requires Printable(a) && Printable(b)
    requires a != [] && b != [] ==> MayFollow(a[|a| - 1], b[0])
    ensures Printable(a + b)
  {
    hide GoodPiece, MayFollow;
    var c := a + b;
    forall i, j | 0 <= i < j < |c| && j == i + 1 ensures MayFollow(c[i], c[j]) {
      if j < |a| {
        assert c[i] == a[i] && c[j] == a[j];
      } else if i >= |a| {
        assert c[i] == b[i - |a|] && c[j] == b[j - |a|];
      }
    }
  }

  /** A printable operand: it begins with a word or "!" and what follows it is ")" or a blank. */
  ghost predicate Operand(ps: seq<Piece>) {
    Printable(ps) && ps != [] && (ps[0].Word? || ps[0] == Punct("!"))
  }

  lemma GoodField(field: string)
    requires field in TEXT_FIELDS
    ensures GoodPiece(Word(field))
  {
  }

  lemma LowerPrintable(field: string)
    requires field in TEXT_FIELDS
    ensures Operand(LowerCall(field))
  {
    GoodField(field);
  }

  lemma MethodPrintable(fn: string, value: string)
    requires fn in ["contains", "startsWith", "endsWith", "matches"]
    ensures Printable(MethodCall(fn, value))
  {
    assert GoodPiece(Word(fn));
  }

  lemma ComparedPrintable(sym: string, right: Piece)
    requires sym in RELATIONS && GoodPiece(right) && !right.Punct?
    ensures Printable(Compared(sym, [right]))
  {
    assert Compared(sym, [right]) == [Gap, Punct(sym), Gap, right];
  }

  lemma NegativePrintable(sym: string, d: Decimal)
    requires sym in RELATIONS && WellFormed(d)
    ensures Printable(Compared(sym, NumberPieces(d)))
  {
    if d.negative {
      assert NumberPieces(d) == [Punct("-"), Num(d)];
      assert Compared(sym, NumberPieces(d)) == [Gap, Punct(sym), Gap, Punct("-"), Num(d)];
    } else {
      assert NumberPieces(d) == [Num(d)];
      ComparedPrintable(sym, Num(d));
    }
  }

  lemma PlainPrintable(h: Host, t: Test)
    requires t.Plain? && Checked(t)
    ensures Operand(TestPieces(h, t))
  {
    hide Printable, GoodPiece, AsciiLower;
    var lf, lv := LowerCall(t.field), AsciiLower(t.value);
    LowerPrintable(t.field);
    MethodPrintable("contains", lv);
    MethodPrintable("startsWith", lv);
    MethodPrintable("endsWith", lv);
    GoodLiteral(lv);
    ComparedPrintable("==", Literal(lv));
    ComparedPrintable("!=", Literal(lv));
    PrintableConcat(lf, MethodCall("contains", lv));
    PrintableConcat(lf, MethodCall("startsWith", lv));
    PrintableConcat(lf, MethodCall("endsWith", lv));
    PrintableConcat(lf, Compared("==", [Literal(lv)]));
    PrintableConcat(lf, Compared("!=", [Literal(lv)]));
    OnePrintable("!");
    PrintableConcat([Punct("!")], lf);
    PrintableConcat([Punct("!")] + lf, MethodCall("contains", lv));
  }

  lemma GoodLiteral(v: string)
    ensures GoodPiece(Literal(v))
  {
  }

  lemma OnePrintable(sym: string)
    requires sym in PAIRS || sym in ["(", ")", "!"]
    ensures Printable([Punct(sym)])
  {
  }

  lemma WordPrintable(name: string)
    requires name in TEXT_FIELDS || name in ["hasAttachments", "spamScore", "true", "false"]
    ensures Operand([Word(name)])
  {
    assert GoodPiece(Word(name));
  }

  lemma TestPrintable(h: Host, w: World, t: Test)
    requires Checked(t) && (t.Score? ==> Exact(h, w, t.number))
    ensures Operand(TestPieces(h, t))
  {
    match t
    case Attachments(differs, want) =>
      hide Printable, GoodPiece;
      var sym, right := if differs then "!=" else "==", Word(if want then "true" else "false");
      WordPrintable("hasAttachments");
      WordPrintable(right.name);
      GoodWord(right.name);
      ComparedPrintable(sym, right);
      PrintableConcat([Word("hasAttachments")], Compared(sym, [right]));
    case Score(op, n) =>
      hide Printable, GoodPiece, NumberPieces;
      WordPrintable("spamScore");
      NegativePrintable(NumericSymbol(op), h.formatFloat(n));
      PrintableConcat([Word("spamScore")], Compared(NumericSymbol(op), NumberPieces(h.formatFloat(n))));
    case Pattern(field, pattern) =>
      hide Printable, GoodPiece;
      WordPrintable(field);
      MethodPrintable("matches", pattern);
      PrintableConcat([Word(field)], MethodCall("matches", pattern));
    case Plain(_, _, _) =>
      PlainPrintable(h, t);
  }

  lemma GoodWord(name: string)
    requires Operand([Word(name)])
    ensures GoodPiece(Word(name))
  {
    assert GoodPiece([Word(name)][0]);
  }

  lemma BracketedPrintable(h: Host, w: World, t: Test)
    requires Checked(t) && (t.Score? ==> Exact(h, w, t.number))
    ensures Printable(Bracketed(h, t))
  {
    hide Printable, GoodPiece, TestPieces, Checked, Exact;
    TestPrintable(h, w, t);
    OnePrintable("(");
    OnePrintable(")");
    PrintableConcat([Punct("(")], TestPieces(h, t));
    LastMayClose(TestPieces(h, t));
    PrintableConcat([Punct("(")] + TestPieces(h, t), [Punct(")")]);
  }

  lemma LastMayClose(ps: seq<Piece>)
    requires Printable(ps) && ps != []
    ensures MayFollow(ps[|ps| - 1], Punct(")"))
  {
  }

  /** Tests as Check lets them through, with numbers that print faithfully. */
  ghost predicate Sound(h: Host, w: World, ts: seq<Test>) {
    forall i :: 0 <= i < |ts| ==> Checked(ts[i]) && (ts[i].Score? ==> Exact(h, w, ts[i].number))
  }

  lemma {:induction false} JoinedPrintable(h: Host, w: World, mode: string, ts: seq<Test>)
    requires Sound(h, w, ts)
    ensures Printable(JoinPieces(h, mode, ts))
  {
    hide GoodPiece, TestPieces, Checked, Exact, Printable;
    if ts == [] {
      NonePrintable();
    } else {
      var front, last := ts[..|ts| - 1], ts[|ts| - 1];
      BracketedPrintable(h, w, last);
      if |ts| > 1 {
        JoinedPrintable(h, w, mode, front);
        SpacedPrintable(Operator(mode));
        var mid := [Gap, Punct(Operator(mode)), Gap];
        JoinedEnds(h, mode, front);
        PrintableConcat(JoinPieces(h, mode, front), mid);
        PrintableConcat(JoinPieces(h, mode, front) + mid, Bracketed(h, last));
      }
    }
  }

  lemma NonePrintable()
    ensures Printable([])
  {
  }

  lemma SpacedPrintable(sym: string)
    requires sym in PAIRS
    ensures Printable([Gap, Punct(sym), Gap])
  {
  }

  lemma JoinedEnds(h: Host, mode: string, ts: seq<Test>)
    requires ts != []
    ensures JoinPieces(h, mode, ts) != []
    ensures JoinPieces(h, mode, ts)[|JoinPieces(h, mode, ts)| - 1] == Punct(")")
  {
    hide TestPieces;
  }

  // ------------------------------------------------------------ the tokens parse back

  lemma Tokens5(a: Piece, b: Piece, c: Piece, d: Piece, e: Piece)
    ensures Tokens([a, b, c, d, e]) == TokensOf(a) + TokensOf(b) + TokensOf(c) + TokensOf(d) + TokensOf(e)
  {
    hide TokensOf;
    assert [a, b, c, d, e][1..] == [b, c, d, e] && [b, c, d, e][1..] == [c, d, e];
    assert [c, d, e][1..] == [d, e] && [d, e][1..] == [e] && [e][1..] == [];
    assert Tokens([e]) == TokensOf(e) by { assert Tokens([]) == []; }
    assert Tokens([d, e]) == TokensOf(d) + TokensOf(e);
    assert Tokens([b, c, d, e]) == TokensOf(b) + (TokensOf(c) + Tokens([d, e]));
  }

  lemma TokensOne(a: Piece)
    ensures Tokens([a]) == TokensOf(a)
  {
    assert [a][1..] == [] && Tokens([]) == [];
  }

  lemma TokensSpaced(sym: string)
    ensures Tokens([Gap, Punct(sym), Gap]) == [Sym(sym)]
  {
    assert [Gap, Punct(sym), Gap] == [Gap] + ([Punct(sym)] + [Gap]);
    TokensConcat([Gap], [Punct(sym)] + [Gap]);
    TokensConcat([Punct(sym)], [Gap]);
    TokensOne(Gap);
    TokensOne(Punct(sym));
  }

  /** Where an operand ends. */
  predicate Stops(rest: seq<Token>) { rest == [] || rest[0] in [Sym(")"), Sym("&&"), Sym("||")] }

  predicate Closes(rest: seq<Token>) { rest == [] || rest[0] == Sym(")") }

  lemma UnaryIsRel(ts: seq<Token>)
    requires ParseUnary(ts).Parsed? && Stops(ParseUnary(ts).rest)
    ensures ParseRel(ts) == ParseUnary(ts)
  {
    hide ParseUnary;
  }

  lemma RelIsOr(ts: seq<Token>)
    requires ParseRel(ts).Parsed? && Closes(ParseRel(ts).rest)
    ensures ParseOr(ts) == ParseRel(ts)
  {
    hide ParseRel;
    assert ParseAnd(ts) == ParseRel(ts);
  }

  /** A string literal before ")" is a whole expression. */
  lemma LiteralParses(v: string, rest: seq<Token>)
    requires Closes(rest)
    ensures ParseUnary([Str(v)] + rest) == Parsed(StrLit(v), rest)
    ensures ParseOr([Str(v)] + rest) == Parsed(StrLit(v), rest)
  {
    var ts := [Str(v)] + rest;
    assert ts[1..] == rest;
    assert ParseUnary(ts) == Parsed(StrLit(v), rest);
    UnaryIsRel(ts);
    RelIsOr(ts);
  }

  lemma EmptyCallParses(left: Expr, fn: string, rest: seq<Token>)
    ensures MemberRest(left, [Sym("."), Ident(fn), Sym("("), Sym(")")] + rest) ==
            MemberRest(Call(left, fn, []), rest)
  {
    hide ParseOr;
    assert ([Sym("."), Ident(fn), Sym("("), Sym(")")] + rest)[4..] == rest;
  }

  lemma LiteralCallParses(left: Expr, fn: string, v: string, rest: seq<Token>)
    ensures MemberRest(left, [Sym("."), Ident(fn), Sym("("), Str(v), Sym(")")] + rest) ==
            MemberRest(Call(left, fn, [StrLit(v)]), rest)
  {
    hide ParseOr;
    var ts := [Sym("."), Ident(fn), Sym("("), Str(v), Sym(")")] + rest;
    LiteralParses(v, [Sym(")")] + rest);
    assert ts[3..] == [Str(v)] + ([Sym(")")] + rest);
    assert ([Sym(")")] + rest)[1..] == rest;
  }

  lemma MemberStops(left: Expr, rest: seq<Token>)
    requires rest == [] || (rest[0].Sym? && rest[0].text != ".")
    ensures MemberRest(left, rest) == Parsed(left, rest)
  {
  }

  /** A field, then its calls. */
  lemma FieldParses(field: string, rest: seq<Token>)
    requires field != "true" && field != "false"
    ensures ParseUnary([Ident(field)] + rest) == MemberRest(Var(field), rest)
  {
    hide MemberRest;
    assert ([Ident(field)] + rest)[1..] == rest;
  }

  lemma LoweredParses(field: string, rest: seq<Token>)
    requires field in TEXT_FIELDS
    ensures ParseUnary(Tokens(LowerCall(field)) + rest) == MemberRest(Lowered(field), rest)
  {
    hide ParseUnary, MemberRest, Tokens;
    Tokens5(Word(field), Punct("."), Word("lowerAscii"), Punct("("), Punct(")"));
    var call := [Sym("."), Ident("lowerAscii"), Sym("("), Sym(")")];
    assert Tokens(LowerCall(field)) + rest == [Ident(field)] + (call + rest);
    FieldParses(field, call + rest);
    EmptyCallParses(Var(field), "lowerAscii", rest);
  }

  lemma MethodParses(left: Expr, fn: string, v: string, rest: seq<Token>)
    requires Stops(rest)
    ensures MemberRest(left, Tokens(MethodCall(fn, v)) + rest) == Parsed(Call(left, fn, [StrLit(v)]), rest)
  {
    hide MemberRest, Tokens;
    Tokens5(Punct("."), Word(fn), Punct("("), Literal(v), Punct(")"));
    assert Tokens(MethodCall(fn, v)) == [Sym("."), Ident(fn), Sym("("), Str(v), Sym(")")];
    LiteralCallParses(left, fn, v, rest);
    MemberStops(Call(left, fn, [StrLit(v)]), rest);
  }

  /** An operand, a relation and a second operand. */
  lemma RelationParses(ts: seq<Token>, left: Expr, sym: string, right: seq<Token>, e: Expr, rest: seq<Token>)
    requires sym in RELATIONS && Stops(rest)
    requires ParseUnary(ts) == Parsed(left, [Sym(sym)] + right)
    requires ParseUnary(right) == Parsed(e, rest)
    ensures ParseRel(ts) == Parsed(Rel(sym, left, e), rest)
  {
    hide ParseUnary;
    assert ([Sym(sym)] + right)[1..] == right;
    assert RelRest(Rel(sym, left, e), rest) == Parsed(Rel(sym, left, e), rest);
    assert RelRest(left, [Sym(sym)] + right) == RelRest(Rel(sym, left, e), rest);
  }

  lemma ComparedTokens(sym: string, right: seq<Piece>)
    ensures Tokens(Compared(sym, right)) == [Sym(sym)] + Tokens(right)
  {
    hide Tokens;
    TokensSpaced(sym);
    TokensConcat([Gap, Punct(sym), Gap], right);
  }

  lemma FoldedCallParses(field: string, fn: string, v: string, rest: seq<Token>)
    requires field in TEXT_FIELDS && Stops(rest)
    ensures ParseUnary(Tokens(LowerCall(field) + MethodCall(fn, v)) + rest) ==
            Parsed(Call(Lowered(field), fn, [StrLit(v)]), rest)
  {
    hide ParseUnary, MemberRest, Tokens, LowerCall, MethodCall;
    TokensConcat(LowerCall(field), MethodCall(fn, v));
    var tail := Tokens(MethodCall(fn, v)) + rest;
    assert Tokens(LowerCall(field) + MethodCall(fn, v)) + rest == Tokens(LowerCall(field)) + tail;
    LoweredParses(field, tail);
    MethodParses(Lowered(field), fn, v, rest);
  }

  lemma FoldedEqualityParses(field: string, sym: string, v: string, rest: seq<Token>)
    requires field in TEXT_FIELDS && sym in RELATIONS && Closes(rest)
    ensures ParseRel(Tokens(LowerCall(field) + Compared(sym, [Literal(v)])) + rest) ==
            Parsed(Rel(sym, Lowered(field), StrLit(v)), rest)
  {
    hide ParseUnary, ParseRel, MemberRest, Tokens, LowerCall, Compared;
    TokensConcat(LowerCall(field), Compared(sym, [Literal(v)]));
    ComparedTokens(sym, [Literal(v)]);
    TokensOne(Literal(v));
    var right := [Str(v)] + rest;
    var ts := Tokens(LowerCall(field) + Compared(sym, [Literal(v)])) + rest;
    assert ts == Tokens(LowerCall(field)) + ([Sym(sym)] + right);
    LoweredParses(field, [Sym(sym)] + right);
    MemberStops(Lowered(field), [Sym(sym)] + right);
    LiteralParses(v, rest);
    RelationParses(ts, Lowered(field), sym, right, StrLit(v), rest);
  }

  lemma NotParses(ts: seq<Token>)
    requires ParseUnary(ts).Parsed?
    ensures ParseUnary([Sym("!")] + ts) == Parsed(Not(ParseUnary(ts).e), ParseUnary(ts).rest)
  {
    hide MemberRest, ParsePrimary;
    assert ([Sym("!")] + ts)[1..] == ts;
  }

  lemma PlainParses(h: Host, t: Test, rest: seq<Token>)
    requires t.Plain? && Checked(t) && Closes(rest)
    ensures ParseRel(Tokens(TestPieces(h, t)) + rest) == Parsed(TestExpr(h, t), rest)
  {
    hide ParseUnary, ParseRel, MemberRest, Tokens, LowerCall, MethodCall, Compared, AsciiLower;
    var lf, lv := LowerCall(t.field), AsciiLower(t.value);
    var ts := Tokens(TestPieces(h, t)) + rest;
    match t.op
    case "contains" =>
      FoldedCallParses(t.field, "contains", lv, rest);
      UnaryIsRel(ts);
    case "not_contains" =>
      var inner := lf + MethodCall("contains", lv);
      FoldedCallParses(t.field, "contains", lv, rest);
      TokensOne(Punct("!"));
      TokensConcat([Punct("!")], inner);
      assert [Punct("!")] + lf + MethodCall("contains", lv) == [Punct("!")] + inner;
      assert ts == [Sym("!")] + (Tokens(inner) + rest);
      NotParses(Tokens(inner) + rest);
      UnaryIsRel(ts);
    case "equals" => FoldedEqualityParses(t.field, "==", lv, rest);
    case "not_equals" => FoldedEqualityParses(t.field, "!=", lv, rest);
    case "starts_with" =>
      FoldedCallParses(t.field, "startsWith", lv, rest);
      UnaryIsRel(ts);
    case _ =>
      FoldedCallParses(t.field, "endsWith", lv, rest);
      UnaryIsRel(ts);
  }

  lemma BoolParses(want: bool, rest: seq<Token>)
    requires Closes(rest)
    ensures ParseUnary([Ident(if want then "true" else "false")] + rest) == Parsed(BoolLit(want), rest)
  {
    assert ([Ident(if want then "true" else "false")] + rest)[1..] == rest;
  }

  lemma NumberParses(d: Decimal, rest: seq<Token>)
    requires Closes(rest)
    ensures ParseUnary(Tokens(NumberPieces(d)) + rest) == Parsed(NumberExpr(d), rest)
  {
    hide Tokens, Unsigned;
    TokensOne(Num(d));
    TokensOne(Punct("-"));
    TokensConcat([Punct("-")], [Num(d)]);
    var num := [Dbl(Unsigned(d))] + rest;
    assert num[1..] == rest;
    assert ParseUnary(num) == Parsed(NumLit(Unsigned(d)), rest);
    if d.negative {
      assert Tokens(NumberPieces(d)) + rest == [Sym("-")] + num;
      assert ([Sym("-")] + num)[1..] == num;
    } else {
      assert [] + [Num(d)] == [Num(d)];
      assert Tokens(NumberPieces(d)) + rest == num;
    }
  }

  lemma FieldRelationParses(field: string, sym: string, right: seq<Piece>, e: Expr, rest: seq<Token>)
    requires field != "true" && field != "false" && sym in RELATIONS && Closes(rest)
    requires ParseUnary(Tokens(right) + rest) == Parsed(e, rest)
    ensures ParseRel(Tokens([Word(field)] + Compared(sym, right)) + rest) == Parsed(Rel(sym, Var(field), e), rest)
  {
    hide ParseUnary, ParseRel, MemberRest, Tokens, Compared;
    TokensConcat([Word(field)], Compared(sym, right));
    ComparedTokens(sym, right);
    TokensOne(Word(field));
    var tail := [Sym(sym)] + (Tokens(right) + rest);
    var ts := Tokens([Word(field)] + Compared(sym, right)) + rest;
    assert ts == [Ident(field)] + tail;
    FieldParses(field, tail);
    MemberStops(Var(field), tail);
    RelationParses(ts, Var(field), sym, Tokens(right) + rest, e, rest);
  }

  lemma PatternParses(field: string, pattern: string, rest: seq<Token>)
    requires field in TEXT_FIELDS && Closes(rest)
    ensures ParseRel(Tokens([Word(field)] + MethodCall("matches", pattern)) + rest) ==
            Parsed(Call(Var(field), "matches", [StrLit(pattern)]), rest)
  {
    hide ParseUnary, ParseRel, MemberRest, Tokens, MethodCall;
    var call := MethodCall("matches", pattern);
    TokensConcat([Word(field)], call);
    TokensOne(Word(field));
    var ts := Tokens([Word(field)] + call) + rest;
    assert ts == [Ident(field)] + (Tokens(call) + rest);
    FieldParses(field, Tokens(call) + rest);
    MethodParses(Var(field), "matches", pattern, rest);
    UnaryIsRel(ts);
  }

  /** Every rendered test parses to its tree, up to the bracket that closes it. */
  lemma TestParses(h: Host, t: Test, rest: seq<Token>)
    requires Checked(t) && Closes(rest)
    ensures ParseRel(Tokens(TestPieces(h, t)) + rest) == Parsed(TestExpr(h, t), rest)
  {
    hide ParseUnary, ParseRel, Tokens, MethodCall, Compared, NumberPieces, NumberExpr;
    match t
    case Attachments(differs, want) =>
      var right := [Word(if want then "true" else "false")];
      TokensOne(right[0]);
      BoolParses(want, rest);
      FieldRelationParses("hasAttachments", if differs then "!=" else "==", right, BoolLit(want), rest);
    case Score(op, n) =>
      var d := h.formatFloat(n);
      NumberParses(d, rest);
      FieldRelationParses("spamScore", NumericSymbol(op), NumberPieces(d), NumberExpr(d), rest);
    case Pattern(field, pattern) => PatternParses(field, pattern, rest);
    case Plain(_, _, _) => PlainParses(h, t, rest);
  }

  lemma BracketTokens(h: Host, t: Test)
    ensures Tokens(Bracketed(h, t)) == [Sym("(")] + Tokens(TestPieces(h, t)) + [Sym(")")]
  {
    hide Tokens, TestPieces;
    TokensOne(Punct("("));
    TokensOne(Punct(")"));
    TokensConcat([Punct("(")] + TestPieces(h, t), [Punct(")")]);
    TokensConcat([Punct("(")], TestPieces(h, t));
  }

  lemma PrimaryParses(inner: seq<Token>, e: Expr, rest: seq<Token>)
    requires ParseOr(inner + ([Sym(")")] + rest)) == Parsed(e, [Sym(")")] + rest) && Stops(rest)
    ensures ParseUnary([Sym("(")] + inner + [Sym(")")] + rest) == Parsed(e, rest)
  {
    hide ParseOr;
    var ts := [Sym("(")] + inner + [Sym(")")] + rest;
    assert ts[1..] == inner + ([Sym(")")] + rest);
    assert ([Sym(")")] + rest)[1..] == rest;
    assert ParsePrimary(ts) == Parsed(e, rest);
    MemberStops(e, rest);
  }

  /** A bracketed test is one operand of the chain. */
  lemma BracketedParses(h: Host, t: Test, rest: seq<Token>)
    requires Checked(t) && Stops(rest)
    ensures ParseRel(Tokens(Bracketed(h, t)) + rest) == Parsed(TestExpr(h, t), rest)
  {
    hide ParseUnary, ParseRel, ParseOr, Tokens, TestPieces, Bracketed, TestExpr, Checked;
    var inner, after := Tokens(TestPieces(h, t)), [Sym(")")] + rest;
    TestParses(h, t, after);
    RelIsOr(inner + after);
    BracketTokens(h, t);
    PrimaryParses(inner, TestExpr(h, t), rest);
    UnaryIsRel(Tokens(Bracketed(h, t)) + rest);
  }

  // ------------------------------------------------------------------- the whole chain

  function Linked(h: Host, mode: string, ts: seq<Test>): seq<Token> {
    if ts == [] then []
    else [Sym(Operator(mode))] + Tokens(Bracketed(h, ts[0])) + Linked(h, mode, ts[1..])
  }

  function Combine(mode: string, l: Expr, r: Expr): Expr { if mode == MATCH_ANY then Or(l, r) else And(l, r) }

  function FoldExpr(h: Host, mode: string, left: Expr, ts: seq<Test>): Expr
    decreases |ts|
  {
    if ts == [] then left else FoldExpr(h, mode, Combine(mode, left, TestExpr(h, ts[0])), ts[1..])
  }

  lemma {:induction false} LinkedSnoc(h: Host, mode: string, ts: seq<Test>, t: Test)
    ensures Linked(h, mode, ts + [t]) == Linked(h, mode, ts) + [Sym(Operator(mode))] + Tokens(Bracketed(h, t))
  {
    hide Tokens, Bracketed;
    if ts == [] {
      assert ts + [t] == [t] && [t][1..] == [];
    } else {
      assert (ts + [t])[1..] == ts[1..] + [t];
      LinkedSnoc(h, mode, ts[1..], t);
    }
  }

  lemma {:induction false} JoinedTokens(h: Host, mode: string, ts: seq<Test>)
    requires ts != []
    ensures Tokens(JoinPieces(h, mode, ts)) == Tokens(Bracketed(h, ts[0])) + Linked(h, mode, ts[1..])
  {
    hide Tokens, Bracketed;
    if |ts| > 1 {
      var front, last := ts[..|ts| - 1], ts[|ts| - 1];
      var mid := [Gap, Punct(Operator(mode)), Gap];
      JoinedTokens(h, mode, front);
      TokensSpaced(Operator(mode));
      TokensConcat(JoinPieces(h, mode, front) + mid, Bracketed(h, last));
      TokensConcat(JoinPieces(h, mode, front), mid);
      LinkedSnoc(h, mode, front[1..], last);
      assert front[1..] + [last] == ts[1..];
    }
  }

  lemma LinkedStops(h: Host, mode: string, ts: seq<Test>)
    ensures Stops(Linked(h, mode, ts))
    ensures ts != [] ==> Linked(h, mode, ts) != [] && Linked(h, mode, ts)[0] == Sym(Operator(mode))
  {
  }

  lemma LinkedHead(h: Host, mode: string, ts: seq<Test>)
    requires ts != [] && Checked(ts[0])
    ensures Linked(h, mode, ts) != [] && Linked(h, mode, ts)[0] == Sym(Operator(mode))
    ensures ParseRel(Linked(h, mode, ts)[1..]) == Parsed(TestExpr(h, ts[0]), Linked(h, mode, ts[1..]))
  {
    hide ParseRel, Tokens, Bracketed, TestExpr;
    var tail := Linked(h, mode, ts[1..]);
    LinkedStops(h, mode, ts[1..]);
    BracketedParses(h, ts[0], tail);
    assert Linked(h, mode, ts)[1..] == Tokens(Bracketed(h, ts[0])) + tail;
  }

  lemma {:induction false} AndChain(h: Host, mode: string, left: Expr, ts: seq<Test>)
    requires mode != MATCH_ANY && forall i :: 0 <= i < |ts| ==> Checked(ts[i])
    ensures AndRest(left, Linked(h, mode, ts)) == Parsed(FoldExpr(h, mode, left, ts), [])
    decreases |ts|
  {
    hide ParseRel, TestExpr, Checked;
    if ts != [] {
      LinkedHead(h, mode, ts);
      AndChain(h, mode, Combine(mode, left, TestExpr(h, ts[0])), ts[1..]);
    }
  }

  lemma {:induction false} OrChain(h: Host, mode: string, left: Expr, ts: seq<Test>)
    requires mode == MATCH_ANY && forall i :: 0 <= i < |ts| ==> Checked(ts[i])
    ensures OrRest(left, Linked(h, mode, ts)) == Parsed(FoldExpr(h, mode, left, ts), [])
    decreases |ts|
  {
    hide ParseRel, TestExpr, Checked;
    if ts != [] {
      LinkedHead(h, mode, ts);
      LinkedStops(h, mode, ts[1..]);
      RelIsAnd(Linked(h, mode, ts)[1..]);
      OrChain(h, mode, Combine(mode, left, TestExpr(h, ts[0])), ts[1..]);
    }
  }

  lemma RelIsAnd(ts: seq<Token>)
    requires ParseRel(ts).Parsed? && (ParseRel(ts).rest == [] || ParseRel(ts).rest[0] == Sym("||"))
    ensures ParseAnd(ts) == ParseRel(ts)
  {
    hide ParseRel;
  }

  lemma JoinedParses(h: Host, mode: string, ts: seq<Test>)
    requires ts != [] && forall i :: 0 <= i < |ts| ==> Checked(ts[i])
    ensures ParseOr(Tokens(JoinPieces(h, mode, ts))) ==
            Parsed(FoldExpr(h, mode, TestExpr(h, ts[0]), ts[1..]), [])
  {
    hide ParseRel, Tokens, JoinPieces, Bracketed, TestExpr, Checked, Linked, FoldExpr;
    JoinedTokens(h, mode, ts);
    var tail := Linked(h, mode, ts[1..]);
    var all := Tokens(JoinPieces(h, mode, ts));
    LinkedStops(h, mode, ts[1..]);
    BracketedParses(h, ts[0], tail);
    if mode == MATCH_ANY {
      assert tail == [] || tail[0] == Sym("||") by { if ts[1..] == [] { LinkedNone(h, mode); } }
      RelIsAnd(all);
      OrChain(h, mode, TestExpr(h, ts[0]), ts[1..]);
    } else {
      AndChain(h, mode, TestExpr(h, ts[0]), ts[1..]);
    }
  }

  lemma LinkedNone(h: Host, mode: string)
    ensures Linked(h, mode, []) == []
  {
  }

  // -------------------------------------------------------------------------- meaning

  ghost predicate Meets(w: World, m: Email, mode: string, ts: seq<Test>) {
    if mode == MATCH_ANY then exists i :: 0 <= i < |ts| && Means(w, m, ts[i])
    else forall i :: 0 <= i < |ts| ==> Means(w, m, ts[i])
  }

  lemma {:induction false} FoldEvaluates(h: Host, w: World, m: Email, mode: string, done: seq<Test>, left: Expr,
                                         ts: seq<Test>)
    requires Sound(h, w, done + ts) && done != []
    requires Eval(w, m, left) == Some(VBool(Meets(w, m, mode, done)))
    ensures Eval(w, m, FoldExpr(h, mode, left, ts)) == Some(VBool(Meets(w, m, mode, done + ts)))
    decreases |ts|
  {
    hide Checked, Exact, Means, TestExpr;
    if ts == [] {
      assert done + ts == done;
    } else {
      var t := ts[0];
      assert (done + ts)[|done|] == t;
      TestEvaluates(h, w, m, t);
      MeetsSnoc(w, m, mode, done, t);
      assert done + [t] + ts[1..] == done + ts;
      FoldEvaluates(h, w, m, mode, done + [t], Combine(mode, left, TestExpr(h, t)), ts[1..]);
    }
  }

  lemma MeetsSnoc(w: World, m: Email, mode: string, ts: seq<Test>, t: Test)
    ensures Meets(w, m, mode, ts + [t]) <==>
            if mode == MATCH_ANY then Meets(w, m, mode, ts) || Means(w, m, t)
            else Meets(w, m, mode, ts) && Means(w, m, t)
  {
    hide Means;
    var all := ts + [t];
    assert all[|ts|] == t;
    assert forall i :: 0 <= i < |ts| ==> all[i] == ts[i];
  }

  lemma CheckIsSound(h: Host, w: World, c: Condition)
    requires Faithful(h, w) && Check(h, c).Some?
    ensures var t := Check(h, c).value; Checked(t) && (t.Score? ==> Exact(h, w, t.number))
  {
    hide Exact, TrimSpace, Utf8Len;
    assert h.parseFloat(TrimSpace(c.value)).Some? ==> Exact(h, w, h.parseFloat(TrimSpace(c.value)).value);
  }

  lemma AcceptedIsSound(h: Host, w: World, conds: seq<Condition>)
    requires Faithful(h, w) && CheckAll(h, conds).Some?
    ensures Sound(h, w, CheckAll(h, conds).value)
  {
    hide Exact, Check, Checked, Faithful;
    CheckAllLength(h, conds);
    var ts := CheckAll(h, conds).value;
    forall i | 0 <= i < |ts| ensures Checked(ts[i]) && (ts[i].Score? ==> Exact(h, w, ts[i].number)) {
      CheckIsSound(h, w, conds[i]);
    }
  }

  lemma TestsMean(h: Host, w: World, m: Email, mode: string, ts: seq<Test>)
    requires ts != [] && Sound(h, w, ts)
    ensures Parse(JoinAll(h, mode, ts)) == Some(FoldExpr(h, mode, TestExpr(h, ts[0]), ts[1..]))
    ensures Eval(w, m, FoldExpr(h, mode, TestExpr(h, ts[0]), ts[1..])) == Some(VBool(Meets(w, m, mode, ts)))
  {
    hide Lex, ParseOr, JoinAll, JoinPieces, Print, Printable, Tokens, FoldExpr, TestExpr, Exact, Checked, Means;
    PrintJoined(h, mode, ts);
    JoinedPrintable(h, w, mode, ts);
    PrintLexes(h.printable, JoinPieces(h, mode, ts));
    JoinedParses(h, mode, ts);
    TestEvaluates(h, w, m, ts[0]);
    assert [ts[0]] + ts[1..] == ts;
    assert Meets(w, m, mode, [ts[0]]) <==> Means(w, m, ts[0]) by {
      if mode == MATCH_ANY { assert Means(w, m, ts[0]) ==> Means(w, m, [ts[0]][0]); }
    }
    FoldEvaluates(h, w, m, mode, [ts[0]], TestExpr(h, ts[0]), ts[1..]);
  }

  /** The declared value of a condition list under a match mode. */
  ghost predicate Declared(h: Host, w: World, m: Email, any: bool, conds: seq<Condition>) {
    if any then exists i :: 0 <= i < |conds| && Holds(h, w, m, conds[i])
    else forall i :: 0 <= i < |conds| ==> Holds(h, w, m, conds[i])
  }

  /** Compilation preserves meaning: the emitted text parses, and is true exactly when all, or any, conditions hold. */
  lemma CompiledRuleMeans(h: Host, w: World, m: Email, mode: string, conds: seq<Condition>)
    requires Faithful(h, w) && Expression(h, mode, conds).Some?
    ensures var tree := Parse(Expression(h, mode, conds).value);
            tree.Some? &&
            Eval(w, m, tree.value) == Some(VBool(Declared(h, w, m, NormalizeMatch(h, mode) == Some(MATCH_ANY), conds)))
  {
    hide Parse, Eval, JoinAll, FoldExpr, TestExpr, Check, Exact, Checked, Means, Faithful;
    var mm, ts := NormalizeMatch(h, mode).value, CheckAll(h, conds).value;
    CheckAllLength(h, conds);
    AcceptedIsSound(h, w, conds);
    TestsMean(h, w, m, mm, ts);
    hide Holds, Acceptable;
    forall i | 0 <= i < |conds| ensures Holds(h, w, m, conds[i]) == Means(w, m, ts[i]) {
      CheckedMeans(h, w, m, conds[i]);
    }
    if mm == MATCH_ANY {
      assert Meets(w, m, mm, ts) ==> Declared(h, w, m, true, conds);
    }
  }

  /** A rule's program: its raw expression when it has one, else the text whose value is what its conditions declare. */
  lemma EffectiveRule(h: Host, w: World, m: Email, r: Rule)
    requires Faithful(h, w) && Effective(h, r).Some?
    ensures var x, text := TrimSpace(r.expression), Effective(h, r).value;
            if x != "" then text == x && Utf8Len(r.expression) <= MAX_EXPRESSION_LEN
            else Parse(text).Some? &&
                 Eval(w, m, Parse(text).value) ==
                 Some(VBool(Declared(h, w, m, NormalizeMatch(h, r.combine) == Some(MATCH_ANY), r.conditions)))
  {
    hide TrimSpace, Utf8Len, Parse, Eval, Declared, Expression, Faithful, NormalizeMatch;
    if TrimSpace(r.expression) == "" { CompiledRuleMeans(h, w, m, r.combine, r.conditions); }
  }

  /** Exactly the lists with a known mode, one to fifty conditions and no refused one are accepted. */
  lemma AcceptedExactly(h: Host, mode: string, conds: seq<Condition>)
    ensures Expression(h, mode, conds).Some? <==>
            NormalizeMatch(h, mode).Some? && 1 <= |conds| <= MAX_CONDITIONS &&
            forall i :: 0 <= i < |conds| ==> Acceptable(h, conds[i])
  {
    hide Check, JoinAll, NormalizeMatch, Acceptable;
    CheckedAll(h, conds);
    var w := World((p, s) => false, s => 0.0);
    var m := Email("", "", "", "", "", "", false, 0.0);
    forall i | 0 <= i < |conds| ensures Check(h, conds[i]).Some? <==> Acceptable(h, conds[i]) {
      CheckedMeans(h, w, m, conds[i]);
    }
  }

  lemma {:induction false} CheckedAll(h: Host, conds: seq<Condition>)
    ensures CheckAll(h, conds).Some? <==> forall i :: 0 <= i < |conds| ==> Check(h, conds[i]).Some?
  {
    hide Check;
    if conds != [] {
      CheckedAll(h, conds[..|conds| - 1]);
      assert forall i :: 0 <= i < |conds| - 1 ==> conds[..|conds| - 1][i] == conds[i];
    }
  }
}
