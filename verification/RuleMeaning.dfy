/**
 * Compiling rules preserves meaning: the text emitted for accepted conditions parses, and its value on every
 * email is "all" or "any" of the conditions' declared meanings.
 */
module RuleMeaning {
  import opened Rows
  import opened Text
  import opened Cel
  import opened RuleText

  // ---------------------------------------------------------- declared meanings

  predicate IsUpper(c: char) { 'A' <= c <= 'Z' }

  /** Equal up to the case of ASCII letters. */
  predicate SameLetter(a: char, b: char) {
    a == b || (IsUpper(a) && b as int == a as int + 32) || (IsUpper(b) && a as int == b as int + 32)
  }

  predicate Folded(a: string, b: string) {
    |a| == |b| && forall i :: 0 <= i < |a| ==> SameLetter(a[i], b[i])
  }

  predicate FoldedAt(s: string, i: int, sub: string) {
    0 <= i <= |s| - |sub| && Folded(s[i..i + |sub|], sub)
  }

  function FieldText(m: Email, field: string): string {
    match field
    case "subject" => m.subject
    case "body" => m.body
    case "from" => m.from
    case "fromName" => m.fromName
    case "recipient" => m.recipient
    case _ => m.fromDomain
  }

  predicate Within(s: string, sub: string) {
    exists i :: 0 <= i <= |s| - |sub| && FoldedAt(s, i, sub)
  }

  /** What a condition says about an email. */
  predicate Means(w: World, m: Email, t: Test) {
    match t
    case Attachments(differs, want) => if differs then m.hasAttachments != want else m.hasAttachments == want
    case Score(op, n) =>
      (match op
       case "gt" => m.spamScore > n
       case "gte" => m.spamScore >= n
       case "lt" => m.spamScore < n
       case "lte" => m.spamScore <= n
       case "eq" => m.spamScore == n
       case _ => m.spamScore != n)
    case Pattern(field, pattern) => w.matches(pattern, FieldText(m, field))
    case Plain(field, op, value) =>
      var s := FieldText(m, field);
      (match op
       case "contains" => Within(s, value)
       case "not_contains" => !Within(s, value)
       case "equals" => Folded(s, value)
       case "not_equals" => !Folded(s, value)
       case "starts_with" => FoldedAt(s, 0, value)
       case _ => FoldedAt(s, |s| - |value|, value))
  }

  // -- conditions as they are stored, read without compiling them

  function FieldOf(c: Condition): string { TrimSpace(c.field) }
  function OperatorOf(h: Host, c: Condition): string { h.cs.lower(TrimSpace(c.operator)) }
  function WordOf(h: Host, c: Condition): string { h.cs.lower(TrimSpace(c.value)) }

  /** Which conditions may be saved. */
  predicate Acceptable(h: Host, c: Condition) {
    Utf8Len(c.value) <= MAX_VALUE_LEN &&
    ((FieldOf(c) == "hasAttachments" && OperatorOf(h, c) in [""] + BOOL_OPERATORS &&
      WordOf(h, c) in ["", "true", "false"]) ||
     (FieldOf(c) == "spamScore" && OperatorOf(h, c) in NUMERIC_OPERATORS && h.parseFloat(TrimSpace(c.value)).Some?) ||
     (FieldOf(c) in TEXT_FIELDS && OperatorOf(h, c) in TEXT_OPERATORS &&
      (c.value == "" ==> OperatorOf(h, c) in ["equals", "not_equals"]) &&
      (OperatorOf(h, c) == "matches" ==> h.compiles(c.value))))
  }

  predicate NumberHolds(op: string, x: real, y: real) {
    (op == "gt" && x > y) || (op == "gte" && x >= y) || (op == "lt" && x < y) || (op == "lte" && x <= y) ||
    (op == "eq" && x == y) || (op == "neq" && x != y)
  }

  predicate TextHolds(w: World, op: string, s: string, value: string) {
    (op == "contains" && Within(s, value)) || (op == "not_contains" && !Within(s, value)) ||
    (op == "equals" && Folded(s, value)) || (op == "not_equals" && !Folded(s, value)) ||
    (op == "starts_with" && FoldedAt(s, 0, value)) || (op == "ends_with" && FoldedAt(s, |s| - |value|, value)) ||
    (op == "matches" && w.matches(value, s))
  }

  /** What a stored condition says about an email. */
  predicate Holds(h: Host, w: World, m: Email, c: Condition) {
    var op := OperatorOf(h, c);
    if FieldOf(c) == "hasAttachments" then
      (m.hasAttachments == (WordOf(h, c) != "false")) == (op != "not_equals" && op != "neq")
    else if FieldOf(c) == "spamScore" then
      var n := h.parseFloat(TrimSpace(c.value));
      n.Some? && NumberHolds(op, m.spamScore, n.value)
    else TextHolds(w, op, FieldText(m, FieldOf(c)), c.value)
  }

  /** Validation accepts exactly the acceptable conditions, and a validated one means what the stored one says. */
  lemma CheckedMeans(h: Host, w: World, m: Email, c: Condition)
    ensures Check(h, c).Some? <==> Acceptable(h, c)
    ensures Check(h, c).Some? ==> (Means(w, m, Check(h, c).value) <==> Holds(h, w, m, c))
  {
    hide TrimSpace, Utf8Len, Within, Folded, FoldedAt, FieldText;
  }

  function Signed(w: World, d: Decimal): real {
    if d.negative then -w.number(Unsigned(d)) else w.number(Unsigned(d))
  }

  /** Printing a float gives well-formed parts whose literal reads back as the same number. */
  ghost predicate Faithful(h: Host, w: World) {
    forall s: string :: h.parseFloat(s).Some? ==> Exact(h, w, h.parseFloat(s).value)
  }

  predicate Exact(h: Host, w: World, n: real) {
    WellFormed(h.formatFloat(n)) && Signed(w, h.formatFloat(n)) == n
  }

  // ------------------------------------------------- lower-casing decides folding

  lemma {:induction false} LowerLength(s: string)
    ensures |AsciiLower(s)| == |s|
    ensures forall i :: 0 <= i < |s| ==>
              AsciiLower(s)[i] == if IsUpper(s[i]) then (s[i] as int + 32) as char else s[i]
  {
    if s != "" { LowerLength(s[..|s| - 1]); }
  }

  lemma LowerIsFold(a: string, b: string)
    ensures AsciiLower(a) == AsciiLower(b) <==> Folded(a, b)
  {
    LowerLength(a);
    LowerLength(b);
    if Folded(a, b) {
      forall i | 0 <= i < |a| ensures AsciiLower(a)[i] == AsciiLower(b)[i] {
        assert SameLetter(a[i], b[i]);
      }
    } else if |a| == |b| {
      var i :| 0 <= i < |a| && !SameLetter(a[i], b[i]);
      assert AsciiLower(a)[i] != AsciiLower(b)[i];
    }
  }

  lemma LowerSlice(s: string, i: int, j: int)
    requires 0 <= i <= j <= |s|
    ensures |AsciiLower(s)| == |s| && AsciiLower(s)[i..j] == AsciiLower(s[i..j])
  {
    LowerLength(s);
    LowerLength(s[i..j]);
  }

  lemma AtIsFoldedAt(s: string, i: int, sub: string)
    ensures At(AsciiLower(s), i, AsciiLower(sub)) <==> FoldedAt(s, i, sub)
  {
    LowerLength(s);
    LowerLength(sub);
    if 0 <= i <= |s| - |sub| {
      LowerSlice(s, i, i + |sub|);
      LowerIsFold(s[i..i + |sub|], sub);
    }
  }

  lemma ContainsIsWithin(s: string, sub: string)
    ensures Contains(AsciiLower(s), AsciiLower(sub)) <==> Within(s, sub)
  {
    hide At, FoldedAt, AsciiLower;
    LowerLength(s);
    LowerLength(sub);
    forall i ensures At(AsciiLower(s), i, AsciiLower(sub)) <==> FoldedAt(s, i, sub) {
      AtIsFoldedAt(s, i, sub);
    }
  }

  lemma PrefixIsFolded(s: string, sub: string)
    ensures AsciiLower(sub) <= AsciiLower(s) <==> FoldedAt(s, 0, sub)
  {
    AtIsFoldedAt(s, 0, sub);
    LowerLength(s);
    LowerLength(sub);
    hide AsciiLower, FoldedAt;
    assert |sub| <= |s| ==> AsciiLower(s)[0..|sub|] == AsciiLower(s)[..|sub|];
  }

  lemma SuffixIsAt(s: string, sub: string)
    ensures HasSuffix(s, sub) <==> At(s, |s| - |sub|, sub)
  {
    assert |sub| <= |s| ==> s[|s| - |sub|..|s|] == s[|s| - |sub|..];
  }

  lemma SuffixIsFolded(s: string, sub: string)
    ensures HasSuffix(AsciiLower(s), AsciiLower(sub)) <==> FoldedAt(s, |s| - |sub|, sub)
  {
    hide AsciiLower, FoldedAt, At, HasSuffix;
    LowerLength(s);
    LowerLength(sub);
    SuffixIsAt(AsciiLower(s), AsciiLower(sub));
    AtIsFoldedAt(s, |s| - |sub|, sub);
  }

  // ----------------------------------------------------------- the tree of a test

  function Lowered(field: string): Expr { Call(Var(field), "lowerAscii", []) }

  function NumberExpr(d: Decimal): Expr {
    if d.negative then Neg(NumLit(Unsigned(d))) else NumLit(Unsigned(d))
  }

  function TestExpr(h: Host, t: Test): Expr {
    match t
    case Attachments(differs, want) => Rel(if differs then "!=" else "==", Var("hasAttachments"), BoolLit(want))
    case Score(op, n) => Rel(NumericSymbol(op), Var("spamScore"), NumberExpr(h.formatFloat(n)))
    case Pattern(field, pattern) => Call(Var(field), "matches", [StrLit(pattern)])
    case Plain(field, op, value) =>
      var lf, lv := Lowered(field), StrLit(AsciiLower(value));
      match op
      case "contains" => Call(lf, "contains", [lv])
      case "not_contains" => Not(Call(lf, "contains", [lv]))
      case "equals" => Rel("==", lf, lv)
      case "not_equals" => Rel("!=", lf, lv)
      case "starts_with" => Call(lf, "startsWith", [lv])
      case _ => Call(lf, "endsWith", [lv])
  }

  /** What Check guarantees of a test. */
  predicate Checked(t: Test) {
    match t
    case Attachments(_, _) => true
    case Score(op, _) => op in NUMERIC_OPERATORS
    case Pattern(field, _) => field in TEXT_FIELDS
    case Plain(field, op, _) => field in TEXT_FIELDS && op in TEXT_OPERATORS && op != "matches"
  }

  lemma FieldLooksUp(m: Email, field: string)
    requires field in TEXT_FIELDS
    ensures Lookup(m, field) == Some(VStr(FieldText(m, field)))
  {
  }

  lemma EvalLowered(w: World, m: Email, field: string)
    requires field in TEXT_FIELDS
    ensures Eval(w, m, Lowered(field)) == Some(VStr(AsciiLower(FieldText(m, field))))
  {
    hide AsciiLower, FieldText, Lookup;
    FieldLooksUp(m, field);
    assert EvalAll(w, m, []) == Some([]);
    assert Eval(w, m, Var(field)) == Lookup(m, field);
  }

  lemma EvalCall(w: World, m: Email, recv: Expr, fn: string, arg: string)
    requires Eval(w, m, recv).Some?
    ensures Eval(w, m, Call(recv, fn, [StrLit(arg)])) == Invoke(w, Eval(w, m, recv).value, fn, [VStr(arg)])
  {
    hide Invoke, Lookup;
    var args := [StrLit(arg)];
    assert args[1..] == [];
    assert EvalAll(w, m, args) == Some([VStr(arg)]) by {
      assert EvalAll(w, m, []) == Some([]);
      assert Eval(w, m, StrLit(arg)) == Some(VStr(arg));
      assert [VStr(arg)] + [] == [VStr(arg)];
    }
  }

  lemma PlainEvaluates(h: Host, w: World, m: Email, t: Test)
    requires t.Plain? && Checked(t)
    ensures Eval(w, m, TestExpr(h, t)) == Some(VBool(Means(w, m, t)))
  {
    hide AsciiLower, FieldText, Lookup, Contains, Within, HasSuffix, FoldedAt, Folded;
    var s, lf, lv := FieldText(m, t.field), Lowered(t.field), AsciiLower(t.value);
    EvalLowered(w, m, t.field);
    match t.op
    case "contains" | "not_contains" =>
      EvalCall(w, m, lf, "contains", lv);
      ContainsIsWithin(s, t.value);
    case "equals" | "not_equals" =>
      LowerIsFold(s, t.value);
      assert Eval(w, m, StrLit(lv)) == Some(VStr(lv));
    case "starts_with" =>
      EvalCall(w, m, lf, "startsWith", lv);
      PrefixIsFolded(s, t.value);
    case _ =>
      EvalCall(w, m, lf, "endsWith", lv);
      SuffixIsFolded(s, t.value);
  }

  /** The tree built for a test evaluates to its meaning. */
  lemma TestEvaluates(h: Host, w: World, m: Email, t: Test)
    requires Checked(t) && (t.Score? ==> Exact(h, w, t.number))
    ensures Eval(w, m, TestExpr(h, t)) == Some(VBool(Means(w, m, t)))
  {
    match t
    case Attachments(differs, want) =>
      assert Eval(w, m, Var("hasAttachments")) == Some(VBool(m.hasAttachments));
    case Score(op, n) =>
      var d := h.formatFloat(n);
      assert Eval(w, m, NumLit(Unsigned(d))) == Some(VNum(w.number(Unsigned(d))));
      assert Eval(w, m, NumberExpr(d)) == Some(VNum(n));
      assert Eval(w, m, Var("spamScore")) == Some(VNum(m.spamScore));
    case Pattern(field, pattern) =>
      FieldLooksUp(m, field);
      EvalCall(w, m, Var(field), "matches", pattern);
    case Plain(_, _, _) =>
      PlainEvaluates(h, w, m, t);
  }
}
