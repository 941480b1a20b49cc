/**
 * Email threading: the "[#<ticket-id>]" reference token, the reference line of outbound bodies, the
 * single-"Re:" reply subject, and the order in which an inbound message is matched to a ticket.
 */
module Thread {
  import opened Text

  // -------------------------------------------------------------------- tokens

  predicate TokenChar(c: char) { '0' <= c <= '9' || 'a' <= c <= 'f' || 'A' <= c <= 'F' || c == '-' }

  /** The ids a token can carry. */
  predicate TicketRef(id: string) { 8 <= |id| <= 64 && forall i :: 0 <= i < |id| ==> TokenChar(id[i]) }

  /** s holds a token whose id is the n characters from position i + 2. */
  predicate TokenAt(s: string, i: int, n: int) {
    && 0 <= i && 8 <= n <= 64 && i + 2 + n < |s|
    && s[i] == '[' && s[i + 1] == '#' && s[i + 2 + n] == ']'
    && forall k :: i + 2 <= k < i + 2 + n ==> TokenChar(s[k])
  }

  /** How many token characters follow from position i. */
  function RunLength(s: string, i: nat): nat
    requires i <= |s|
    decreases |s| - i
  {
    if i < |s| && TokenChar(s[i]) then 1 + RunLength(s, i + 1) else 0
  }

  lemma {:induction false} RunLengthIs(s: string, i: nat)
    requires i <= |s|
    ensures i + RunLength(s, i) <= |s| && (forall k :: i <= k < i + RunLength(s, i) ==> TokenChar(s[k]))
    ensures i + RunLength(s, i) < |s| ==> !TokenChar(s[i + RunLength(s, i)])
    decreases |s| - i
  {
    if i < |s| && TokenChar(s[i]) { RunLengthIs(s, i + 1); }
  }

  /** The first token at or after position i ("" when none). */
  function TokenFrom(s: string, i: nat): string
    requires i <= |s|
    decreases |s| - i
  {
    if |s| < i + 2 then ""
    else
      RunLengthIs(s, i + 2);
      var n := RunLength(s, i + 2);
      if s[i] == '[' && s[i + 1] == '#' && 8 <= n <= 64 && i + 2 + n < |s| && s[i + 2 + n] == ']'
      then s[i + 2..i + 2 + n] else TokenFrom(s, i + 1)
  }

  function ParseToken(s: string): string { TokenFrom(s, 0) }

  ghost predicate Tokenless(s: string, i: int) { forall n :: !TokenAt(s, i, n) }

  lemma RunIsTheToken(s: string, i: nat, n: int)
    requires TokenAt(s, i, n)
    ensures n == RunLength(s, i + 2)
  {
    RunLengthIs(s, i + 2);
  }

  /** Leftmost match: nothing before it, and its characters are the answer. */
  lemma {:induction false} TokenFromIs(s: string, i: nat, p: nat, n: int)
    requires i <= p && TokenAt(s, p, n) && forall q :: i <= q < p ==> Tokenless(s, q)
    ensures TokenFrom(s, i) == s[p + 2..p + 2 + n]
    decreases p - i
  {
    RunLengthIs(s, i + 2);
    if i == p {
      RunIsTheToken(s, p, n);
    } else {
      assert Tokenless(s, i);
      assert !TokenAt(s, i, RunLength(s, i + 2));
      TokenFromIs(s, i + 1, p, n);
    }
  }

  lemma {:induction false} TokenFromNone(s: string, i: nat)
    requires i <= |s| && forall q :: i <= q < |s| ==> Tokenless(s, q)
    ensures TokenFrom(s, i) == ""
    decreases |s| - i
  {
    if i + 2 <= |s| {
      RunLengthIs(s, i + 2);
      assert Tokenless(s, i);
      assert !TokenAt(s, i, RunLength(s, i + 2));
      TokenFromNone(s, i + 1);
    }
  }

  /** The first token from position i on is the one at p, and t is what it carries. */
  ghost predicate FirstToken(s: string, i: int, p: int, n: int, t: string) {
    i <= p && TokenAt(s, p, n) && t == s[p + 2..p + 2 + n] && forall q :: i <= q < p ==> Tokenless(s, q)
  }

  /** What the search answers is always a reference, and the first in the text; with no answer there is none. */
  lemma {:induction false} TokenFromSound(s: string, i: nat)
    requires i <= |s|
    ensures TokenFrom(s, i) != "" ==>
              TicketRef(TokenFrom(s, i)) && exists p, n :: FirstToken(s, i, p, n, TokenFrom(s, i))
    ensures TokenFrom(s, i) == "" ==> forall q :: i <= q < |s| ==> Tokenless(s, q)
    decreases |s| - i
  {
    if i + 2 <= |s| {
      RunLengthIs(s, i + 2);
      TokenFromSound(s, i + 1);
      var n := RunLength(s, i + 2);
      if TokenAt(s, i, n) {
        assert FirstToken(s, i, i, n, TokenFrom(s, i));
      } else {
        forall m ensures !TokenAt(s, i, m) {
          if TokenAt(s, i, m) { RunIsTheToken(s, i, m); }
        }
        assert Tokenless(s, i);
        if TokenFrom(s, i + 1) != "" {
          var p, m :| FirstToken(s, i + 1, p, m, TokenFrom(s, i + 1));
          assert FirstToken(s, i, p, m, TokenFrom(s, i));
        }
      }
    }
  }

  // ----------------------------------------------------------------- references

  function Token(id: string): string { "[#" + id + "]" }

  function ReferenceLine(id: string): string { "Ticket reference: " + Token(id) }

  predicate LineEnd(c: char) { c == '\r' || c == '\n' }

  function AppendReference(body: string, id: string): string {
    if ParseToken(body) != "" || Contains(body, Token(id)) then body
    else TrimRight(body, LineEnd) + "\n\n--\n" + ReferenceLine(id) + "\n"
  }

  const LEAD := "\n\n--\nTicket reference: "

  lemma {:induction false} TrimRightIsPrefix(s: string, cut: char -> bool)
    ensures TrimRight(s, cut) <= s
  {
    if s != [] && cut(s[|s| - 1]) { TrimRightIsPrefix(s[..|s| - 1], cut); }
  }

  /** The body with the reference appended, in one piece. */
  lemma AppendedIs(body: string, id: string) returns (t: string)
    requires AppendReference(body, id) != body || (ParseToken(body) == "" && !Contains(body, Token(id)))
    ensures t <= body && AppendReference(body, id) == t + LEAD + Token(id) + "\n"
  {
    hide ParseToken, Contains, Token, TrimRight;
    t := TrimRight(body, LineEnd);
    TrimRightIsPrefix(body, LineEnd);
    assert t + "\n\n--\n" + ReferenceLine(id) + "\n" == t + LEAD + Token(id) + "\n";
  }

  /** A token of the joined text before the reference would be a token of the body: none straddles the join. */
  lemma NoneBeforeReference(body: string, t: string, id: string, q: int)
    requires t <= body && forall i :: 0 <= i < |body| ==> Tokenless(body, i)
    requires 0 <= q < |t| + |LEAD|
    ensures Tokenless(t + LEAD + Token(id) + "\n", q)
  {
    var s := t + LEAD + Token(id) + "\n";
    assert s[|t|] == '\n';
    if q < |t| {
      assert Tokenless(body, q);
      assert forall k :: 0 <= k < |t| ==> s[k] == body[k];
      forall n ensures !TokenAt(s, q, n) {
        assert !TokenAt(body, q, n);
      }
    } else {
      assert s[q] == LEAD[q - |t|];
    }
  }

  /** The appended reference is a token exactly when the id is one a token can carry. */
  lemma TokenOfReference(t: string, id: string)
    ensures var s := t + LEAD + Token(id) + "\n";
            if TicketRef(id) then TokenAt(s, |t| + |LEAD|, |id|)
            else id == "" ==> forall q :: |t| + |LEAD| <= q < |s| ==> Tokenless(s, q)
  {
    var s, p := t + LEAD + Token(id) + "\n", |t| + |LEAD|;
    assert s[p..] == Token(id) + "\n";
    assert s[p] == '[' && s[p + 1] == '#' && s[p + 2 + |id|] == ']' && s[p + 3 + |id|] == '\n';
    assert forall k :: 0 <= k < |id| ==> s[p + 2 + k] == id[k];
    if id == "" {
      forall q, n | p <= q < |s| ensures !TokenAt(s, q, n) {}
    }
  }

  /**
   * The reference round trip: for a body without a token, the id read back is the id appended if and only
   * if that id is one a token can carry (or empty, in which case nothing is read back).
   */
  lemma ReferenceRoundTrip(body: string, id: string)
    requires ParseToken(body) == ""
    ensures ParseToken(AppendReference(body, id)) == id <==> TicketRef(id) || id == ""
  {
    hide TokenFrom, Contains, AppendReference;
    var out := AppendReference(body, id);
    TokenFromSound(body, 0);
    TokenFromSound(out, 0);
    if Contains(body, Token(id)) {
      assert out == body by { ContainedUnchanged(body, id); }
      if TicketRef(id) { ContainedToken(body, id); }
    } else {
      var t := AppendedIs(body, id);
      forall q | 0 <= q < |t| + |LEAD| ensures Tokenless(out, q) { NoneBeforeReference(body, t, id, q); }
      TokenOfReference(t, id);
      if TicketRef(id) {
        TokenFromIs(out, 0, |t| + |LEAD|, |id|);
        assert out[|t| + |LEAD| + 2..|t| + |LEAD| + 2 + |id|] == id;
      } else if id == "" {
        TokenFromNone(out, 0);
      }
    }
  }

  lemma ContainedUnchanged(body: string, id: string)
    requires Contains(body, Token(id))
    ensures AppendReference(body, id) == body
  {
  }

  /** A body that holds the token of a usable id has a token. */
  lemma ContainedToken(body: string, id: string)
    requires Contains(body, Token(id)) && TicketRef(id)
    ensures ParseToken(body) != ""
  {
    var i :| 0 <= i <= |body| - |Token(id)| && At(body, i, Token(id));
    var w := body[i..i + |Token(id)|];
    assert forall k :: 0 <= k < |w| ==> body[i + k] == w[k];
    assert w[0] == '[' && w[1] == '#' && w[2 + |id|] == ']' && forall k :: 0 <= k < |id| ==> w[2 + k] == id[k];
    assert TokenAt(body, i, |id|) by {
      forall k | i + 2 <= k < i + 2 + |id| ensures TokenChar(body[k]) { assert body[k] == w[k - i] == id[k - i - 2]; }
    }
    TokenFromSound(body, 0);
    assert !Tokenless(body, i);
  }

  /** The reference is appended at most once, for every body and every id. */
  lemma AppendReferenceTwice(body: string, id: string)
    ensures AppendReference(AppendReference(body, id), id) == AppendReference(body, id)
  {
    var out := AppendReference(body, id);
    if out != body {
      var t := AppendedIs(body, id);
      assert At(out, |t| + |LEAD|, Token(id));
      assert Contains(out, Token(id));
    }
  }

  // -------------------------------------------------------------- reply subjects

  function Flatten(s: string): string {
    if s == "" then "" else Flatten(s[..|s| - 1]) + [if IsControl(s[|s| - 1]) then ' ' else s[|s| - 1]]
  }

  /** The leading run of non-space characters. */
  function Word(s: string): string {
    if s == "" || IsSpace(s[0]) then "" else [s[0]] + Word(s[1..])
  }

  lemma {:induction false} WordIsPrefix(s: string)
    ensures Word(s) <= s && (s != "" && !IsSpace(s[0]) ==> Word(s) != "")
  {
    if s != "" && !IsSpace(s[0]) { WordIsPrefix(s[1..]); }
  }

  function Fields(s: string): seq<string>
    decreases |s|
  {
    if s == "" then []
    else if IsSpace(s[0]) then Fields(s[1..])
    else
      WordIsPrefix(s);
      [Word(s)] + Fields(s[|Word(s)|..])
  }

  function Join(words: seq<string>): string {
    if words == [] then "" else if |words| == 1 then words[0] else words[0] + " " + Join(words[1..])
  }

  /** Lower-casing reaches 'r', 'e', ':' and ' ' only from the characters listed here. */
  predicate HasRePrefix(s: string) {
    |s| >= 3 && (s[0] == 'r' || s[0] == 'R') && (s[1] == 'e' || s[1] == 'E') && (s[2] == ':' || s[2] == ' ')
  }

  function ReplySubject(original: string): string {
    var s := Join(Fields(Flatten(original)));
    var s := if s == "" then "(no subject)" else s;
    if HasRePrefix(s) then s else "Re: " + s
  }

  /** Words: not empty, no space, no control character. */
  predicate Wordy(words: seq<string>) {
    forall i :: 0 <= i < |words| ==> words[i] != "" && Plain(words[i])
  }

  predicate Plain(w: string) { forall k :: 0 <= k < |w| ==> !IsSpace(w[k]) && !IsControl(w[k]) }

  lemma {:induction false} FlattenIs(s: string)
    ensures |Flatten(s)| == |s| && forall i :: 0 <= i < |s| ==> Flatten(s)[i] == if IsControl(s[i]) then ' ' else s[i]
  {
    if s != "" { FlattenIs(s[..|s| - 1]); }
  }

  lemma {:induction false} WordIsPlain(s: string)
    requires forall i :: 0 <= i < |s| ==> !IsControl(s[i])
    ensures Plain(Word(s))
  {
    if s != "" && !IsSpace(s[0]) { WordIsPlain(s[1..]); }
  }

  lemma {:induction false} FieldsAreWords(s: string)
    requires forall i :: 0 <= i < |s| ==> !IsControl(s[i])
    ensures Wordy(Fields(s))
    decreases |s|
  {
    if s != "" {
      if IsSpace(s[0]) {
        FieldsAreWords(s[1..]);
      } else {
        WordIsPrefix(s);
        WordIsPlain(s);
        FieldsAreWords(s[|Word(s)|..]);
      }
    }
  }

  lemma {:induction false} WordOf(w: string, rest: string)
    requires Plain(w) && (rest == "" || IsSpace(rest[0]))
    ensures Word(w + rest) == w
  {
    if w == "" {
      assert w + rest == rest;
    } else {
      assert (w + rest)[1..] == w[1..] + rest;
      WordOf(w[1..], rest);
    }
  }

  lemma {:induction false} FieldsOfJoin(words: seq<string>)
    requires Wordy(words)
    ensures Fields(Join(words)) == words && (words != [] ==> Join(words) != "")
  {
    if words != [] {
      var w, s := words[0], Join(words);
      FieldsOfJoin(words[1..]);
      if |words| == 1 {
        WordOf(w, "");
        assert s == w + "";
        assert s[|w|..] == "";
      } else {
        var rest := " " + Join(words[1..]);
        assert s == w + rest;
        WordOf(w, rest);
        assert s[|w|..] == rest && rest[1..] == Join(words[1..]);
      }
    }
  }

  lemma {:induction false} JoinIsClean(words: seq<string>)
    requires Wordy(words)
    ensures forall i :: 0 <= i < |Join(words)| ==> !IsControl(Join(words)[i])
  {
    if |words| > 1 { JoinIsClean(words[1..]); }
  }

  lemma FlattenClean(s: string)
    requires forall i :: 0 <= i < |s| ==> !IsControl(s[i])
    ensures Flatten(s) == s
  {
    FlattenIs(s);
  }

  /** A reply subject is a line of words with the prefix. */
  lemma ReplySubjectIs(original: string) returns (words: seq<string>)
    ensures Wordy(words) && words != [] && ReplySubject(original) == Join(words) && HasRePrefix(Join(words))
  {
    FlattenIs(original);
    FieldsAreWords(Flatten(original));
    words := Fields(Flatten(original));
    FieldsOfJoin(words);
    hide Fields, Flatten, Join, HasRePrefix;
    JoinEmpty(words);
    if words == [] {
      words := ["(no", "subject)"];
      NoSubject();
    }
    if !HasRePrefix(Join(words)) {
      Prefixed(words);
      words := ["Re:"] + words;
    }
  }

  lemma JoinEmpty(words: seq<string>)
    requires Wordy(words)
    ensures Join(words) == "" <==> words == []
  {
  }

  lemma NoSubject()
    ensures Join(["(no", "subject)"]) == "(no subject)" && Wordy(["(no", "subject)"])
  {
    assert ["(no", "subject)"][1..] == ["subject)"];
    assert Join(["(no", "subject)"]) == "(no" + " " + Join(["subject)"]);
  }

  lemma Prefixed(words: seq<string>)
    requires Wordy(words) && words != []
    ensures var w := ["Re:"] + words; Wordy(w) && Join(w) == "Re: " + Join(words) && HasRePrefix(Join(w))
  {
    var w := ["Re:"] + words;
    assert w[1..] == words;
    assert Join(w) == "Re:" + " " + Join(words);
  }

  /** One "Re:" and one line, however often a subject is replied to. */
  lemma ReplySubjectTwice(original: string)
    ensures ReplySubject(ReplySubject(original)) == ReplySubject(original)
  {
    var words := ReplySubjectIs(original);
    JoinIsClean(words);
    FlattenClean(Join(words));
    FieldsOfJoin(words);
  }
}
