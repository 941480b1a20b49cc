/** What outbound texts keep of the originals (internal/thread/thread.go): the body under its reference, the subject. */
module ThreadText {
  import opened Text
  import opened Thread
  import opened Places

  // ---------------------------------------------------------------------- bodies

  predicate AtEnd(c: char) { c == '\r' || c == '\n' }

  /** The body carries a reference: some token, or the token of this id. */
  ghost predicate Refers(body: string, id: string) {
    (exists i, n :: TokenAt(body, i, n)) || exists i :: At(body, i, "[#" + id + "]")
  }

  /** The body up to its line ends, then the reference: nothing of the text is lost, and nothing else is added. */
  ghost predicate ReferenceAppended(body: string, id: string, out: string, n: int) {
    0 <= n <= |body| && (forall i :: n <= i < |body| ==> AtEnd(body[i])) && (n == 0 || !AtEnd(body[n - 1])) &&
    out == body[..n] + "\n\n--\nTicket reference: [#" + id + "]\n"
  }

  /** A body that carries a reference stays as it is; any other keeps its text and gets one. */
  lemma AppendReferenceExactly(body: string, id: string)
    ensures if Refers(body, id) then AppendReference(body, id) == body
            else exists n :: ReferenceAppended(body, id, AppendReference(body, id), n)
  {
    ParsesExactly(body);
    HasToken(body, id);
    var n := TrimRightIs(body, LineEnd);
    OneText(body[..n], id);
    hide ParseToken, Contains, TrimRight, TokenAt, At, Token, ReferenceLine;
    if !Refers(body, id) { assert ReferenceAppended(body, id, AppendReference(body, id), n); }
  }

  lemma HasToken(body: string, id: string)
    ensures Contains(body, Token(id)) <==> exists i :: At(body, i, "[#" + id + "]")
  {
    if Contains(body, Token(id)) {
      var i :| 0 <= i <= |body| - |Token(id)| && At(body, i, Token(id));
      assert At(body, i, "[#" + id + "]");
    }
    if i :| At(body, i, "[#" + id + "]") { assert At(body, i, Token(id)); }
  }

  lemma OneText(t: string, id: string)
    ensures t + "\n\n--\n" + ReferenceLine(id) + "\n" == t + "\n\n--\nTicket reference: [#" + id + "]\n"
  {
    assert ReferenceLine(id) + "\n" == "Ticket reference: [#" + id + "]\n";
  }

  lemma ParsesExactly(body: string)
    ensures ParseToken(body) != "" <==> exists i, n :: TokenAt(body, i, n)
  {
    TokenFromSound(body, 0);
    if ParseToken(body) != "" {
      var p, n :| FirstToken(body, 0, p, n, ParseToken(body));
      assert TokenAt(body, p, n);
    } else {
      forall i, n ensures !TokenAt(body, i, n) {
        if 0 <= i < |body| { assert Tokenless(body, i); }
      }
    }
  }

  // -------------------------------------------------------------------- subjects

  /** White space and control characters separate words. */
  predicate Gap(c: char) { IsSpace(c) || IsControl(c) }

  function Starts(s: string): nat -> bool { (i: nat) => i < |s| && !Gap(s[i]) && (i == 0 || Gap(s[i - 1])) }

  /** The word from position i on. */
  predicate WordAt(s: string, i: nat, w: string) {
    i + |w| <= |s| && s[i..i + |w|] == w && (forall k :: 0 <= k < |w| ==> !Gap(w[k])) &&
    (i + |w| == |s| || Gap(s[i + |w|]))
  }

  /** The words start at these places, and nowhere else. */
  ghost predicate FoundAt(s: string, words: seq<string>, at: seq<nat>) {
    Marks(at, |s|, Starts(s)) && |words| == |at| && forall x :: 0 <= x < |at| ==> WordAt(s, at[x], words[x])
  }

  /** The words of a text: all of them, in order. */
  ghost predicate WordsOf(s: string, words: seq<string>) {
    exists at: seq<nat> :: FoundAt(s, words, at)
  }

  function Shifted(at: seq<nat>, off: nat): (r: seq<nat>)
    ensures |r| == |at| && forall x :: 0 <= x < |at| ==> r[x] == at[x] + off
  {
    seq(|at|, x requires 0 <= x < |at| => at[x] + off)
  }

  /** Marks of a rest of the list, moved to where the rest stands. */
  lemma ShiftedMarks(at: seq<nat>, n: nat, off: nat, holds: nat -> bool, holds': nat -> bool, first: seq<nat>)
    requires Marks(at, n, holds) && forall i: nat :: i < n ==> holds(i) == holds'(i + off)
    requires Marks(first, off, holds')
    ensures Marks(first + Shifted(at, off), n + off, holds')
  {
    var more, all := Shifted(at, off), first + Shifted(at, off);
    forall i: nat | i < n + off ensures i in all <==> holds'(i) {
      if i < off {
        assert i !in more;
      } else {
        assert i !in first;
        if i - off in at {
          var x :| 0 <= x < |at| && at[x] == i - off;
          assert more[x] == i;
        }
        if i in more {
          var x :| 0 <= x < |more| && more[x] == i;
          assert at[x] in at;
        }
      }
    }
  }

  lemma {:induction false} FieldsAt(s: string) returns (at: seq<nat>)
    requires forall i :: 0 <= i < |s| ==> !IsControl(s[i])
    ensures FoundAt(s, Fields(s), at)
    decreases |s|
  {
    if s == "" {
      at := [];
    } else {
      WordIsPrefix(s);
      WordIsPlain(s);
      WordEnds(s);
      var w := Word(s);
      if IsSpace(s[0]) {
        var more := FieldsAt(s[1..]);
        at := Shifted(more, 1);
        SpaceFirst(s, Fields(s[1..]), more);
      } else {
        assert Fields(s) == [w] + Fields(s[|w|..]);
        var more := FieldsAt(s[|w|..]);
        at := [0] + Shifted(more, |w|);
        WordFirst(s, w, Fields(s[|w|..]), more);
      }
    }
  }

  /** Past a gap, a word starts where it starts in the rest. */
  lemma MarksLater(s: string, k: nat, first: seq<nat>, more: seq<nat>)
    requires 0 < k <= |s| && (Gap(s[k - 1]) || k == |s| || Gap(s[k]))
    requires Marks(first, k, Starts(s)) && Marks(more, |s[k..]|, Starts(s[k..]))
    ensures Marks(first + Shifted(more, k), |s|, Starts(s))
  {
    hide Gap, Marks;
    ShiftedMarks(more, |s[k..]|, k, Starts(s[k..]), Starts(s), first);
  }

  lemma SpaceFirst(s: string, words: seq<string>, more: seq<nat>)
    requires s != "" && IsSpace(s[0]) && FoundAt(s[1..], words, more)
    ensures FoundAt(s, words, Shifted(more, 1))
  {
    assert Gap(s[0]) && Marks([], 1, Starts(s));
    hide Marks, WordAt, Gap, IsSpace, IsControl, Starts;
    MarksLater(s, 1, [], more);
    assert [] + Shifted(more, 1) == Shifted(more, 1);
    forall x | 0 <= x < |more| ensures WordAt(s, more[x] + 1, words[x]) { WordLater(s, 1, more[x], words[x]); }
  }

  lemma WordZero(s: string, w: string)
    requires w != "" && Plain(w) && |w| <= |s| && s[..|w|] == w && (|w| < |s| ==> IsSpace(s[|w|]))
    ensures Marks([0], |w|, Starts(s)) && WordAt(s, 0, w)
  {
    hide IsSpace, IsControl;
    assert forall i :: 0 <= i < |w| ==> s[i] == w[i];
  }

  lemma WordFirst(s: string, w: string, words: seq<string>, more: seq<nat>)
    requires w != "" && Plain(w) && |w| <= |s| && s[..|w|] == w && (|w| < |s| ==> IsSpace(s[|w|]))
    requires FoundAt(s[|w|..], words, more)
    ensures FoundAt(s, [w] + words, [0] + Shifted(more, |w|))
  {
    var k := |w|;
    WordZero(s, w);
    assert k < |s| ==> Gap(s[k]);
    hide Marks, WordAt, Starts, Gap, Plain, IsSpace, IsControl, Shifted;
    MarksLater(s, k, [0], more);
    var at, ws := [0] + Shifted(more, k), [w] + words;
    forall x | 0 <= x < |at| ensures WordAt(s, at[x], ws[x]) {
      if x > 0 {
        assert at[x] == more[x - 1] + k && ws[x] == words[x - 1];
        WordLater(s, k, more[x - 1], words[x - 1]);
      }
    }
  }

  lemma {:induction false} WordEnds(s: string)
    ensures |Word(s)| <= |s| && (|Word(s)| < |s| ==> IsSpace(s[|Word(s)|]))
    ensures s[..|Word(s)|] == Word(s)
  {
    if s != "" && !IsSpace(s[0]) { WordEnds(s[1..]); }
  }

  lemma WordLater(s: string, k: nat, i: nat, w: string)
    requires k <= |s| && WordAt(s[k..], i, w)
    ensures WordAt(s, i + k, w)
  {
    assert s[i + k..i + k + |w|] == s[k..][i..i + |w|];
  }

  /** Flattening control characters to spaces moves no word. */
  lemma FlattenKeepsWords(s: string, words: seq<string>)
    requires WordsOf(Flatten(s), words)
    ensures WordsOf(s, words)
  {
    var f := Flatten(s);
    FlattenIs(s);
    assert forall i :: 0 <= i < |s| ==> (Gap(s[i]) <==> Gap(f[i])) && (!Gap(s[i]) ==> f[i] == s[i]);
    var at: seq<nat> :| FoundAt(f, words, at);
    hide Flatten, IsSpace, IsControl;
    SameMarks(at, |s|, Starts(f), Starts(s));
    hide Marks, Gap;
    forall x | 0 <= x < |at| ensures WordAt(s, at[x], words[x]) {
      var i, w := at[x], words[x];
      assert WordAt(f, i, w);
      assert forall k :: 0 <= k < |w| ==> f[i + k] == w[k];
      assert s[i..i + |w|] == w;
    }
    assert FoundAt(s, words, at);
  }

  /** The text starts with "re:" or "re ", whatever the case. */
  predicate Replied(words: seq<string>) {
    words != [] && |words[0]| >= 2 && (words[0][0] == 'r' || words[0][0] == 'R') &&
    (words[0][1] == 'e' || words[0][1] == 'E') &&
    if |words[0]| == 2 then |words| > 1 else words[0][2] == ':'
  }

  lemma RepliedIs(words: seq<string>)
    requires Wordy(words)
    ensures HasRePrefix(Join(words)) <==> Replied(words)
  {
    if words != [] {
      var w, s := words[0], Join(words);
      assert words[1..] != [] ==> s == w + " " + Join(words[1..]);
      assert forall k :: 0 <= k < |w| ==> s[k] == w[k];
      assert forall k :: 0 <= k < |w| ==> !IsSpace(w[k]);
      if |w| <= 2 && |words| > 1 { assert s[|w|] == ' '; }
    }
  }

  /** The words of a reply subject: those of the original, or a stand-in for none, after one "Re:". */
  lemma ReplySubjectSays(original: string) returns (words: seq<string>)
    ensures WordsOf(original, words)
    ensures var said := if words == [] then ["(no", "subject)"] else words;
            WordsOf(ReplySubject(original), if Replied(said) then said else ["Re:"] + said)
  {
    FlattenIs(original);
    FieldsAreWords(Flatten(original));
    words := Fields(Flatten(original));
    var _ := FieldsAt(Flatten(original));
    assert WordsOf(Flatten(original), words);
    FlattenKeepsWords(original, words);
    hide WordsOf, Fields, Flatten, Join, HasRePrefix, Replied;
    JoinEmpty(words);
    NoSubject();
    var said := if words == [] then ["(no", "subject)"] else words;
    RepliedIs(said);
    Prefixed(said);
    JoinedWords(said);
    JoinedWords(["Re:"] + said);
  }

  lemma JoinedWords(words: seq<string>)
    requires Wordy(words)
    ensures WordsOf(Join(words), words)
  {
    JoinIsClean(words);
    FieldsOfJoin(words);
    var _ := FieldsAt(Join(words));
  }
}
