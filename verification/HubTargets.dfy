/** Whom an entry is for (internal/stream/hub.go, PublishID and targets), read off the text of its recipients. */
module HubTargets {
  import opened Rows
  import opened Stream
  import opened Hub
  import opened Places

  /** The name stands at position i between commas or the ends of the text. */
  predicate NamedAt(to: string, user: string, i: int) {
    0 <= i <= |to| - |user| && to[i..i + |user|] == user && ',' !in user && (i == 0 || to[i - 1] == ',') &&
    (i + |user| == |to| || to[i + |user|] == ',')
  }

  /** The entry is for everyone, or names the user. */
  ghost predicate Addressed(to: string, user: string) { to == "*" || exists i :: NamedAt(to, user, i) }

  // ----------------------------------------------------------------- the recipients

  /** A name with a comma after it. */
  predicate ClosedAt(to: string, user: string, i: int) { NamedAt(to, user, i) && i + |user| < |to| }

  ghost predicate Closes(to: string, user: string) { exists i :: ClosedAt(to, user, i) }

  /** All recipients but the last are closed by a comma; the last one runs to the end. */
  ghost predicate Splits(to: string, rs: seq<string>) {
    rs != [] && (forall u :: u in rs[..|rs| - 1] <==> Closes(to, u)) &&
    var last := rs[|rs| - 1];
    |last| <= |to| && to[|to| - |last|..] == last && ',' !in last && (|last| == |to| || to[|to| - |last| - 1] == ',')
  }

  lemma {:induction false} RecipientsSplit(to: string)
    ensures Splits(to, Recipients(to))
  {
    if to != "" {
      var n := |to| - 1;
      RecipientsSplit(to[..n]);
      var front, rs := Recipients(to[..n]), Recipients(to);
      if to[n] == ',' {
        assert rs[..|rs| - 1] == front;
        forall u ensures u in front <==> Closes(to, u) { CommaCloses(to, front, u); }
      } else {
        assert rs[..|rs| - 1] == front[..|front| - 1];
        forall u ensures Closes(to, u) <==> Closes(to[..n], u) { LetterCloses(to, u); }
      }
    }
  }

  lemma InSplit(to: string, rs: seq<string>, u: string)
    requires Splits(to, rs)
    ensures u in rs <==> exists i :: NamedAt(to, u, i)
  {
    var last := rs[|rs| - 1];
    assert rs == rs[..|rs| - 1] + [last];
    if u in rs[..|rs| - 1] {
      assert Closes(to, u);
      var i :| ClosedAt(to, u, i);
      assert NamedAt(to, u, i);
    } else if u == last {
      assert NamedAt(to, u, |to| - |last|);
    }
    if i :| NamedAt(to, u, i) {
      if i + |u| < |to| {
        assert ClosedAt(to, u, i);
        assert Closes(to, u);
      } else {
        LastName(to, last, u, i);
      }
    }
  }

  /** Only one name runs to the end. */
  lemma LastName(to: string, last: string, u: string, i: int)
    requires |last| <= |to| && to[|to| - |last|..] == last && ',' !in last
    requires |last| == |to| || to[|to| - |last| - 1] == ','
    requires NamedAt(to, u, i) && i + |u| == |to|
    ensures u == last
  {
    var k := |to| - |last|;
    assert u == to[i..];
    assert forall x :: i <= x < |to| ==> to[x] == u[x - i] && u[x - i] in u;
    assert forall x :: k <= x < |to| ==> to[x] == last[x - k] && last[x - k] in last;
  }

  /** A name in the text without its last letter is one in the text. */
  lemma InFront(to: string, n: nat, u: string, i: int)
    requires |to| == n + 1
    ensures ClosedAt(to[..n], u, i) ==> ClosedAt(to, u, i)
    ensures to[n] == ',' ==> (NamedAt(to[..n], u, i) <==> ClosedAt(to, u, i))
    ensures to[n] != ',' ==> (ClosedAt(to[..n], u, i) <==> ClosedAt(to, u, i))
  {
    if 0 <= i <= n - |u| {
      assert to[i..i + |u|] == to[..n][i..i + |u|];
      assert forall k :: 0 <= k < n ==> to[..n][k] == to[k];
    }
  }

  lemma CommaCloses(to: string, front: seq<string>, u: string)
    requires to != "" && to[|to| - 1] == ',' && Splits(to[..|to| - 1], front)
    ensures u in front <==> Closes(to, u)
  {
    var n := |to| - 1;
    InSplit(to[..n], front, u);
    if i :| NamedAt(to[..n], u, i) { InFront(to, n, u, i); }
    if i :| ClosedAt(to, u, i) { InFront(to, n, u, i); }
  }

  lemma LetterCloses(to: string, u: string)
    requires to != "" && to[|to| - 1] != ','
    ensures Closes(to, u) <==> Closes(to[..|to| - 1], u)
  {
    var n := |to| - 1;
    if i :| ClosedAt(to, u, i) { InFront(to, n, u, i); }
    if i :| ClosedAt(to[..n], u, i) { InFront(to, n, u, i); }
  }

  /** An entry goes to exactly those it is addressed to. */
  lemma TargetsExactly(to: string, user: string)
    ensures Targets(to, user) <==> Addressed(to, user)
  {
    RecipientsSplit(to);
    InSplit(to, Recipients(to), user);
    hide Recipients, Splits, NamedAt;
  }

  // --------------------------------------------------------------------- publishing

  const MAX_TARGETS := 1000

  predicate Nameable(u: string) { u != "" && ',' !in u && ' ' !in u && '\n' !in u }

  function Joined(us: seq<string>): string {
    if us == [] then "" else if |us| == 1 then us[0] else Joined(us[..|us| - 1]) + "," + us[|us| - 1]
  }

  /** The recipients' text of an entry: everyone, or the given users; None is refused. */
  function Target(us: seq<string>, all: bool): Option<string> {
    if all == (|us| > 0) || |us| > MAX_TARGETS then None
    else if all then Some("*")
    else if exists i :: 0 <= i < |us| && !Nameable(us[i]) then None
    else Some(Joined(us))
  }

  lemma {:induction false} JoinedSplits(us: seq<string>)
    requires us != [] && forall i :: 0 <= i < |us| ==> ',' !in us[i]
    ensures Recipients(Joined(us)) == us
  {
    if |us| == 1 {
      Plain("", us[0]);
      assert Recipients("") == [""];
      assert "" + us[0] == us[0] && Extended([""], us[0]) == us;
    } else {
      var n := |us| - 1;
      JoinedSplits(us[..n]);
      var front := Joined(us[..n]);
      hide Recipients, Extended;
      Comma(front);
      Plain(front + ",", us[n]);
      var rs := us[..n] + [""];
      ExtendedLast(us, n);
    }
  }

  lemma ExtendedLast(us: seq<string>, n: nat)
    requires |us| == n + 1
    ensures Extended(us[..n] + [""], us[n]) == us
  {
    var rs := us[..n] + [""];
    assert rs[..n] == us[..n] && rs[n] + us[n] == us[n];
  }

  lemma Comma(to: string)
    ensures Recipients(to + ",") == Recipients(to) + [""]
  {
    assert (to + ",")[..|to|] == to;
  }

  function Extended(rs: seq<string>, more: string): seq<string>
    requires rs != []
  {
    rs[..|rs| - 1] + [rs[|rs| - 1] + more]
  }

  lemma OneLetter(to: string, c: char)
    requires c != ','
    ensures Recipients(to) != [] && Recipients(to + [c]) == Extended(Recipients(to), [c])
  {
    RecipientsSplit(to);
    assert (to + [c])[..|to|] == to;
  }

  /** Text without a comma extends the last recipient. */
  lemma {:induction false} Plain(to: string, more: string)
    requires ',' !in more
    ensures Recipients(to) != [] && Recipients(to + more) == Extended(Recipients(to), more)
  {
    RecipientsSplit(to);
    hide Recipients, Splits;
    var rs := Recipients(to);
    if more == "" {
      assert to + more == to;
      assert rs[|rs| - 1] + more == rs[|rs| - 1];
      assert Extended(rs, more) == rs;
    } else {
      var n := |more| - 1;
      Plain(to, more[..n]);
      assert more[n] in more;
      OneLetter(to + more[..n], more[n]);
      assert to + more[..n] + [more[n]] == to + more;
      assert Extended(Extended(rs, more[..n]), [more[n]]) == Extended(rs, more) by {
        assert rs[|rs| - 1] + more[..n] + [more[n]] == rs[|rs| - 1] + more;
      }
    }
  }

  /**
   * What is published to named users reaches exactly those, and what is published to all reaches everyone; except
   * that a list of the one name "*" reaches everyone too.
   */
  lemma PublishReachesExactly(us: seq<string>, all: bool, user: string)
    requires Target(us, all).Some?
    ensures Targets(Target(us, all).value, user) <==> all || user in us || us == ["*"]
  {
    if !all {
      assert forall i :: 0 <= i < |us| ==> Nameable(us[i]);
      JoinedSplits(us);
      OneName(us);
    }
  }

  lemma OneName(us: seq<string>)
    requires forall i :: 0 <= i < |us| ==> us[i] != ""
    ensures |us| > 1 ==> |Joined(us)| > 1
  {
  }

  // -------------------------------------------------------------------- what is owed

  ghost function For(es: seq<Entry>, user: string): nat -> bool {
    (i: nat) => i < |es| && Addressed(es[i].to, user)
  }

  /** What a user is owed of a list: the entries addressed to them, all of them, whole and in order. */
  ghost predicate OwedOf(es: seq<Entry>, user: string, ms: seq<Msg>) {
    exists at: seq<nat> ::
      Marks(at, |es|, For(es, user)) && |ms| == |at| &&
      forall x :: 0 <= x < |at| ==>
        ms[x].id == es[at[x]].id && ms[x].kind == es[at[x]].kind && ms[x].data == es[at[x]].data
  }

  lemma {:induction false} MatchingAt(es: seq<Entry>, user: string) returns (at: seq<nat>)
    ensures Marks(at, |es|, For(es, user)) && |Matching(es, user)| == |at|
    ensures forall x :: 0 <= x < |at| ==> Matching(es, user)[x] == MsgOf(es[at[x]])
  {
    hide Targets, Addressed;
    if es == [] {
      at := [];
    } else {
      var n := |es| - 1;
      var before := MatchingAt(es[..n], user);
      TargetsExactly(es[n].to, user);
      at := Marked(before, n, Targets(es[n].to, user));
      OneMorePlace(before, n, For(es[..n], user), For(es, user));
      hide Marks;
      assert forall x :: 0 <= x < |before| ==> es[..n][before[x]] == es[before[x]];
    }
  }

  lemma MatchingExactly(es: seq<Entry>, user: string)
    ensures OwedOf(es, user, Matching(es, user))
  {
    var at := MatchingAt(es, user);
    hide Matching, Marks;
  }
}
