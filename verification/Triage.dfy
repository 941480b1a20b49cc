/**
 * The triage decision (internal/rules/apply.go): what the matching rules of a tenant decide, declared on the list of
 * their actions, and the laws of that declaration.
 */
module Triage {
  import opened Rows
  import opened Text

  const ACTION_TAG := "tag"
  const ACTION_ASSIGN := "assign"
  const ACTION_STATUS := "status"
  const ACTION_PRIORITY := "priority"
  const ACTION_DROP := "drop"

  datatype TagRef = TagRef(kind: string, name: string)

  datatype Decision = Decision(
    drop: bool, matchedIds: seq<string>, matchedNames: seq<string>, tags: seq<TagRef>, assignee: string,
    status: string, priority: string, errors: nat)

  const UNDECIDED := Decision(false, [], [], [], "", "", "", 0)

  /** How the evaluation of one rule ended; a failure is a rule that did not compile or evaluate. */
  datatype Verdict = Matched | Unmatched | Failed

  // ------------------------------------------------------ the declared meaning

  /** The actions of the matching rules, in rule order. */
  function Actions(rules: seq<Rule>, verdicts: seq<Verdict>): seq<Action>
    requires |rules| == |verdicts|
  {
    if rules == [] then []
    else
      var n := |rules| - 1;
      Actions(rules[..n], verdicts[..n]) + if verdicts[n] == Matched then rules[n].actions else []
  }

  function MatchedRules(rules: seq<Rule>, verdicts: seq<Verdict>): seq<Rule>
    requires |rules| == |verdicts|
  {
    if rules == [] then []
    else
      var n := |rules| - 1;
      MatchedRules(rules[..n], verdicts[..n]) + if verdicts[n] == Matched then [rules[n]] else []
  }

  function Failures(verdicts: seq<Verdict>): nat {
    if verdicts == [] then 0
    else Failures(verdicts[..|verdicts| - 1]) + if verdicts[|verdicts| - 1] == Failed then 1 else 0
  }

  /** The first action of the kind that sets something. */
  function First(actions: seq<Action>, kind: string, value: Action -> string): string {
    if actions == [] then ""
    else
      var before, a := First(actions[..|actions| - 1], kind, value), actions[|actions| - 1];
      if before == "" && a.kind == kind then value(a) else before
  }

  predicate Drops(actions: seq<Action>) { exists i :: 0 <= i < |actions| && actions[i].kind == ACTION_DROP }

  function TagKind(a: Action): string { if a.tagKind == "" then KIND_TAG else a.tagKind }

  function Named(kind: string, names: seq<string>): seq<TagRef> {
    if names == [] then []
    else
      var before, n := Named(kind, names[..|names| - 1]), TrimSpace(names[|names| - 1]);
      if n == "" then before else before + [TagRef(kind, n)]
  }

  /** Every tag named, trimmed, blanks left out. */
  function TagRefs(actions: seq<Action>): seq<TagRef> {
    if actions == [] then []
    else
      var before, a := TagRefs(actions[..|actions| - 1]), actions[|actions| - 1];
      if a.kind == ACTION_TAG then before + Named(TagKind(a), a.tagNames) else before
  }

  function SeenKey(cs: Casing, t: TagRef): string { t.kind + ['\0'] + cs.lower(t.name) }

  function Keys(cs: Casing, tags: seq<TagRef>): set<string> { set i | 0 <= i < |tags| :: SeenKey(cs, tags[i]) }

  /** First occurrences, in order. */
  function Distinct(cs: Casing, tags: seq<TagRef>): seq<TagRef> {
    if tags == [] then []
    else
      var before, t := Distinct(cs, tags[..|tags| - 1]), tags[|tags| - 1];
      if SeenKey(cs, t) in Keys(cs, before) then before else before + [t]
  }

  function IdsOf(rules: seq<Rule>): seq<string> {
    if rules == [] then [] else IdsOf(rules[..|rules| - 1]) + [rules[|rules| - 1].id]
  }

  function NamesOf(rules: seq<Rule>): seq<string> {
    if rules == [] then [] else NamesOf(rules[..|rules| - 1]) + [rules[|rules| - 1].name]
  }

  function AssigneeOf(a: Action): string { a.assignee }
  function StatusOf(a: Action): string { a.status }
  function PriorityOf(a: Action): string { a.priority }

  /** The decision of a list of matching rules with those actions. */
  function Declared(cs: Casing, matched: seq<Rule>, actions: seq<Action>, errors: nat): Decision {
    Decision(Drops(actions), IdsOf(matched), NamesOf(matched), Distinct(cs, TagRefs(actions)),
             First(actions, ACTION_ASSIGN, AssigneeOf), First(actions, ACTION_STATUS, StatusOf),
             First(actions, ACTION_PRIORITY, PriorityOf), errors)
  }

  /** The rules that are looked at: the first ones, up to a positive limit. */
  function Evaluated(rules: seq<Rule>, maxRules: int): (run: seq<Rule>)
    ensures run <= rules && |run| == if 0 < maxRules < |rules| then maxRules else |rules|
  {
    if maxRules > 0 && |rules| > maxRules then rules[..maxRules] else rules
  }

  lemma KeysGrow(cs: Casing, tags: seq<TagRef>, t: TagRef)
    ensures Keys(cs, tags + [t]) == Keys(cs, tags) + {SeenKey(cs, t)}
  {
    var more := tags + [t];
    forall k | k in Keys(cs, more) ensures k in Keys(cs, tags) + {SeenKey(cs, t)} {
      var i :| 0 <= i < |more| && SeenKey(cs, more[i]) == k;
      if i < |tags| { assert more[i] == tags[i]; }
    }
    forall k | k in Keys(cs, tags) + {SeenKey(cs, t)} ensures k in Keys(cs, more) {
      if k == SeenKey(cs, t) {
        assert more[|tags|] == t;
      } else {
        var i :| 0 <= i < |tags| && SeenKey(cs, tags[i]) == k;
        assert more[i] == tags[i];
      }
    }
  }

  // ------------------------------------------------------- what the meaning is

  /** The first setting wins: nothing before it sets a value, and it is the value. */
  lemma {:induction false} FirstWins(actions: seq<Action>, kind: string, value: Action -> string, i: nat)
    requires i < |actions| && actions[i].kind == kind && value(actions[i]) != ""
    requires forall j :: 0 <= j < i && actions[j].kind == kind ==> value(actions[j]) == ""
    ensures First(actions, kind, value) == value(actions[i])
  {
    var n := |actions| - 1;
    if i < n {
      FirstWins(actions[..n], kind, value, i);
    } else {
      FirstOfNone(actions[..n], kind, value);
    }
  }

  lemma {:induction false} FirstOfNone(actions: seq<Action>, kind: string, value: Action -> string)
    requires forall j :: 0 <= j < |actions| && actions[j].kind == kind ==> value(actions[j]) == ""
    ensures First(actions, kind, value) == ""
  {
    if actions != [] {
      var n := |actions| - 1;
      FirstOfNone(actions[..n], kind, value);
      assert actions[n].kind == kind ==> value(actions[n]) == "";
    }
  }

  /** No two tags of a decision share a key, and every tag named is there under its key. */
  lemma {:induction false} DistinctIs(cs: Casing, tags: seq<TagRef>)
    ensures var out := Distinct(cs, tags);
            && (forall i, j :: 0 <= i < j < |out| ==> SeenKey(cs, out[i]) != SeenKey(cs, out[j]))
            && Keys(cs, out) == Keys(cs, tags)
            && (forall i :: 0 <= i < |out| ==> out[i] in tags)
  {
    if tags != [] {
      var n := |tags| - 1;
      DistinctIs(cs, tags[..n]);
      KeysGrow(cs, tags[..n], tags[n]);
      assert tags == tags[..n] + [tags[n]];
      KeysGrow(cs, Distinct(cs, tags[..n]), tags[n]);
      var before := Distinct(cs, tags[..n]);
      forall i | 0 <= i < |before| ensures SeenKey(cs, before[i]) in Keys(cs, before) {}
    }
  }

  /** Each key keeps its first spelling: the tag kept is the earliest one named with that key. */
  lemma {:induction false} FirstSpelling(cs: Casing, tags: seq<TagRef>, i: nat)
    requires i < |tags| && forall j :: 0 <= j < i ==> SeenKey(cs, tags[j]) != SeenKey(cs, tags[i])
    ensures tags[i] in Distinct(cs, tags)
  {
    var n := |tags| - 1;
    if i < n {
      FirstSpelling(cs, tags[..n], i);
    } else {
      DistinctIs(cs, tags[..n]);
    }
  }

  /** Where a key is first named; the number of tags when it never is. */
  function Mention(cs: Casing, tags: seq<TagRef>, key: string): nat {
    if tags == [] then 0
    else
      var n := |tags| - 1;
      var m := Mention(cs, tags[..n], key);
      if m < n || SeenKey(cs, tags[n]) == key then m else n + 1
  }

  lemma {:induction false} MentionIs(cs: Casing, tags: seq<TagRef>, key: string)
    ensures Mention(cs, tags, key) <= |tags|
    ensures Mention(cs, tags, key) < |tags| ==> SeenKey(cs, tags[Mention(cs, tags, key)]) == key
    ensures forall q :: 0 <= q < Mention(cs, tags, key) ==> SeenKey(cs, tags[q]) != key
  {
    if tags != [] { MentionIs(cs, tags[..|tags| - 1], key); }
  }

  /** The kept tags are the first mentions, spelled as there, in the order they were made. */
  lemma {:induction false} MentionOrder(cs: Casing, tags: seq<TagRef>)
    ensures var out := Distinct(cs, tags);
            && (forall i :: 0 <= i < |out| ==>
                  var m := Mention(cs, tags, SeenKey(cs, out[i])); m < |tags| && tags[m] == out[i])
            && (forall i, j :: 0 <= i < j < |out| ==>
                  Mention(cs, tags, SeenKey(cs, out[i])) < Mention(cs, tags, SeenKey(cs, out[j])))
  {
    hide SeenKey;
    if tags != [] {
      var n := |tags| - 1;
      MentionOrder(cs, tags[..n]);
      MentionIs(cs, tags[..n], SeenKey(cs, tags[n]));
      DistinctIs(cs, tags[..n]);
      var m := Mention(cs, tags[..n], SeenKey(cs, tags[n]));
      if m < n { assert SeenKey(cs, tags[..n][m]) in Keys(cs, tags[..n]); }
    }
  }

  /** For kinds without a NUL, which stored rules always have, a key is a kind and a folded name. */
  lemma {:induction false} KeyIsKindAndName(cs: Casing, t: TagRef, u: TagRef)
    requires '\0' !in t.kind && '\0' !in u.kind
    ensures SeenKey(cs, t) == SeenKey(cs, u) <==> t.kind == u.kind && cs.lower(t.name) == cs.lower(u.name)
  {
    if SeenKey(cs, t) == SeenKey(cs, u) {
      SplitAtNul(t.kind, cs.lower(t.name), u.kind, cs.lower(u.name));
    }
  }

  lemma {:induction false} SplitAtNul(a: string, x: string, b: string, y: string)
    requires '\0' !in a && '\0' !in b && a + ['\0'] + x == b + ['\0'] + y
    ensures a == b && x == y
  {
    assert (a != [] ==> a[0] in a) && (b != [] ==> b[0] in b);
    var s := a + ['\0'] + x;
    assert s[0] == if a == [] then '\0' else a[0];
    assert s[0] == if b == [] then '\0' else b[0];
    if a == [] {
      assert x == s[1..] && y == s[1..];
    } else {
      assert s[1..] == a[1..] + ['\0'] + x == b[1..] + ['\0'] + y;
      SplitAtNul(a[1..], x, b[1..], y);
      assert a == [a[0]] + a[1..] && b == [b[0]] + b[1..];
    }
  }

  // ---------------------------------------------------- failing rules are inert

  function Surviving<T>(xs: seq<T>, verdicts: seq<Verdict>): seq<T>
    requires |xs| == |verdicts|
  {
    if xs == [] then []
    else
      var n := |xs| - 1;
      Surviving(xs[..n], verdicts[..n]) + if verdicts[n] == Failed then [] else [xs[n]]
  }

  ghost predicate Inert(rules: seq<Rule>, verdicts: seq<Verdict>) {
    |rules| == |verdicts| &&
    var rs, vs := Surviving(rules, verdicts), Surviving(verdicts, verdicts);
    |rs| == |vs| && MatchedRules(rs, vs) == MatchedRules(rules, verdicts) &&
    Actions(rs, vs) == Actions(rules, verdicts) && Failures(vs) == 0
  }

  /** Deleting the failing rules deletes their failures and nothing else. */
  lemma {:induction false} FailingRulesInert(rules: seq<Rule>, verdicts: seq<Verdict>)
    requires |rules| == |verdicts|
    ensures |Surviving(rules, verdicts)| == |Surviving(verdicts, verdicts)|
    ensures var rs, vs := Surviving(rules, verdicts), Surviving(verdicts, verdicts);
            && MatchedRules(rs, vs) == MatchedRules(rules, verdicts)
            && Actions(rs, vs) == Actions(rules, verdicts)
            && Failures(vs) == 0
  {
    if rules == [] {
      assert rules == [] && verdicts == [];
    } else {
      hide Actions, MatchedRules, Failures, Surviving;
      var n := |rules| - 1;
      FailingRulesInert(rules[..n], verdicts[..n]);
      OneMoreInert(rules[..n], verdicts[..n], rules[n], verdicts[n]);
      assert rules == rules[..n] + [rules[n]] && verdicts == verdicts[..n] + [verdicts[n]];
    }
  }

  lemma OneMoreInert(rules: seq<Rule>, verdicts: seq<Verdict>, r: Rule, v: Verdict)
    requires Inert(rules, verdicts)
    ensures Inert(rules + [r], verdicts + [v])
  {
    hide Actions, MatchedRules, Failures, Surviving;
    OneMoreRule(rules, verdicts, r, v);
    OneMoreSurvives(rules, verdicts, r, v);
    OneMoreSurvives(verdicts, verdicts, v, v);
    OneMoreRule(Surviving(rules, verdicts), Surviving(verdicts, verdicts), r, v);
  }

  lemma OneMoreSurvives<T>(xs: seq<T>, verdicts: seq<Verdict>, x: T, v: Verdict)
    requires |xs| == |verdicts|
    ensures Surviving(xs + [x], verdicts + [v]) ==
            if v == Failed then Surviving(xs, verdicts) else Surviving(xs, verdicts) + [x]
  {
    assert (xs + [x])[..|xs|] == xs && (verdicts + [v])[..|xs|] == verdicts;
  }

  lemma OneMoreRule(rules: seq<Rule>, verdicts: seq<Verdict>, r: Rule, v: Verdict)
    requires |rules| == |verdicts|
    ensures MatchedRules(rules + [r], verdicts + [v]) ==
            MatchedRules(rules, verdicts) + if v == Matched then [r] else []
    ensures Actions(rules + [r], verdicts + [v]) == Actions(rules, verdicts) + if v == Matched then r.actions else []
    ensures Failures(verdicts + [v]) == Failures(verdicts) + if v == Failed then 1 else 0
  {
    assert (rules + [r])[..|rules|] == rules && (verdicts + [v])[..|rules|] == verdicts;
  }

  /** So the decision without them differs at most in its error count. */
  lemma DecisionWithoutFailures(cs: Casing, rules: seq<Rule>, verdicts: seq<Verdict>)
    requires |rules| == |verdicts|
    ensures |Surviving(rules, verdicts)| == |Surviving(verdicts, verdicts)|
    ensures var rs, vs := Surviving(rules, verdicts), Surviving(verdicts, verdicts);
            Declared(cs, MatchedRules(rs, vs), Actions(rs, vs), Failures(vs)) ==
            Declared(cs, MatchedRules(rules, verdicts), Actions(rules, verdicts), Failures(verdicts)).(errors := 0)
  {
    FailingRulesInert(rules, verdicts);
  }
}
