/**
 * The loop that folds the matching rules of a tenant into one decision (internal/rules/apply.go), proved to say what
 * the rules say for every rule list and every per-rule outcome.
 */
module TriageRun {
  import opened Rows
  import opened Text
  import opened Triage
  import opened TriageMeaning

  method MergeTags(cs: Casing, tags: seq<TagRef>, seen: set<string>, a: Action, ghost refs: seq<TagRef>)
    returns (tags': seq<TagRef>, seen': set<string>)
    requires tags == Distinct(cs, refs) && seen == Keys(cs, tags)
    ensures tags' == Distinct(cs, refs + Named(TagKind(a), a.tagNames)) && seen' == Keys(cs, tags')
  {
    tags', seen' := tags, seen;
    var kind := a.tagKind;
    if kind == "" { kind := KIND_TAG; }
    assert refs + Named(kind, []) == refs;
    hide TrimSpace, SeenKey, Distinct, Keys;
    for i := 0 to |a.tagNames|
      invariant tags' == Distinct(cs, refs + Named(kind, a.tagNames[..i])) && seen' == Keys(cs, tags')
    {
      var n := TrimSpace(a.tagNames[i]);
      var t := TagRef(kind, n);
      NextName(cs, refs, kind, a.tagNames, i);
      if n != "" {
        if SeenKey(cs, t) !in seen' {
          KeysGrow(cs, tags', t);
          seen' := seen' + {SeenKey(cs, t)};
          tags' := tags' + [t];
        }
      }
    }
    assert a.tagNames[..|a.tagNames|] == a.tagNames;
  }

  lemma NextName(cs: Casing, refs: seq<TagRef>, kind: string, names: seq<string>, i: nat)
    requires i < |names|
    ensures var n := TrimSpace(names[i]);
            var before := Distinct(cs, refs + Named(kind, names[..i]));
            var next := Distinct(cs, refs + Named(kind, names[..i + 1]));
            next == if n != "" && SeenKey(cs, TagRef(kind, n)) !in Keys(cs, before) then before + [TagRef(kind, n)]
                    else before
  {
    hide TrimSpace, SeenKey, Keys;
    var before, all := refs + Named(kind, names[..i]), names[..i + 1];
    assert all[..|all| - 1] == names[..i];
    var t := TagRef(kind, TrimSpace(names[i]));
    if t.name != "" {
      assert refs + Named(kind, all) == before + [t];
      assert (before + [t])[..|before|] == before;
    }
  }

  /** Folds one action into the decision of the actions before it. */
  method MergeAction(cs: Casing, d: Decision, seen: set<string>, a: Action, ghost matched: seq<Rule>,
                     ghost before: seq<Action>)
    returns (d': Decision, seen': set<string>)
    requires d == Declared(cs, matched, before, d.errors) && seen == Keys(cs, d.tags)
    ensures d' == Declared(cs, matched, before + [a], d.errors) && seen' == Keys(cs, d'.tags)
  {
    hide First, TagRefs, Drops, Distinct, Keys, IdsOf, NamesOf;
    OneMoreAction(before, a);
    d', seen' := d, seen;
    if a.kind == ACTION_TAG {
      var tags, keys := MergeTags(cs, d.tags, seen, a, TagRefs(before));
      d', seen' := d.(tags := tags), keys;
    } else if a.kind == ACTION_ASSIGN {
      if d.assignee == "" { d' := d.(assignee := a.assignee); }
    } else if a.kind == ACTION_STATUS {
      if d.status == "" { d' := d.(status := a.status); }
    } else if a.kind == ACTION_PRIORITY {
      if d.priority == "" { d' := d.(priority := a.priority); }
    } else if a.kind == ACTION_DROP {
      d' := d.(drop := true);
    }
  }

  /** Folds one matching rule into the decision of the rules before it. */
  method Merge(cs: Casing, d: Decision, seen: set<string>, r: Rule, ghost matched: seq<Rule>,
               ghost actions: seq<Action>)
    returns (d': Decision, seen': set<string>)
    requires d == Declared(cs, matched, actions, d.errors) && seen == Keys(cs, d.tags)
    ensures d' == Declared(cs, matched + [r], actions + r.actions, d.errors) && seen' == Keys(cs, d'.tags)
    ensures Merges(cs, d, r, d')
  {
    MergeMeans(cs, matched, actions, r, d.errors);
    hide Merges;
    d', seen' := d.(matchedIds := d.matchedIds + [r.id], matchedNames := d.matchedNames + [r.name]), seen;
    assert (matched + [r])[..|matched|] == matched;
    assert actions + r.actions[..0] == actions;
    hide Declared, Keys;
    for i := 0 to |r.actions|
      invariant d' == Declared(cs, matched + [r], actions + r.actions[..i], d.errors) && seen' == Keys(cs, d'.tags) &&
                d'.errors == d.errors
    {
      assert actions + r.actions[..i + 1] == actions + r.actions[..i] + [r.actions[i]];
      DeclaredErrors(cs, matched + [r], actions + r.actions[..i + 1], d.errors);
      d', seen' := MergeAction(cs, d', seen', r.actions[i], matched + [r], actions + r.actions[..i]);
    }
    assert r.actions[..|r.actions|] == r.actions;
  }

  lemma DeclaredErrors(cs: Casing, matched: seq<Rule>, actions: seq<Action>, errors: nat)
    ensures Declared(cs, matched, actions, errors).errors == errors
  {
  }

  lemma OneMoreError(cs: Casing, matched: seq<Rule>, actions: seq<Action>, errors: nat)
    ensures Declared(cs, matched, actions, errors + 1) == Declared(cs, matched, actions, errors).(errors := errors + 1)
    ensures Declared(cs, matched, actions, errors + 1).tags == Declared(cs, matched, actions, errors).tags
  {
  }

  lemma OneMoreAction(before: seq<Action>, a: Action)
    ensures Drops(before + [a]) == (Drops(before) || a.kind == ACTION_DROP)
    ensures TagRefs(before + [a]) ==
            if a.kind == ACTION_TAG then TagRefs(before) + Named(TagKind(a), a.tagNames) else TagRefs(before)
    ensures forall kind, value :: First(before + [a], kind, value) ==
              if First(before, kind, value) == "" && a.kind == kind then value(a) else First(before, kind, value)
  {
    var more := before + [a];
    assert more[..|before|] == before;
    assert forall i :: 0 <= i < |before| ==> more[i] == before[i];
    assert more[|before|] == a;
  }

  lemma NothingDeclared(cs: Casing)
    ensures Declared(cs, [], [], 0) == UNDECIDED && Keys(cs, []) == {}
  {
  }

  /** The rules in order: failing ones are counted and skipped. */
  method Fold(cs: Casing, run: seq<Rule>, verdicts: seq<Verdict>) returns (d: Decision)
    requires |verdicts| == |run|
    ensures d == Declared(cs, MatchedRules(run, verdicts), Actions(run, verdicts), Failures(verdicts))
  {
    hide First, Distinct, TagRefs, Drops, IdsOf, NamesOf, Keys, Merges, Declared;
    NothingDeclared(cs);
    d := UNDECIDED;
    var seen: set<string> := {};
    for i := 0 to |run|
      invariant d == Declared(cs, MatchedRules(run[..i], verdicts[..i]),
                              Actions(run[..i], verdicts[..i]), Failures(verdicts[..i]))
      invariant seen == Keys(cs, d.tags) && d.errors == Failures(verdicts[..i])
    {
      assert run[..i + 1][..i] == run[..i] && verdicts[..i + 1][..i] == verdicts[..i];
      ghost var matched, actions := MatchedRules(run[..i], verdicts[..i]), Actions(run[..i], verdicts[..i]);
      assert matched + [] == matched && actions + [] == actions;
      OneMoreError(cs, matched, actions, d.errors);
      DeclaredErrors(cs, matched + [run[i]], actions + run[i].actions, d.errors);
      if verdicts[i] == Matched {
        d, seen := Merge(cs, d, seen, run[i], matched, actions);
      } else if verdicts[i] == Failed {
        d := d.(errors := d.errors + 1);
      }
    }
    assert run[..|run|] == run && verdicts[..|run|] == verdicts;
  }

  /** The loop over the tenant's rules, as many as are looked at. */
  method Decide(cs: Casing, rules: seq<Rule>, maxRules: int, verdicts: seq<Verdict>) returns (d: Decision)
    requires |verdicts| == |Evaluated(rules, maxRules)|
    ensures d == Declared(cs, MatchedRules(Evaluated(rules, maxRules), verdicts),
                          Actions(Evaluated(rules, maxRules), verdicts), Failures(verdicts))
    ensures Decides(cs, Evaluated(rules, maxRules), verdicts, d)
  {
    DeclaredDecides(cs, Evaluated(rules, maxRules), verdicts);
    hide Decides, Declared, MatchedRules, Actions, Failures;
    var run := rules;
    if maxRules > 0 && |run| > maxRules { run := run[..maxRules]; }
    d := Fold(cs, run, verdicts);
  }
}
