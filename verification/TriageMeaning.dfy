/**
 * What a decision says, read off the rules themselves by position: which rule, which of its actions, which tag name
 * (internal/rules/apply.go). The flattened lists of Triage are shown to list those positions in order.
 */
module TriageMeaning {
  import opened Rows
  import opened Text
  import opened Triage
  import opened Places

  // ------------------------------------------------------------ the statements

  /** Action j of rule i is carried out: the rule was evaluated and matched. */
  predicate Taken(run: seq<Rule>, verdicts: seq<Verdict>, i: int, j: int) {
    0 <= i < |run| && i < |verdicts| && verdicts[i] == Matched && 0 <= j < |run[i].actions|
  }

  predicate Sooner(i: int, j: int, i': int, j': int) { i < i' || (i == i' && j < j') }

  /** What an action sets, by its kind. */
  function Value(a: Action): string {
    if a.kind == "assign" then a.assignee
    else if a.kind == "status" then a.status
    else if a.kind == "priority" then a.priority
    else ""
  }

  /** An action of the kind that is carried out and sets a value. */
  predicate Sets(run: seq<Rule>, verdicts: seq<Verdict>, kind: string, i: int, j: int) {
    Taken(run, verdicts, i, j) && run[i].actions[j].kind == kind && Value(run[i].actions[j]) != ""
  }

  /** The value is the first one set, or empty when none is. */
  ghost predicate FirstSet(run: seq<Rule>, verdicts: seq<Verdict>, kind: string, got: string) {
    if got == "" then forall i, j :: !Sets(run, verdicts, kind, i, j)
    else
      exists i, j :: Sets(run, verdicts, kind, i, j) && Value(run[i].actions[j]) == got &&
                     forall i', j' :: Sets(run, verdicts, kind, i', j') ==> !Sooner(i', j', i, j)
  }

  function Holds<T(==)>(xs: seq<T>, x: T): nat -> bool { (i: nat) => i < |xs| && xs[i] == x }

  /** The rules that matched, all of them and in order. */
  ghost predicate MatchedAre(run: seq<Rule>, verdicts: seq<Verdict>, ids: seq<string>, names: seq<string>)
    requires |run| == |verdicts|
  {
    exists at: seq<nat> ::
      Marks(at, |run|, Holds(verdicts, Matched)) && |ids| == |at| && |names| == |at| &&
      forall x :: 0 <= x < |at| ==> ids[x] == run[at[x]].id && names[x] == run[at[x]].name
  }

  datatype Spot = Spot(rule: int, action: int, name: int)

  predicate Precedes(p: Spot, q: Spot) {
    Sooner(p.rule, p.action, q.rule, q.action) || (p.rule == q.rule && p.action == q.action && p.name < q.name)
  }

  /** A name that is not blank, in a tag action that is carried out. */
  predicate Mentions(run: seq<Rule>, verdicts: seq<Verdict>, p: Spot) {
    Taken(run, verdicts, p.rule, p.action) && run[p.rule].actions[p.action].kind == "tag" &&
    0 <= p.name < |run[p.rule].actions[p.action].tagNames| &&
    TrimSpace(run[p.rule].actions[p.action].tagNames[p.name]) != ""
  }

  /** The tag mentioned: the trimmed name under the action's kind, "tag" when it has none. */
  function Mentioned(run: seq<Rule>, verdicts: seq<Verdict>, p: Spot): TagRef
    requires Mentions(run, verdicts, p)
  {
    var a := run[p.rule].actions[p.action];
    TagRef(if a.tagKind == "" then "tag" else a.tagKind, TrimSpace(a.tagNames[p.name]))
  }

  /** A mention whose key was not seen before, and not mentioned earlier. */
  ghost predicate FirstMention(cs: Casing, run: seq<Rule>, verdicts: seq<Verdict>, seen: set<string>, p: Spot) {
    Mentions(run, verdicts, p) && SeenKey(cs, Mentioned(run, verdicts, p)) !in seen &&
    forall q :: Mentions(run, verdicts, q) && Precedes(q, p) ==>
      SeenKey(cs, Mentioned(run, verdicts, q)) != SeenKey(cs, Mentioned(run, verdicts, p))
  }

  /** The tags are the first mentions, all of them, as they are spelled there and in their order. */
  ghost predicate TagsAre(cs: Casing, run: seq<Rule>, verdicts: seq<Verdict>, seen: set<string>, tags: seq<TagRef>) {
    exists spots: seq<Spot> ::
      (forall x, y :: 0 <= x < y < |spots| ==> Precedes(spots[x], spots[y])) &&
      (forall p :: FirstMention(cs, run, verdicts, seen, p) ==> p in spots) && |tags| == |spots| &&
      forall x :: 0 <= x < |spots| ==>
        FirstMention(cs, run, verdicts, seen, spots[x]) && tags[x] == Mentioned(run, verdicts, spots[x])
  }

  function Count(verdicts: seq<Verdict>, v: Verdict): nat { multiset(verdicts)[v] }

  /** What a decision over evaluated rules says. */
  ghost predicate Decides(cs: Casing, run: seq<Rule>, verdicts: seq<Verdict>, d: Decision)
    requires |run| == |verdicts|
  {
    (d.drop <==> exists i, j :: Taken(run, verdicts, i, j) && run[i].actions[j].kind == "drop") &&
    FirstSet(run, verdicts, "assign", d.assignee) &&
    FirstSet(run, verdicts, "status", d.status) &&
    FirstSet(run, verdicts, "priority", d.priority) &&
    MatchedAre(run, verdicts, d.matchedIds, d.matchedNames) && TagsAre(cs, run, verdicts, {}, d.tags) &&
    d.errors == Count(verdicts, Failed)
  }

  /** What was decided stays; what was not is the first value the rule sets. */
  ghost predicate KeptOrSet(was: string, got: string, r: Rule, kind: string) {
    if was != "" then got == was else FirstSet([r], [Matched], kind, got)
  }

  /** What one more matching rule makes of a decision. */
  ghost predicate Merges(cs: Casing, d: Decision, r: Rule, d': Decision) {
    (d'.drop <==> d.drop || exists j :: 0 <= j < |r.actions| && r.actions[j].kind == "drop") &&
    KeptOrSet(d.assignee, d'.assignee, r, "assign") && KeptOrSet(d.status, d'.status, r, "status") &&
    KeptOrSet(d.priority, d'.priority, r, "priority") && d'.matchedIds == d.matchedIds + [r.id] &&
    d'.matchedNames == d.matchedNames + [r.name] && d'.errors == d.errors && d.tags <= d'.tags &&
    TagsAre(cs, [r], [Matched], Keys(cs, d.tags), d'.tags[|d.tags|..])
  }

  // -------------------------------------------------------- actions by position

  datatype Place = Place(rule: int, action: int)

  /** The places of the actions carried out, all of them and in order. */
  ghost predicate Lists(run: seq<Rule>, verdicts: seq<Verdict>, actions: seq<Action>, at: seq<Place>) {
    |at| == |actions| &&
    (forall x :: 0 <= x < |at| ==>
       Taken(run, verdicts, at[x].rule, at[x].action) && actions[x] == run[at[x].rule].actions[at[x].action]) &&
    (forall x, y :: 0 <= x < y < |at| ==> Sooner(at[x].rule, at[x].action, at[y].rule, at[y].action)) &&
    forall i, j :: Taken(run, verdicts, i, j) ==> Place(i, j) in at
  }

  lemma {:induction false} ActionsAt(run: seq<Rule>, verdicts: seq<Verdict>) returns (at: seq<Place>)
    requires |run| == |verdicts|
    ensures Lists(run, verdicts, Actions(run, verdicts), at)
  {
    if run == [] {
      at := [];
    } else {
      var n := |run| - 1;
      var before := ActionsAt(run[..n], verdicts[..n]);
      var more := if verdicts[n] == Matched then seq(|run[n].actions|, j => Place(n, j)) else [];
      at := before + more;
      OneMoreRuleAt(run, verdicts, before, more);
    }
  }

  lemma OneMoreRuleAt(run: seq<Rule>, verdicts: seq<Verdict>, before: seq<Place>, more: seq<Place>)
    requires |run| == |verdicts| > 0
    requires Lists(run[..|run| - 1], verdicts[..|run| - 1], Actions(run[..|run| - 1], verdicts[..|run| - 1]), before)
    requires verdicts[|run| - 1] != Matched ==> more == []
    requires verdicts[|run| - 1] == Matched ==>
               |more| == |run[|run| - 1].actions| && forall j :: 0 <= j < |more| ==> more[j] == Place(|run| - 1, j)
    ensures Lists(run, verdicts, Actions(run, verdicts), before + more)
  {
    var n := |run| - 1;
    var at := before + more;
    var early, all := Actions(run[..n], verdicts[..n]), Actions(run, verdicts);
    assert all == early + if verdicts[n] == Matched then run[n].actions else [];
    hide Actions, Taken;
    forall i, j ensures Taken(run[..n], verdicts[..n], i, j) <==> Taken(run, verdicts, i, j) && i < n {
      EarlierRule(run, verdicts, i, j);
    }
    forall i, j | Taken(run, verdicts, i, j) ensures Place(i, j) in at {
      if i >= n {
        LastRule(run, verdicts, i, j);
        assert more[j] == Place(i, j);
      }
    }
    forall x | 0 <= x < |at|
      ensures Taken(run, verdicts, at[x].rule, at[x].action) && all[x] == run[at[x].rule].actions[at[x].action]
    {
      if x < |before| {
        assert Taken(run[..n], verdicts[..n], before[x].rule, before[x].action);
        EarlierRule(run, verdicts, before[x].rule, before[x].action);
      } else {
        LastRule(run, verdicts, n, x - |before|);
      }
    }
  }

  lemma EarlierRule(run: seq<Rule>, verdicts: seq<Verdict>, i: int, j: int)
    requires |run| == |verdicts| > 0
    ensures var n := |run| - 1;
            (Taken(run[..n], verdicts[..n], i, j) <==> Taken(run, verdicts, i, j) && i < n) &&
            (0 <= i < n ==> run[..n][i] == run[i])
  {
  }

  lemma LastRule(run: seq<Rule>, verdicts: seq<Verdict>, i: int, j: int)
    requires |run| == |verdicts| > 0
    ensures Taken(run, verdicts, i, j) && i >= |run| - 1 ==>
              i == |run| - 1 && verdicts[i] == Matched && 0 <= j < |run[i].actions|
    ensures i == |run| - 1 && verdicts[i] == Matched && 0 <= j < |run[i].actions| ==> Taken(run, verdicts, i, j)
  {
  }

  lemma DropsExactly(run: seq<Rule>, verdicts: seq<Verdict>, actions: seq<Action>, at: seq<Place>)
    requires Lists(run, verdicts, actions, at)
    ensures Drops(actions) <==> exists i, j :: Taken(run, verdicts, i, j) && run[i].actions[j].kind == "drop"
  {
    if Drops(actions) {
      var x :| 0 <= x < |actions| && actions[x].kind == ACTION_DROP;
      assert Taken(run, verdicts, at[x].rule, at[x].action);
    }
    if i, j :| Taken(run, verdicts, i, j) && run[i].actions[j].kind == "drop" {
      var x :| 0 <= x < |at| && at[x] == Place(i, j);
      assert actions[x].kind == ACTION_DROP;
    }
  }

  /** A list either sets no value of the kind, or has a first place that does. */
  lemma {:induction false} FirstPlace(actions: seq<Action>, kind: string, value: Action -> string) returns (x: nat)
    ensures x <= |actions|
    ensures forall y :: 0 <= y < x && actions[y].kind == kind ==> value(actions[y]) == ""
    ensures x < |actions| ==> actions[x].kind == kind && value(actions[x]) != ""
  {
    if actions == [] {
      x := 0;
    } else {
      var n := |actions| - 1;
      x := FirstPlace(actions[..n], kind, value);
      assert forall y :: 0 <= y < n ==> actions[..n][y] == actions[y];
      if x == n && !(actions[n].kind == kind && value(actions[n]) != "") { x := n + 1; }
    }
  }

  lemma FirstExactly(run: seq<Rule>, verdicts: seq<Verdict>, actions: seq<Action>, at: seq<Place>, kind: string,
                     value: Action -> string)
    requires Lists(run, verdicts, actions, at) && forall a: Action :: a.kind == kind ==> value(a) == Value(a)
    ensures FirstSet(run, verdicts, kind, First(actions, kind, value))
  {
    var x := FirstPlace(actions, kind, value);
    if x == |actions| {
      FirstOfNone(actions, kind, value);
      forall i, j ensures !Sets(run, verdicts, kind, i, j) {
        if Taken(run, verdicts, i, j) {
          var y :| 0 <= y < |at| && at[y] == Place(i, j);
          assert actions[y] == run[i].actions[j];
        }
      }
    } else {
      FirstWins(actions, kind, value, x);
      var p := at[x];
      assert Sets(run, verdicts, kind, p.rule, p.action);
      forall i', j' | Sets(run, verdicts, kind, i', j') ensures !Sooner(i', j', p.rule, p.action) {
        var y :| 0 <= y < |at| && at[y] == Place(i', j');
        if y > x { assert Sooner(p.rule, p.action, i', j'); }
      }
    }
  }

  // ---------------------------------------------------------- rules by position

  /** The matching rules themselves, by place. */
  lemma {:induction false} MatchedAt(run: seq<Rule>, verdicts: seq<Verdict>) returns (at: seq<nat>)
    requires |run| == |verdicts|
    ensures Marks(at, |run|, Holds(verdicts, Matched)) && |MatchedRules(run, verdicts)| == |at|
    ensures forall x :: 0 <= x < |at| ==> MatchedRules(run, verdicts)[x] == run[at[x]]
  {
    if run == [] {
      at := [];
    } else {
      var n := |run| - 1;
      var before := MatchedAt(run[..n], verdicts[..n]);
      at := Marked(before, n, verdicts[n] == Matched);
      OneMorePlace(before, n, Holds(verdicts[..n], Matched), Holds(verdicts, Matched));
      hide Marks;
      assert forall x :: 0 <= x < |before| ==> run[..n][before[x]] == run[before[x]];
    }
  }

  lemma {:induction false} IdsAndNames(rules: seq<Rule>)
    ensures |IdsOf(rules)| == |NamesOf(rules)| == |rules|
    ensures forall x :: 0 <= x < |rules| ==> IdsOf(rules)[x] == rules[x].id && NamesOf(rules)[x] == rules[x].name
  {
    if rules != [] { IdsAndNames(rules[..|rules| - 1]); }
  }

  lemma {:induction false} FailuresCount(verdicts: seq<Verdict>)
    ensures Failures(verdicts) == Count(verdicts, Failed)
  {
    if verdicts != [] {
      var n := |verdicts| - 1;
      FailuresCount(verdicts[..n]);
      assert verdicts == verdicts[..n] + [verdicts[n]];
    }
  }

  // ----------------------------------------------------------- tags by position

  /** The mentions, all of them and in order. */
  ghost predicate ListsMentions(run: seq<Rule>, verdicts: seq<Verdict>, refs: seq<TagRef>, at: seq<Spot>) {
    |at| == |refs| &&
    (forall x :: 0 <= x < |at| ==> Mentions(run, verdicts, at[x]) && refs[x] == Mentioned(run, verdicts, at[x])) &&
    (forall x, y :: 0 <= x < y < |at| ==> Precedes(at[x], at[y])) &&
    forall p :: Mentions(run, verdicts, p) ==> p in at
  }

  function Filled(names: seq<string>): nat -> bool { (k: nat) => k < |names| && TrimSpace(names[k]) != "" }

  /** The names of one action that are not blank, by place. */
  lemma {:induction false} NamedAt(kind: string, names: seq<string>) returns (at: seq<nat>)
    ensures Marks(at, |names|, Filled(names))
    ensures |Named(kind, names)| == |at|
    ensures forall x :: 0 <= x < |at| ==> Named(kind, names)[x] == TagRef(kind, TrimSpace(names[at[x]]))
  {
    hide TrimSpace;
    if names == [] {
      at := [];
    } else {
      var n := |names| - 1;
      var before := NamedAt(kind, names[..n]);
      at := Marked(before, n, TrimSpace(names[n]) != "");
      OneMorePlace(before, n, Filled(names[..n]), Filled(names));
      hide Marks;
      assert forall k :: 0 <= k < |before| ==> names[..n][before[k]] == names[before[k]];
    }
  }

  /** The mentions among the first n actions carried out. */
  ghost predicate MentionsSoFar(run: seq<Rule>, verdicts: seq<Verdict>, at: seq<Place>, n: nat, refs: seq<TagRef>,
                                spots: seq<Spot>) {
    n <= |at| && |spots| == |refs| &&
    (forall x :: 0 <= x < |spots| ==>
       Mentions(run, verdicts, spots[x]) && refs[x] == Mentioned(run, verdicts, spots[x]) &&
       Place(spots[x].rule, spots[x].action) in at[..n]) &&
    (forall x, y :: 0 <= x < y < |spots| ==> Precedes(spots[x], spots[y])) &&
    forall p :: Mentions(run, verdicts, p) && Place(p.rule, p.action) in at[..n] ==> p in spots
  }

  lemma {:induction false} MentionsAt(run: seq<Rule>, verdicts: seq<Verdict>, actions: seq<Action>, at: seq<Place>,
                                      n: nat) returns (spots: seq<Spot>)
    requires Lists(run, verdicts, actions, at) && n <= |actions|
    ensures MentionsSoFar(run, verdicts, at, n, TagRefs(actions[..n]), spots)
  {
    hide TrimSpace;
    if n == 0 {
      spots := [];
    } else {
      var before := MentionsAt(run, verdicts, actions, at, n - 1);
      assert actions[..n][..n - 1] == actions[..n - 1];
      var a, p := actions[n - 1], at[n - 1];
      var more: seq<Spot> := [];
      if a.kind == ACTION_TAG {
        var names := NamedAt(TagKind(a), a.tagNames);
        more := seq(|names|, x requires 0 <= x < |names| => Spot(p.rule, p.action, names[x]));
        OneActionMentions(run, verdicts, p, names, more);
      }
      spots := before + more;
      OneMoreMentioned(run, verdicts, actions, at, n, before, more);
    }
  }

  /** All mentions of one action, in order. */
  ghost predicate MentionsOf(run: seq<Rule>, verdicts: seq<Verdict>, p: Place, refs: seq<TagRef>, more: seq<Spot>) {
    |more| == |refs| &&
    (forall x :: 0 <= x < |more| ==>
       Mentions(run, verdicts, more[x]) && refs[x] == Mentioned(run, verdicts, more[x]) &&
       more[x].rule == p.rule && more[x].action == p.action) &&
    (forall x, y :: 0 <= x < y < |more| ==> more[x].name < more[y].name) &&
    forall q :: Mentions(run, verdicts, q) && q.rule == p.rule && q.action == p.action ==> q in more
  }

  lemma OneActionMentions(run: seq<Rule>, verdicts: seq<Verdict>, p: Place, names: seq<nat>, more: seq<Spot>)
    requires Taken(run, verdicts, p.rule, p.action) && run[p.rule].actions[p.action].kind == ACTION_TAG
    requires var a := run[p.rule].actions[p.action];
             Marks(names, |a.tagNames|, Filled(a.tagNames)) &&
             |Named(TagKind(a), a.tagNames)| == |names| &&
             forall x :: 0 <= x < |names| ==>
               Named(TagKind(a), a.tagNames)[x] == TagRef(TagKind(a), TrimSpace(a.tagNames[names[x]]))
    requires |more| == |names| && forall x :: 0 <= x < |more| ==> more[x] == Spot(p.rule, p.action, names[x])
    ensures var a := run[p.rule].actions[p.action];
            MentionsOf(run, verdicts, p, Named(TagKind(a), a.tagNames), more)
  {
    hide TrimSpace, Named;
    var a := run[p.rule].actions[p.action];
    forall x | 0 <= x < |more| ensures Mentions(run, verdicts, more[x]) { assert names[x] in names; }
    forall q | Mentions(run, verdicts, q) && q.rule == p.rule && q.action == p.action ensures q in more {
      var k: nat := q.name;
      assert k in names;
      var x :| 0 <= x < |names| && names[x] == k;
      assert more[x] == q;
    }
  }

  lemma OneMoreMentioned(run: seq<Rule>, verdicts: seq<Verdict>, actions: seq<Action>, at: seq<Place>, n: nat,
                         before: seq<Spot>, more: seq<Spot>)
    requires Lists(run, verdicts, actions, at) && 0 < n <= |actions|
    requires MentionsSoFar(run, verdicts, at, n - 1, TagRefs(actions[..n - 1]), before)
    requires actions[n - 1].kind != ACTION_TAG ==> more == []
    requires actions[n - 1].kind == ACTION_TAG ==>
               MentionsOf(run, verdicts, at[n - 1], Named(TagKind(actions[n - 1]), actions[n - 1].tagNames), more)
    ensures MentionsSoFar(run, verdicts, at, n, TagRefs(actions[..n]), before + more)
  {
    hide TrimSpace, Named, Mentioned, Lists, Mentions, Precedes, TagRefs, Taken;
    OrderedAt(run, verdicts, actions, at, n - 1);
    RefsSoFar(actions, n);
    assert at[..n] == at[..n - 1] + [at[n - 1]];
    AfterBefore(at, n, before, more);
    forall q | Mentions(run, verdicts, q) && Place(q.rule, q.action) in at[..n] ensures q in before + more {
      if Place(q.rule, q.action) !in at[..n - 1] { MentionsTag(run, verdicts, q); }
    }
  }

  lemma RefsSoFar(actions: seq<Action>, n: nat)
    requires 0 < n <= |actions|
    ensures TagRefs(actions[..n]) == TagRefs(actions[..n - 1]) +
            if actions[n - 1].kind == ACTION_TAG then Named(TagKind(actions[n - 1]), actions[n - 1].tagNames) else []
  {
    hide Named;
    assert actions[..n][..n - 1] == actions[..n - 1];
  }

  lemma MentionsTag(run: seq<Rule>, verdicts: seq<Verdict>, q: Spot)
    requires Mentions(run, verdicts, q)
    ensures Taken(run, verdicts, q.rule, q.action) && run[q.rule].actions[q.action].kind == ACTION_TAG
  {
  }

  /** What is used of the list of places. */
  ghost predicate Ordered(run: seq<Rule>, verdicts: seq<Verdict>, actions: seq<Action>, at: seq<Place>, n: nat) {
    n < |at| == |actions| && Taken(run, verdicts, at[n].rule, at[n].action) &&
    run[at[n].rule].actions[at[n].action] == actions[n] &&
    forall x, y :: 0 <= x < y < |at| ==> Sooner(at[x].rule, at[x].action, at[y].rule, at[y].action)
  }

  lemma OrderedAt(run: seq<Rule>, verdicts: seq<Verdict>, actions: seq<Action>, at: seq<Place>, n: nat)
    requires Lists(run, verdicts, actions, at) && n < |actions|
    ensures Ordered(run, verdicts, actions, at, n)
  {
  }

  lemma AfterBefore(at: seq<Place>, n: nat, before: seq<Spot>, more: seq<Spot>)
    requires 0 < n <= |at|
    requires forall x, y :: 0 <= x < y < |at| ==> Sooner(at[x].rule, at[x].action, at[y].rule, at[y].action)
    requires forall x :: 0 <= x < |before| ==> Place(before[x].rule, before[x].action) in at[..n - 1]
    requires forall x :: 0 <= x < |more| ==> more[x].rule == at[n - 1].rule && more[x].action == at[n - 1].action
    requires forall x, y :: 0 <= x < y < |before| ==> Precedes(before[x], before[y])
    requires forall x, y :: 0 <= x < y < |more| ==> more[x].name < more[y].name
    ensures forall x, y :: 0 <= x < y < |before + more| ==> Precedes((before + more)[x], (before + more)[y])
  {
    forall x, y | 0 <= x < y < |before + more| ensures Precedes((before + more)[x], (before + more)[y]) {
      if x < |before| <= y {
        var z :| 0 <= z < n - 1 && at[..n - 1][z] == Place(before[x].rule, before[x].action);
        assert Sooner(at[z].rule, at[z].action, at[n - 1].rule, at[n - 1].action);
      }
    }
  }

  // -------------------------------------------------------- distinct tags by place

  /** What a list adds to the keys already seen. */
  function DistinctFrom(cs: Casing, seen: set<string>, tags: seq<TagRef>): seq<TagRef> {
    if tags == [] then []
    else
      var before, t := DistinctFrom(cs, seen, tags[..|tags| - 1]), tags[|tags| - 1];
      if SeenKey(cs, t) in seen || SeenKey(cs, t) in Keys(cs, before) then before else before + [t]
  }

  lemma {:induction false} DistinctAfter(cs: Casing, refs: seq<TagRef>, more: seq<TagRef>)
    ensures Distinct(cs, refs + more) == Distinct(cs, refs) + DistinctFrom(cs, Keys(cs, Distinct(cs, refs)), more)
  {
    hide SeenKey, Keys;
    if more == [] {
      assert refs + more == refs;
    } else {
      var n := |more| - 1;
      DistinctAfter(cs, refs, more[..n]);
      assert (refs + more)[..|refs| + n] == refs + more[..n];
      KeysJoin(cs, Distinct(cs, refs), DistinctFrom(cs, Keys(cs, Distinct(cs, refs)), more[..n]));
    }
  }

  lemma KeysJoin(cs: Casing, a: seq<TagRef>, b: seq<TagRef>)
    ensures forall k :: k in Keys(cs, a + b) <==> k in Keys(cs, a) || k in Keys(cs, b)
  {
    hide SeenKey;
    var c := a + b;
    assert forall i :: 0 <= i < |a| ==> c[i] == a[i];
    assert forall i :: 0 <= i < |b| ==> c[|a| + i] == b[i];
    forall k | k in Keys(cs, c) ensures k in Keys(cs, a) || k in Keys(cs, b) {
      var i :| 0 <= i < |c| && SeenKey(cs, c[i]) == k;
      if i >= |a| { assert c[i] == b[i - |a|]; }
    }
  }

  ghost predicate NewAt(cs: Casing, seen: set<string>, tags: seq<TagRef>, x: int) {
    0 <= x < |tags| && SeenKey(cs, tags[x]) !in seen &&
    forall y :: 0 <= y < x ==> SeenKey(cs, tags[y]) != SeenKey(cs, tags[x])
  }

  function NewIn(cs: Casing, seen: set<string>, tags: seq<TagRef>): nat -> bool {
    (x: nat) => x < |tags| && SeenKey(cs, tags[x]) !in seen && SeenKey(cs, tags[x]) !in Keys(cs, tags[..x])
  }

  lemma {:induction false} DistinctKeys(cs: Casing, seen: set<string>, tags: seq<TagRef>)
    ensures Keys(cs, DistinctFrom(cs, seen, tags)) == Keys(cs, tags) - seen
  {
    hide SeenKey;
    if tags != [] {
      var n := |tags| - 1;
      DistinctKeys(cs, seen, tags[..n]);
      assert tags == tags[..n] + [tags[n]];
      KeysGrow(cs, tags[..n], tags[n]);
      KeysGrow(cs, DistinctFrom(cs, seen, tags[..n]), tags[n]);
    }
  }

  lemma {:induction false} DistinctAt(cs: Casing, seen: set<string>, tags: seq<TagRef>) returns (at: seq<nat>)
    ensures Marks(at, |tags|, NewIn(cs, seen, tags)) && |DistinctFrom(cs, seen, tags)| == |at|
    ensures forall x :: 0 <= x < |at| ==> DistinctFrom(cs, seen, tags)[x] == tags[at[x]]
  {
    hide SeenKey, Keys;
    if tags == [] {
      at := [];
    } else {
      var n := |tags| - 1;
      var before := DistinctAt(cs, seen, tags[..n]);
      DistinctKeys(cs, seen, tags[..n]);
      assert forall x: nat :: x < n ==> tags[..n][x] == tags[x] && tags[..n][..x] == tags[..x];
      OneMorePlace(before, n, NewIn(cs, seen, tags[..n]), NewIn(cs, seen, tags));
      at := Marked(before, n, NewIn(cs, seen, tags)(n));
      hide Marks;
      assert forall x :: 0 <= x < |before| ==> tags[..n][before[x]] == tags[before[x]];
    }
  }

  lemma NewInIs(cs: Casing, seen: set<string>, tags: seq<TagRef>, x: nat)
    ensures NewIn(cs, seen, tags)(x) <==> NewAt(cs, seen, tags, x)
  {
    hide SeenKey;
    if x < |tags| {
      assert forall y :: 0 <= y < x ==> tags[..x][y] == tags[y];
    }
  }

  function Chosen(at: seq<Spot>, kept: seq<nat>): (spots: seq<Spot>)
    requires forall x :: 0 <= x < |kept| ==> kept[x] < |at|
    ensures |spots| == |kept| && forall x :: 0 <= x < |kept| ==> spots[x] == at[kept[x]]
  {
    seq(|kept|, x requires 0 <= x < |kept| => at[kept[x]])
  }

  lemma ChosenFirst(cs: Casing, run: seq<Rule>, verdicts: seq<Verdict>, seen: set<string>, refs: seq<TagRef>,
                    at: seq<Spot>, kept: seq<nat>, x: nat)
    requires ListsMentions(run, verdicts, refs, at) && Marks(kept, |refs|, NewIn(cs, seen, refs)) && x < |kept|
    ensures FirstMention(cs, run, verdicts, seen, at[kept[x]])
  {
    hide ListsMentions, FirstMention, NewIn, NewAt;
    assert kept[x] in kept;
    NewInIs(cs, seen, refs, kept[x]);
    PlaceIsFirst(cs, run, verdicts, seen, refs, at, kept[x]);
  }

  lemma FirstChosen(cs: Casing, run: seq<Rule>, verdicts: seq<Verdict>, seen: set<string>, refs: seq<TagRef>,
                    at: seq<Spot>, kept: seq<nat>, p: Spot) returns (x: nat)
    requires ListsMentions(run, verdicts, refs, at) && Marks(kept, |refs|, NewIn(cs, seen, refs))
    requires FirstMention(cs, run, verdicts, seen, p)
    ensures x < |kept| && at[kept[x]] == p
  {
    FirstIsMention(cs, run, verdicts, seen, p);
    hide FirstMention, NewIn, NewAt, Mentions, Mentioned, Precedes;
    var y :| 0 <= y < |at| && at[y] == p;
    PlaceIsFirst(cs, run, verdicts, seen, refs, at, y);
    NewInIs(cs, seen, refs, y);
    assert y in kept;
    x :| 0 <= x < |kept| && kept[x] == y;
  }

  lemma TagsExactly(cs: Casing, run: seq<Rule>, verdicts: seq<Verdict>, seen: set<string>, refs: seq<TagRef>,
                    at: seq<Spot>)
    requires ListsMentions(run, verdicts, refs, at)
    ensures TagsAre(cs, run, verdicts, seen, DistinctFrom(cs, seen, refs))
  {
    hide DistinctFrom, Mentions, Mentioned, Precedes, NewIn, FirstMention;
    var kept := DistinctAt(cs, seen, refs);
    var spots := Chosen(at, kept);
    forall x | 0 <= x < |spots| ensures FirstMention(cs, run, verdicts, seen, spots[x]) {
      ChosenFirst(cs, run, verdicts, seen, refs, at, kept, x);
    }
    forall p | FirstMention(cs, run, verdicts, seen, p) ensures p in spots {
      var x := FirstChosen(cs, run, verdicts, seen, refs, at, kept, p);
      assert spots[x] == p;
    }
    hide Chosen;
  }

  lemma FirstIsMention(cs: Casing, run: seq<Rule>, verdicts: seq<Verdict>, seen: set<string>, p: Spot)
    requires FirstMention(cs, run, verdicts, seen, p)
    ensures Mentions(run, verdicts, p)
  {
  }

  /** A place is new in the list exactly when its mention is a first one. */
  lemma PlaceIsFirst(cs: Casing, run: seq<Rule>, verdicts: seq<Verdict>, seen: set<string>, refs: seq<TagRef>,
                     at: seq<Spot>, x: nat)
    requires ListsMentions(run, verdicts, refs, at) && x < |refs|
    ensures NewAt(cs, seen, refs, x) <==> FirstMention(cs, run, verdicts, seen, at[x])
  {
    hide SeenKey, Mentions, Mentioned;
    if NewAt(cs, seen, refs, x) {
      forall q | Mentions(run, verdicts, q) && Precedes(q, at[x])
        ensures SeenKey(cs, Mentioned(run, verdicts, q)) != SeenKey(cs, Mentioned(run, verdicts, at[x]))
      {
        var y :| 0 <= y < |at| && at[y] == q;
        InOrder(at, y, x);
      }
    } else if y :| 0 <= y < x && SeenKey(cs, refs[y]) == SeenKey(cs, refs[x]) {
      assert Precedes(at[y], at[x]);
    }
  }

  lemma InOrder(at: seq<Spot>, y: nat, x: nat)
    requires y < |at| && x < |at| && forall p, q :: 0 <= p < q < |at| ==> Precedes(at[p], at[q])
    ensures y < x || !Precedes(at[y], at[x])
  {
    if x < y { assert Precedes(at[x], at[y]); }
  }

  lemma TagsOfActions(cs: Casing, run: seq<Rule>, verdicts: seq<Verdict>, actions: seq<Action>, at: seq<Place>,
                      seen: set<string>)
    requires Lists(run, verdicts, actions, at)
    ensures TagsAre(cs, run, verdicts, seen, DistinctFrom(cs, seen, TagRefs(actions)))
  {
    hide Mentions, Mentioned, Precedes;
    var spots := MentionsAt(run, verdicts, actions, at, |actions|);
    assert actions[..|actions|] == actions && at[..|at|] == at;
    forall p | Mentions(run, verdicts, p) ensures p in spots {
      assert Taken(run, verdicts, p.rule, p.action) by { MentionTaken(run, verdicts, p); }
    }
    TagsExactly(cs, run, verdicts, seen, TagRefs(actions), spots);
  }

  lemma MentionTaken(run: seq<Rule>, verdicts: seq<Verdict>, p: Spot)
    requires Mentions(run, verdicts, p)
    ensures Taken(run, verdicts, p.rule, p.action)
  {
  }

  // ------------------------------------------------------------- the declaration

  lemma MatchedExactly(run: seq<Rule>, verdicts: seq<Verdict>)
    requires |run| == |verdicts|
    ensures MatchedAre(run, verdicts, IdsOf(MatchedRules(run, verdicts)), NamesOf(MatchedRules(run, verdicts)))
  {
    var at := MatchedAt(run, verdicts);
    IdsAndNames(MatchedRules(run, verdicts));
    hide Marks, IdsOf, NamesOf, MatchedRules;
  }

  /** The declared decision says what the rules say. */
  lemma DeclaredDecides(cs: Casing, run: seq<Rule>, verdicts: seq<Verdict>)
    requires |run| == |verdicts|
    ensures Decides(cs, run, verdicts,
                    Declared(cs, MatchedRules(run, verdicts), Actions(run, verdicts), Failures(verdicts)))
  {
    hide Lists, FirstSet, MatchedAre, TagsAre, Drops, First, Distinct, DistinctFrom, TagRefs, Actions, MatchedRules,
      Failures, Count, IdsOf, NamesOf, Taken;
    var actions := Actions(run, verdicts);
    var at := ActionsAt(run, verdicts);
    DropsExactly(run, verdicts, actions, at);
    FirstExactly(run, verdicts, actions, at, ACTION_ASSIGN, AssigneeOf);
    FirstExactly(run, verdicts, actions, at, ACTION_STATUS, StatusOf);
    FirstExactly(run, verdicts, actions, at, ACTION_PRIORITY, PriorityOf);
    MatchedExactly(run, verdicts);
    FailuresCount(verdicts);
    TagsOfActions(cs, run, verdicts, actions, at, {});
    NothingBefore(cs, TagRefs(actions));
  }

  lemma NothingBefore(cs: Casing, refs: seq<TagRef>)
    ensures Distinct(cs, refs) == DistinctFrom(cs, {}, refs)
  {
    DistinctAfter(cs, [], refs);
    assert [] + refs == refs;
  }

  // ------------------------------------------------------------ one more rule

  lemma {:induction false} FirstJoins(actions: seq<Action>, more: seq<Action>, kind: string, value: Action -> string)
    ensures First(actions + more, kind, value) ==
            if First(actions, kind, value) != "" then First(actions, kind, value) else First(more, kind, value)
  {
    if more == [] {
      assert actions + more == actions;
    } else {
      var n := |more| - 1;
      FirstJoins(actions, more[..n], kind, value);
      assert (actions + more)[..|actions| + n] == actions + more[..n];
    }
  }

  lemma {:induction false} TagRefsJoin(actions: seq<Action>, more: seq<Action>)
    ensures TagRefs(actions + more) == TagRefs(actions) + TagRefs(more)
  {
    hide Named;
    if more == [] {
      assert actions + more == actions;
    } else {
      var n := |more| - 1;
      var all := actions + more;
      TagRefsJoin(actions, more[..n]);
      assert all[..|actions| + n] == actions + more[..n] && all[|actions| + n] == more[n];
      RefsSoFar(all, |all|);
      RefsSoFar(more, |more|);
      assert all[..|all|] == all && more[..|more|] == more;
      hide TagRefs;
    }
  }

  lemma DropsJoin(actions: seq<Action>, more: seq<Action>)
    ensures Drops(actions + more) <==> Drops(actions) || exists j :: 0 <= j < |more| && more[j].kind == "drop"
  {
    var all := actions + more;
    assert forall i :: 0 <= i < |actions| ==> all[i] == actions[i];
    assert forall j :: 0 <= j < |more| ==> all[|actions| + j] == more[j];
    if Drops(all) {
      var i :| 0 <= i < |all| && all[i].kind == ACTION_DROP;
      if i >= |actions| { assert more[i - |actions|].kind == ACTION_DROP; }
    }
  }

  lemma OneRuleAt(r: Rule) returns (at: seq<Place>)
    ensures Lists([r], [Matched], r.actions, at)
  {
    at := ActionsAt([r], [Matched]);
    assert [r][..0] == [] && [Matched][..0] == [];
    assert Actions([], []) == [];
    assert Actions([r], [Matched]) == r.actions;
  }

  /** Declaring a rule's actions after the earlier ones is merging it. */
  lemma MergeMeans(cs: Casing, matched: seq<Rule>, actions: seq<Action>, r: Rule, errors: nat)
    ensures Merges(cs, Declared(cs, matched, actions, errors), r,
                   Declared(cs, matched + [r], actions + r.actions, errors))
  {
    hide Lists, FirstSet, TagsAre, Drops, First, Distinct, DistinctFrom, TagRefs, Keys;
    assert (matched + [r])[..|matched|] == matched;
    var at := OneRuleAt(r);
    DropsJoin(actions, r.actions);
    FirstJoins(actions, r.actions, ACTION_ASSIGN, AssigneeOf);
    FirstJoins(actions, r.actions, ACTION_STATUS, StatusOf);
    FirstJoins(actions, r.actions, ACTION_PRIORITY, PriorityOf);
    FirstExactly([r], [Matched], r.actions, at, ACTION_ASSIGN, AssigneeOf);
    FirstExactly([r], [Matched], r.actions, at, ACTION_STATUS, StatusOf);
    FirstExactly([r], [Matched], r.actions, at, ACTION_PRIORITY, PriorityOf);
    TagRefsJoin(actions, r.actions);
    DistinctAfter(cs, TagRefs(actions), TagRefs(r.actions));
    TagsOfActions(cs, [r], [Matched], r.actions, at, Keys(cs, Distinct(cs, TagRefs(actions))));
  }
}
