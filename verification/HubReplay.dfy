/** What a replay gives a reconnecting reader that does not read meanwhile (internal/stream/hub.go, replay and push). */
module HubReplay {
  import opened Stream
  import opened Hub
  import opened HubDelivery
  import opened HubTargets

  ghost predicate Increasing(ms: seq<Msg>) {
    (forall i :: 0 <= i < |ms| ==> ms[i].id != "") && forall i, j :: 0 <= i < j < |ms| ==> Less(ms[i].id, ms[j].id)
  }

  lemma {:induction false} MatchingBelow(es: seq<Entry>, user: string, id: string)
    requires forall j :: 0 <= j < |es| ==> es[j].id != "" && Less(es[j].id, id)
    ensures forall i :: 0 <= i < |Matching(es, user)| ==>
              Matching(es, user)[i].id != "" && Less(Matching(es, user)[i].id, id)
  {
    hide Less, Targets;
    if es != [] { MatchingBelow(es[..|es| - 1], user, id); }
  }

  /** What a user is owed of a stream in order is in order. */
  lemma {:induction false} MatchingIncreases(es: seq<Entry>, user: string)
    requires Sorted(es)
    ensures Increasing(Matching(es, user))
  {
    hide Less, Targets;
    if es != [] {
      var n := |es| - 1;
      MatchingIncreases(es[..n], user);
      MatchingBelow(es[..n], user, es[n].id);
    }
  }

  function Min(a: int, b: int): int { if a < b then a else b }

  /** k steps of one replay with nothing in between. */
  function Replays(cfg: Config, h: State, s: nat, k: nat): State {
    if k == 0 then h else Next(cfg, Replays(cfg, h, s, k - 1), ReplayNext(s))
  }

  /** A connection that was just opened. */
  predicate Fresh(sub: Sub) { !sub.closed && sub.last == "" && sub.queued == 0 && sub.sent == [] }

  /** After k messages the first of them are queued, as many as the buffer holds, and `last` has passed all k. */
  ghost predicate Reached(a: Sub, b: Sub, k: nat) {
    k <= |a.todo| && !b.closed && b.todo == a.todo[k..] && b.queued == Min(k, CONN_BUFFER) &&
    b.sent == a.todo[..Min(k, CONN_BUFFER)] && b.last == if k == 0 then "" else a.todo[k - 1].id
  }

  lemma OneMore(a: Sub, b: Sub, k: nat)
    requires Increasing(a.todo) && Reached(a, b, k) && k < |a.todo|
    ensures b.todo != [] && b.todo[0] == a.todo[k] && Reached(a, Pushed(b.(todo := b.todo[1..]), b.todo[0]).0, k + 1)
  {
    hide Less;
    if k < CONN_BUFFER { assert a.todo[..k + 1] == a.todo[..k] + [a.todo[k]]; }
  }

  lemma {:induction false} ReplayReaches(cfg: Config, h: State, s: nat, k: nat)
    requires s < |h.subs| && Fresh(h.subs[s]) && Increasing(h.subs[s].todo) && k <= |h.subs[s].todo|
    ensures s < |Replays(cfg, h, s, k).subs| && Reached(h.subs[s], Replays(cfg, h, s, k).subs[s], k)
  {
    hide Pushed, Increasing;
    if k > 0 {
      ReplayReaches(cfg, h, s, k - 1);
      OneMore(h.subs[s], Replays(cfg, h, s, k - 1).subs[s], k - 1);
    }
  }

  /** The user's share of the first entries of the tenant's stream after the last id, up to the length limit. */
  ghost predicate OwedFrom(cfg: Config, h: State, sub: Sub, owed: seq<Msg>) {
    var es := StreamOf(h, sub.tenant);
    exists all, part ::
      Picks(es, all, Later(es, sub.lastId)) && part <= all &&
      |part| == (if 0 < cfg.maxLen < |all| then cfg.maxLen else |all|) && OwedOf(part, sub.user, owed)
  }

  lemma OwedExactly(cfg: Config, h: State, sub: Sub)
    ensures OwedFrom(cfg, h, sub, Owed(cfg, h, sub))
  {
    var es := StreamOf(h, sub.tenant);
    PicksExactly(es, sub.lastId);
    var all := After(es, sub.lastId);
    MatchingExactly(First(all, cfg.maxLen), sub.user);
    hide Picks, OwedOf, After, Matching;
  }

  lemma OwedIncreases(cfg: Config, h: State, sub: Sub)
    requires StreamsSorted(h)
    ensures Increasing(Owed(cfg, h, sub))
  {
    hide Less, Matching, After, Ids;
    NoneSorted(h.seen, h.count);
    var es := StreamOf(h, sub.tenant);
    assert Sorted(es);
    AfterSorted(es, sub.lastId);
    MatchingIncreases(First(After(es, sub.lastId), cfg.maxLen), sub.user);
  }

  /**
   * A replay that nothing interrupts, to a reader that takes nothing meanwhile, hands over the first messages owed, as
   * many as the buffer holds. It is complete if and only if the buffer holds them all; the others are lost, because
   * the connection already counts them as given and refuses them from then on.
   */
  lemma ReplayExactly(cfg: Config, h: State, s: nat)
    requires StreamsSorted(h) && s < |h.subs| && Fresh(h.subs[s]) && h.subs[s].lastId != "" && h.subs[s].todo == []
    ensures var owed := Owed(cfg, h, h.subs[s]);
            var h' := Replays(cfg, Next(cfg, h, BeginReplay(s, "")), s, |owed|);
            s < |h'.subs| &&
            var sub := h'.subs[s];
            sub.todo == [] && sub.sent == owed[..Min(|owed|, CONN_BUFFER)] &&
            (sub.sent == owed <==> |owed| <= CONN_BUFFER) && OwedFrom(cfg, h, h.subs[s], owed) &&
            forall i :: CONN_BUFFER <= i < |owed| ==> owed[i] !in sub.sent && Pushed(sub, owed[i]) == (sub, true)
  {
    hide Less, Matching, After, First, StreamsSorted, OwedFrom;
    var sub := h.subs[s];
    OwedExactly(cfg, h, sub);
    var owed := Owed(cfg, h, sub);
    OwedIncreases(cfg, h, sub);
    var h1 := Next(cfg, h, BeginReplay(s, ""));
    assert h1.subs[s] == sub.(todo := owed);
    hide Next, Owed;
    ReplayReaches(cfg, h1, s, |owed|);
    var done := Replays(cfg, h1, s, |owed|).subs[s];
    forall i | CONN_BUFFER <= i < |owed| ensures owed[i] !in done.sent && Pushed(done, owed[i]) == (done, true) {
      LessIsStrict(owed[i].id, owed[|owed| - 1].id, owed[i].id);
      forall j | 0 <= j < CONN_BUFFER ensures owed[j] != owed[i] { LessIsStrict(owed[j].id, owed[i].id, owed[j].id); }
    }
  }
}
