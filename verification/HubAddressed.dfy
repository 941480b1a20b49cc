/**
 * Who is given what, over every run: a connection is only ever given what was published in its tenant to its user, and
 * what is published while it is open arrives (internal/stream/hub.go).
 */
module HubAddressed {
  import opened Stream
  import opened Hub
  import opened HubTargets
  import opened HubBooks
  import D = HubDelivery
  import C = HubComplete

  /** What an append posts. */
  datatype Post = Post(tenant: string, entry: Entry)

  function PostOf(h: State, ev: Event): Post
    requires ev.Append?
  {
    Post(ev.tenant, Entry(Id(ev.now, h.count + 1), ev.to, ev.kind, ev.data))
  }

  function PostsOf(h: State, ev: Event): set<Post> { if ev.Append? then {PostOf(h, ev)} else {} }

  /** Everything posted in the first n steps. */
  function Posted(states: seq<State>, events: seq<Event>, n: nat): set<Post>
    requires n <= |events| && |states| == |events| + 1
  {
    if n == 0 then {} else Posted(states, events, n - 1) + PostsOf(states[n - 1], events[n - 1])
  }

  lemma {:induction false} PostedAt(states: seq<State>, events: seq<Event>, n: nat, p: Post)
    requires n <= |events| && |states| == |events| + 1 && p in Posted(states, events, n)
    ensures exists k :: 0 <= k < n && events[k].Append? && p == PostOf(states[k], events[k])
  {
    if p !in PostsOf(states[n - 1], events[n - 1]) { PostedAt(states, events, n - 1, p); }
  }

  // ------------------------------------------------------------------- the invariant

  ghost predicate From(es: seq<Entry>, tenant: string, posts: set<Post>) {
    forall i :: 0 <= i < |es| ==> Post(tenant, es[i]) in posts
  }

  /** A message is a reset, or an entry of the tenant that is addressed to the user. */
  ghost predicate Due(m: Msg, tenant: string, user: string, posts: set<Post>) {
    (m.id == "" && m.kind == "reset") ||
    exists e :: Post(tenant, e) in posts && Addressed(e.to, user) && m == Msg(e.id, e.kind, e.data)
  }

  ghost predicate AllDue(ms: seq<Msg>, tenant: string, user: string, posts: set<Post>) {
    forall i :: 0 <= i < |ms| ==> Due(ms[i], tenant, user, posts)
  }

  ghost predicate SubDue(sub: Sub, posts: set<Post>) {
    AllDue(sub.sent, sub.tenant, sub.user, posts) && AllDue(sub.todo, sub.tenant, sub.user, posts)
  }

  /** The connections still to be pushed the last dispatched entry are addressed by it. */
  ghost predicate PendingDue(subs: seq<Sub>, t: Gen) {
    forall s :: s in t.pending ==> s < |subs| && t.log != [] && subs[s].tenant == t.tenant &&
                                   Addressed(t.log[|t.log| - 1].to, subs[s].user)
  }

  ghost predicate GenFrom(t: Gen, posts: set<Post>) {
    From(t.log, t.tenant, posts) && From(t.batch, t.tenant, posts)
  }

  ghost predicate Known(h: State, posts: set<Post>) {
    (forall t :: t in h.streams ==> From(h.streams[t], t, posts)) &&
    (forall g :: 0 <= g < |h.gens| ==> GenFrom(h.gens[g], posts) && PendingDue(h.subs, h.gens[g])) &&
    forall s :: 0 <= s < |h.subs| ==> SubDue(h.subs[s], posts)
  }

  // --------------------------------------------------------------------- subsequences

  lemma {:induction false} AfterFrom(es: seq<Entry>, id: string, tenant: string, posts: set<Post>)
    requires From(es, tenant, posts)
    ensures From(After(es, id), tenant, posts)
  {
    hide Less;
    if es != [] { AfterFrom(es[..|es| - 1], id, tenant, posts); }
  }

  lemma {:induction false} KeptFrom(es: seq<Entry>, id: string, tenant: string, posts: set<Post>)
    requires From(es, tenant, posts)
    ensures From(Kept(es, id), tenant, posts)
  {
    hide Less;
    if es != [] { KeptFrom(es[..|es| - 1], id, tenant, posts); }
  }

  lemma {:induction false} MatchingDue(es: seq<Entry>, tenant: string, user: string, posts: set<Post>)
    requires From(es, tenant, posts)
    ensures AllDue(Matching(es, user), tenant, user, posts)
  {
    hide Targets, Addressed;
    if es != [] {
      var n := |es| - 1;
      MatchingDue(es[..n], tenant, user, posts);
      TargetsExactly(es[n].to, user);
    }
  }

  lemma OwedDue(cfg: Config, h: State, sub: Sub, posts: set<Post>)
    requires Known(h, posts)
    ensures AllDue(Owed(cfg, h, sub), sub.tenant, sub.user, posts)
  {
    hide Matching, After, AllDue;
    AfterFrom(StreamOf(h, sub.tenant), sub.lastId, sub.tenant, posts);
    MatchingDue(First(After(StreamOf(h, sub.tenant), sub.lastId), cfg.maxLen), sub.tenant, sub.user, posts);
  }

  // --------------------------------------------------------------------------- steps

  lemma MorePosts(h: State, posts: set<Post>, more: set<Post>)
    requires Known(h, posts) && posts <= more
    ensures Known(h, more)
  {
    hide Addressed;
    forall s | 0 <= s < |h.subs| ensures SubDue(h.subs[s], more) { MoreDue(h.subs[s], posts, more); }
    hide Due, AllDue, SubDue;
  }

  lemma MoreDue(sub: Sub, posts: set<Post>, more: set<Post>)
    requires SubDue(sub, posts) && posts <= more
    ensures SubDue(sub, more)
  {
    hide Addressed;
    forall m: Msg | Due(m, sub.tenant, sub.user, posts) ensures Due(m, sub.tenant, sub.user, more) {}
  }

  lemma AppendKnown(cfg: Config, h: State, ev: Event, posts: set<Post>)
    requires ev.Append? && Known(h, posts)
    ensures Known(Next(cfg, h, ev), posts + PostsOf(h, ev))
  {
    hide SubDue, PendingDue, Id;
    MorePosts(h, posts, posts + PostsOf(h, ev));
  }

  lemma TrimKnown(cfg: Config, h: State, ev: Event, posts: set<Post>)
    requires ev.Trim? && Known(h, posts)
    ensures Known(Next(cfg, h, ev), posts)
  {
    hide SubDue, PendingDue, Kept;
    KeptFrom(StreamOf(h, ev.tenant), ev.minId, ev.tenant, posts);
  }

  /** A connection with the same identity that is still owed what it is owed. */
  lemma OneSubKnown(h: State, s: nat, sub: Sub, posts: set<Post>)
    requires Known(h, posts) && s < |h.subs| && SubDue(sub, posts)
    requires sub.tenant == h.subs[s].tenant && sub.user == h.subs[s].user
    ensures Known(SetSub(h, s, sub), posts)
  {
    hide SubDue, GenFrom, Addressed;
  }

  lemma PushedDue(sub: Sub, m: Msg, posts: set<Post>)
    requires SubDue(sub, posts) && Due(m, sub.tenant, sub.user, posts)
    ensures var p := Pushed(sub, m).0; SubDue(p, posts) && p.tenant == sub.tenant && p.user == sub.user
  {
    hide Due, Less;
  }

  lemma ReplayKnown(cfg: Config, h: State, ev: Event, posts: set<Post>)
    requires (ev.BeginReplay? || ev.ReplayNext? || ev.Take?) && Known(h, posts)
    ensures Known(Next(cfg, h, ev), posts)
  {
    hide Owed, Pushed, Known, Due;
    var h', s := Next(cfg, h, ev), ev.s;
    if h' != h {
      var sub := h.subs[s];
      SubIsDue(h, s, posts);
      match ev {
        case BeginReplay(_, reset) =>
          OwedDue(cfg, h, sub, posts);
          ResetDue(reset, sub, posts);
        case ReplayNext(_) => PushedDue(sub.(todo := sub.todo[1..]), sub.todo[0], posts);
        case Take(_) =>
      }
      OneSubKnown(h, s, h'.subs[s], posts);
    }
  }

  lemma SubIsDue(h: State, s: nat, posts: set<Post>)
    requires Known(h, posts) && s < |h.subs|
    ensures SubDue(h.subs[s], posts)
  {
  }

  lemma ResetDue(reason: string, sub: Sub, posts: set<Post>)
    ensures Due(Msg("", RESET, reason), sub.tenant, sub.user, posts)
  {
  }

  /** A loop that changes what it reads, not whom it still pushes. */
  lemma OneGenKnown(h: State, g: nat, t: Gen, posts: set<Post>)
    requires Known(h, posts) && g < |h.gens| && GenFrom(t, posts) && PendingDue(h.subs, t)
    ensures Known(SetGen(h, g, t), posts)
  {
    hide SubDue, GenFrom, Addressed;
  }

  lemma ReadKnown(cfg: Config, h: State, ev: Event, posts: set<Post>)
    requires ev.Read? && Known(h, posts)
    ensures Known(Next(cfg, h, ev), posts)
  {
    hide After, SubDue, Addressed;
    var h' := Next(cfg, h, ev);
    if h' != h {
      var t := h.gens[ev.g];
      AfterFrom(StreamOf(h, t.tenant), t.last, t.tenant, posts);
      OneGenKnown(h, ev.g, h'.gens[ev.g], posts);
    }
  }

  lemma DispatchKnown(cfg: Config, h: State, ev: Event, posts: set<Post>)
    requires ev.Dispatch? && Known(h, posts) && Books(cfg, h)
    ensures Known(Next(cfg, h, ev), posts)
  {
    hide SubDue, Targets, Addressed, Counted, Registered;
    var h' := Next(cfg, h, ev);
    if h' != h {
      var t, t' := h.gens[ev.g], h'.gens[ev.g];
      var e := t.batch[0];
      assert Post(t.tenant, e) in posts;
      forall s | s in t'.pending
        ensures s < |h.subs| && h.subs[s].tenant == t.tenant && Addressed(e.to, h.subs[s].user)
      {
        TargetsExactly(e.to, h.subs[s].user);
        assert Holds(h.subs, ev.g, t.conns);
      }
      assert t'.log[|t'.log| - 1] == e;
      OneGenKnown(h, ev.g, t', posts);
    }
  }

  lemma PushKnown(cfg: Config, h: State, ev: Event, posts: set<Post>)
    requires ev.Push? && Known(h, posts)
    ensures Known(Next(cfg, h, ev), posts)
  {
    hide Pushed, Addressed, SubDue;
    var h', s := Next(cfg, h, ev), ev.s;
    if h' != h {
      var t, sub := h.gens[ev.g], h.subs[s];
      var e := t.log[|t.log| - 1];
      assert Post(t.tenant, e) in posts && Addressed(e.to, sub.user);
      assert Due(MsgOf(e), sub.tenant, sub.user, posts);
      PushedDue(sub, MsgOf(e), posts);
      OneGenKnown(h, ev.g, h'.gens[ev.g], posts);
      OneSubKnown(SetGen(h, ev.g, h'.gens[ev.g]), s, h'.subs[s], posts);
    }
  }

  /** What closing leaves alone. */
  ghost predicate SameTalk(h: State, h': State) {
    h'.streams == h.streams && |h'.gens| == |h.gens| && |h'.subs| == |h.subs| &&
    (forall g :: 0 <= g < |h.gens| ==>
       h'.gens[g].tenant == h.gens[g].tenant && h'.gens[g].log == h.gens[g].log &&
       h'.gens[g].batch == h.gens[g].batch && h'.gens[g].pending == h.gens[g].pending) &&
    forall s :: 0 <= s < |h.subs| ==>
      h'.subs[s].tenant == h.subs[s].tenant && h'.subs[s].user == h.subs[s].user &&
      h'.subs[s].sent == h.subs[s].sent && h'.subs[s].todo == h.subs[s].todo
  }

  lemma SameTalkKnown(h: State, h': State, posts: set<Post>)
    requires Known(h, posts) && SameTalk(h, h')
    ensures Known(h', posts)
  {
    hide AllDue, From, Addressed;
  }

  lemma ClosedTalk(h: State, s: nat)
    ensures SameTalk(h, Closed(h, s))
  {
    hide CountOf;
  }

  lemma CloseKnown(cfg: Config, h: State, ev: Event, posts: set<Post>)
    requires (ev.Close? || ev.CloseNext? || ev.CloseStalled?) && Known(h, posts)
    ensures Known(Next(cfg, h, ev), posts)
  {
    hide Closed, Known;
    ClosedTalk(h, ev.s);
    SameTalkKnown(h, Next(cfg, h, ev), posts);
  }

  lemma SubscribeKnown(cfg: Config, h: State, ev: Event, posts: set<Post>)
    requires ev.Subscribe? && Known(h, posts)
    ensures Known(Next(cfg, h, ev), posts)
  {
    hide CountOf, Refused, Due, From, Addressed;
    var h' := Next(cfg, h, ev);
    assert h'.streams == h.streams && h.subs <= h'.subs && |h.gens| <= |h'.gens|;
    forall s | 0 <= s < |h'.subs| ensures SubDue(h'.subs[s], posts) {
      if s < |h.subs| {
        assert h'.subs[s] == h.subs[s];
      } else {
        assert h'.subs[s].sent == [] && h'.subs[s].todo == [];
      }
    }
    forall g | 0 <= g < |h'.gens| ensures GenFrom(h'.gens[g], posts) && PendingDue(h'.subs, h'.gens[g]) {
      if g < |h.gens| { LoopStays(h, h', g, posts); } else { NewLoop(h'.subs, h'.gens[g], posts); }
    }
  }

  lemma LoopStays(h: State, h': State, g: nat, posts: set<Post>)
    requires Known(h, posts) && g < |h.gens| && g < |h'.gens| && h.subs <= h'.subs
    requires h'.gens[g] == h.gens[g].(conns := h'.gens[g].conns, byUser := h'.gens[g].byUser)
    ensures GenFrom(h'.gens[g], posts) && PendingDue(h'.subs, h'.gens[g])
  {
    hide Addressed, SubDue;
    assert PendingDue(h.subs, h.gens[g]) && GenFrom(h.gens[g], posts);
    forall s | s in h'.gens[g].pending ensures h'.subs[s] == h.subs[s] {}
  }

  lemma NewLoop(subs: seq<Sub>, t: Gen, posts: set<Post>)
    requires t.log == [] && t.batch == [] && t.pending == {}
    ensures GenFrom(t, posts) && PendingDue(subs, t)
  {
  }

  lemma NextKnown(cfg: Config, h: State, ev: Event, posts: set<Post>)
    requires Known(h, posts) && Books(cfg, h)
    ensures Known(Next(cfg, h, ev), posts + PostsOf(h, ev))
  {
    hide Known, Books, Next, PostOf;
    if !ev.Append? { assert posts + PostsOf(h, ev) == posts; }
    match ev
    case Append(_, _, _, _, _) => AppendKnown(cfg, h, ev, posts);
    case Trim(_, _) => TrimKnown(cfg, h, ev, posts);
    case Subscribe(_, _, _, _) => SubscribeKnown(cfg, h, ev, posts);
    case BeginReplay(_, _) => ReplayKnown(cfg, h, ev, posts);
    case ReplayNext(_) => ReplayKnown(cfg, h, ev, posts);
    case Take(_) => ReplayKnown(cfg, h, ev, posts);
    case Read(_, _) => ReadKnown(cfg, h, ev, posts);
    case Dispatch(_) => DispatchKnown(cfg, h, ev, posts);
    case Push(_, _) => PushKnown(cfg, h, ev, posts);
    case Cancel => CancelKnown(cfg, h, ev, posts);
    case Collect => CancelKnown(cfg, h, ev, posts);
    case _ => CloseKnown(cfg, h, ev, posts);
  }

  lemma CancelKnown(cfg: Config, h: State, ev: Event, posts: set<Post>)
    requires (ev.Cancel? || ev.Collect?) && Known(h, posts)
    ensures Known(Next(cfg, h, ev), posts)
  {
    hide Known, Open;
    SameTalkKnown(h, Next(cfg, h, ev), posts);
  }

  // ---------------------------------------------------------------------- every run

  lemma {:induction false} KnownHolds(cfg: Config, states: seq<State>, events: seq<Event>, n: nat)
    requires Usable(cfg) && IsRun(cfg, states, events) && n <= |events|
    ensures Known(states[n], Posted(states, events, n))
  {
    hide Next, Books, PostsOf;
    if n > 0 {
      hide Known;
      KnownHolds(cfg, states, events, n - 1);
      BooksHold(cfg, states, events, n - 1);
      assert states[n - 1 + 1] == Next(cfg, states[n - 1], events[n - 1]);
      NextKnown(cfg, states[n - 1], events[n - 1], Posted(states, events, n - 1));
    }
  }

  /** The step that posted a message for a user of a tenant. */
  ghost predicate PostedFor(states: seq<State>, events: seq<Event>, k: int, tenant: string, user: string, m: Msg) {
    0 <= k < |events| && k < |states| && events[k].Append? && events[k].tenant == tenant &&
    Addressed(events[k].to, user) && m.id == Id(events[k].now, states[k].count + 1) && m.kind == events[k].kind &&
    m.data == events[k].data
  }

  /**
   * Over every run: whatever a connection has been given, resets aside, was published earlier in its own tenant, to
   * everyone or to its user by name, and is given as it was published.
   */
  lemma AddressedOnly(cfg: Config, states: seq<State>, events: seq<Event>, n: nat, s: nat, i: nat)
    requires Usable(cfg) && IsRun(cfg, states, events) && n <= |events|
    requires s < |states[n].subs| && i < |states[n].subs[s].sent|
    ensures var sub := states[n].subs[s];
            var m := sub.sent[i];
            (m.id == "" && m.kind == "reset") ||
            exists k :: 0 <= k < n && PostedFor(states, events, k, sub.tenant, sub.user, m)
  {
    hide Next, Addressed, Id;
    KnownHolds(cfg, states, events, n);
    var sub, posts := states[n].subs[s], Posted(states, events, n);
    assert Due(sub.sent[i], sub.tenant, sub.user, posts) by { SubIsDue(states[n], s, posts); }
    if !(sub.sent[i].id == "" && sub.sent[i].kind == "reset") {
      var e :| Post(sub.tenant, e) in posts && Addressed(e.to, sub.user) && sub.sent[i] == Msg(e.id, e.kind, e.data);
      PostedAt(states, events, n, Post(sub.tenant, e));
      var k :| 0 <= k < n && events[k].Append? && Post(sub.tenant, e) == PostOf(states[k], events[k]);
      assert PostedFor(states, events, k, sub.tenant, sub.user, sub.sent[i]);
    }
  }

  /** A connection is for the tenant and the user it was opened for, as long as the run goes on. */
  lemma OpenedFor(cfg: Config, states: seq<State>, events: seq<Event>, j: nat, n: nat, s: nat)
    requires IsRun(cfg, states, events) && j < n <= |events| && |states[j].subs| <= s < |states[j + 1].subs|
    ensures events[j].Subscribe? && s < |states[n].subs| && states[n].subs[s].tenant == events[j].tenant &&
            states[n].subs[s].user == events[j].user && states[n].subs[s].lastId == events[j].lastId
  {
    hide Next;
    assert states[j + 1] == Next(cfg, states[j], events[j]);
    if !events[j].Subscribe? { C.OnlySubscribe(cfg, states[j], events[j]); }
    NewIsFor(cfg, states[j], events[j], s);
    C.IdentityStays(cfg, states, events, j + 1, n, s);
  }

  lemma NewIsFor(cfg: Config, h: State, ev: Event, s: nat)
    requires ev.Subscribe? && |h.subs| <= s < |Next(cfg, h, ev).subs|
    ensures var sub := Next(cfg, h, ev).subs[s];
            sub.tenant == ev.tenant && sub.user == ev.user && sub.lastId == ev.lastId
  {
    hide CountOf, Refused;
  }

  // ------------------------------------------------------------------ what arrives

  /** In a run that drops nothing a stream only grows. */
  lemma StreamGrows(cfg: Config, h: State, ev: Event, tenant: string)
    requires C.Whole(cfg, h, ev)
    ensures var es, es' := StreamOf(h, tenant), StreamOf(Next(cfg, h, ev), tenant);
            es' == es + if ev.Append? && ev.tenant == tenant then [PostOf(h, ev).entry] else []
  {
    hide Id, Subscribed, Closed, Pushed, Matching, First, After, Receivers, Open, Kept, Owed;
    if ev.Close? || ev.CloseNext? || ev.CloseStalled? { ClosedTalk(h, ev.s); }
    if ev.Subscribe? { SubscribedStreams(cfg, h, ev.tenant, ev.user, ev.lastId, ev.outage); }
  }

  lemma SubscribedStreams(cfg: Config, h: State, tenant: string, user: string, lastId: string, outage: bool)
    ensures Subscribed(cfg, h, tenant, user, lastId, outage).streams == h.streams
  {
    hide CountOf, Refused;
  }

  lemma {:induction false} StreamKeeps(cfg: Config, states: seq<State>, events: seq<Event>, a: nat, n: nat,
                                       tenant: string)
    requires IsRun(cfg, states, events) && C.Undropped(cfg, states, events) && a <= n <= |events|
    ensures StreamOf(states[a], tenant) <= StreamOf(states[n], tenant)
    decreases n
  {
    hide Next, StreamOf, C.Whole, D.Forward;
    if a < n {
      StreamKeeps(cfg, states, events, a, n - 1, tenant);
      assert states[n - 1 + 1] == Next(cfg, states[n - 1], events[n - 1]);
      StreamGrows(cfg, states[n - 1], events[n - 1], tenant);
    }
  }

  /**
   * In a run whose clock does not go back and which drops no entry, a connection opened without a last id that is open
   * and idle has been given everything published since it was opened in its tenant to everyone or to its user.
   */
  lemma AddressedArrives(cfg: Config, states: seq<State>, events: seq<Event>, j: nat, n: nat, s: nat, k: nat)
    requires Usable(cfg) && IsRun(cfg, states, events) && C.Undropped(cfg, states, events) && j < n <= |events|
    requires |states[j].subs| <= s < |states[j + 1].subs| && states[j + 1].subs[s].lastId == "" && C.Idle(states[n], s)
    requires j < k < n && events[k].Append? && events[k].tenant == states[n].subs[s].tenant
    requires Addressed(events[k].to, states[n].subs[s].user)
    ensures Msg(Id(events[k].now, states[k].count + 1), events[k].kind, events[k].data) in states[n].subs[s].sent
  {
    hide Next, Addressed, Id, C.Undropped, Matching, After;
    var sub := states[n].subs[s];
    var at := C.EverythingArrives(cfg, states, events, j, n, s);
    var es, e := StreamOf(states[n], sub.tenant), PostOf(states[k], events[k]).entry;
    StreamKeeps(cfg, states, events, j, k, sub.tenant);
    StreamKeeps(cfg, states, events, k + 1, n, sub.tenant);
    assert C.Whole(cfg, states[k], events[k]) by { StepWhole(cfg, states, events, k); }
    assert states[k + 1] == Next(cfg, states[k], events[k]);
    StreamGrows(cfg, states[k], events[k], sub.tenant);
    var i := |StreamOf(states[k], sub.tenant)|;
    assert es[i] == e && at <= i;
    var marks := MatchingAt(es[at..], sub.user);
    assert es[at..][i - at] == e;
    assert For(es[at..], sub.user)(i - at);
    assert i - at in marks;
    var x :| 0 <= x < |marks| && marks[x] == i - at;
    assert sub.sent[x] == MsgOf(e);
  }

  lemma StepWhole(cfg: Config, states: seq<State>, events: seq<Event>, k: nat)
    requires |states| == |events| + 1 && C.Undropped(cfg, states, events) && k < |events|
    ensures C.Whole(cfg, states[k], events[k])
  {
  }
}
