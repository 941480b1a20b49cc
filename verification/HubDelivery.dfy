/** What a connection receives, over every interleaving of replay, dispatch, reading and closing. */
module HubDelivery {
  import opened Stream
  import opened Hub
  import HubBooks

  predicate AtMost(a: string, b: string) { a == b || Less(a, b) }
  predicate Before(a: string, b: string) { a == "" || Less(a, b) }

  // ------------------------------------------------------------------ order and closing

  /** The ids given to a connection strictly increase, and `last` is the highest of them. */
  ghost predicate Ordered(s: Sub) {
    (forall i, j :: 0 <= i < j < |s.sent| && s.sent[i].id != "" && s.sent[j].id != "" ==>
                      Less(s.sent[i].id, s.sent[j].id)) &&
    (forall i :: 0 <= i < |s.sent| && s.sent[i].id != "" ==> s.last != "" && AtMost(s.sent[i].id, s.last)) &&
    s.queued <= CONN_BUFFER
  }

  predicate SameIdentity(a: Sub, b: Sub) {
    a.tenant == b.tenant && a.user == b.user && a.gen == b.gen && a.since == b.since && a.lastId == b.lastId
  }

  /** Nothing was sent: `last` can only have moved up, and a closed connection stays as it was. */
  predicate Holds(a: Sub, b: Sub) {
    SameIdentity(a, b) && b.sent == a.sent && b.queued <= a.queued && (a.closed ==> b.closed) &&
    (b.last == a.last || (!a.closed && b.last != "" && Before(a.last, b.last)))
  }

  /** One message was sent, to an open connection with room, above everything before it. */
  predicate Gains(a: Sub, b: Sub) {
    SameIdentity(a, b) && !a.closed && !b.closed && a.queued < CONN_BUFFER && b.queued == a.queued + 1 &&
    |b.sent| == |a.sent| + 1 && b.sent[..|a.sent|] == a.sent &&
    var id := b.sent[|a.sent|].id;
    if id == "" then b.last == a.last else b.last == id && Before(a.last, id)
  }

  predicate Moves(a: Sub, b: Sub) { Holds(a, b) || Gains(a, b) }

  lemma MovesOrdered(a: Sub, b: Sub)
    requires Ordered(a) && Moves(a, b)
    ensures Ordered(b)
  {
    hide Less;
    if Holds(a, b) {
      forall i | 0 <= i < |b.sent| && b.sent[i].id != "" ensures b.last != "" && AtMost(b.sent[i].id, b.last) {
        LessIsStrict(a.sent[i].id, a.last, b.last);
      }
    } else {
      var n := |a.sent|;
      assert forall i :: 0 <= i < n ==> b.sent[i] == a.sent[i] by {
        assert forall i :: 0 <= i < n ==> b.sent[..n][i] == b.sent[i];
      }
      forall i | 0 <= i < n && b.sent[i].id != "" && b.sent[n].id != "" ensures Less(b.sent[i].id, b.sent[n].id) {
        LessIsStrict(a.sent[i].id, a.last, b.sent[n].id);
      }
    }
  }

  lemma PushedMoves(a: Sub, todo: seq<Msg>, m: Msg)
    ensures Moves(a, Pushed(a.(todo := todo), m).0)
  {
    hide Less;
  }

  lemma PushedPlainMoves(a: Sub, m: Msg)
    ensures Moves(a, Pushed(a, m).0)
  {
    PushedMoves(a, a.todo, m);
    assert a.(todo := a.todo) == a;
  }

  ghost predicate AllMove(h: State, h': State) {
    |h.subs| <= |h'.subs| && (forall s :: 0 <= s < |h.subs| ==> Moves(h.subs[s], h'.subs[s])) &&
    (forall s :: |h.subs| <= s < |h'.subs| ==> h'.subs[s].sent == [] && h'.subs[s].queued == 0)
  }

  lemma StayMoves(h: State)
    ensures AllMove(h, h)
  {
    hide Less;
  }

  lemma OneMoves(h: State, h': State, s: nat)
    requires s < |h.subs| && |h'.subs| == |h.subs| && Moves(h.subs[s], h'.subs[s])
    requires forall k :: 0 <= k < |h.subs| && k != s ==> h'.subs[k] == h.subs[k]
    ensures AllMove(h, h')
  {
    hide Less;
  }

  lemma ClosedMoves(h: State, s: nat)
    ensures AllMove(h, Closed(h, s))
  {
    hide Less;
    if s < |h.subs| && !h.subs[s].closed {
      OneMoves(h, Closed(h, s), s);
    } else {
      StayMoves(h);
    }
  }

  /** Every step moves every connection forward, if at all. */
  lemma NextMoves(cfg: Config, h: State, ev: Event)
    ensures AllMove(h, Next(cfg, h, ev))
  {
    hide Less, Closed, Subscribed, Pushed, Moves, Matching, After, First, Kept, Newest, Receivers, Id, AllMove;
    var h' := Next(cfg, h, ev);
    StayMoves(h);
    match ev
    case Subscribe(_, _, _, _) => SubscribedMoves(cfg, h, ev);
    case BeginReplay(_, _) => OneSubMoves(cfg, h, ev);
    case ReplayNext(_) => OneSubMoves(cfg, h, ev);
    case Take(_) => OneSubMoves(cfg, h, ev);
    case Push(g, s) => PushMoves(cfg, h, ev);
    case CloseStalled(_, s) =>
      ClosedMoves(h, s);
      SubsMove(h, Closed(h, s), h');
    case Close(s) => ClosedMoves(h, s);
    case CloseNext(s) =>
      ClosedMoves(h, s);
      SubsMove(h, Closed(h, s), h');
    case _ => SubsMove(h, h, h');
  }

  lemma SubsMove(h: State, h1: State, h': State)
    requires AllMove(h, h1)
    ensures h'.subs == h1.subs ==> AllMove(h, h')
  {
  }

  lemma SubscribedMoves(cfg: Config, h: State, ev: Event)
    requires ev.Subscribe?
    ensures AllMove(h, Next(cfg, h, ev))
  {
    hide Less;
  }

  lemma OneSubMoves(cfg: Config, h: State, ev: Event)
    requires ev.BeginReplay? || ev.ReplayNext? || ev.Take?
    ensures AllMove(h, Next(cfg, h, ev))
  {
    hide Less, Pushed, Moves, Matching, After, First, AllMove;
    StayMoves(h);
    var h' := Next(cfg, h, ev);
    if h' != h {
      var s := ev.s;
      match ev {
        case BeginReplay(_, _) => TodoMoves(h.subs[s], h'.subs[s]);
        case ReplayNext(_) => PushedMoves(h.subs[s], h.subs[s].todo[1..], h.subs[s].todo[0]);
        case Take(_) => TakeMoves(h.subs[s], h'.subs[s]);
      }
      OneMoves(h, h', s);
    }
  }

  lemma PushMoves(cfg: Config, h: State, ev: Event)
    requires ev.Push?
    ensures AllMove(h, Next(cfg, h, ev))
  {
    hide Less, Pushed, Moves, AllMove;
    StayMoves(h);
    var h' := Next(cfg, h, ev);
    if h' != h {
      PushedPlainMoves(h.subs[ev.s], MsgOf(h.gens[ev.g].log[|h.gens[ev.g].log| - 1]));
      OneMoves(h, h', ev.s);
    }
  }

  lemma TodoMoves(a: Sub, b: Sub)
    requires b == a.(todo := b.todo)
    ensures Moves(a, b)
  {
    hide Less;
  }

  lemma TakeMoves(a: Sub, b: Sub)
    requires b == a || (a.queued > 0 && b == a.(queued := a.queued - 1))
    ensures Moves(a, b)
  {
    hide Less;
  }

  /** In every state of every run, each connection's ids strictly increase. */
  lemma {:induction false} OrderHolds(cfg: Config, states: seq<State>, events: seq<Event>, n: nat)
    requires IsRun(cfg, states, events) && n <= |events|
    ensures forall s :: 0 <= s < |states[n].subs| ==> Ordered(states[n].subs[s])
  {
    hide Next, Ordered, Moves;
    if n > 0 {
      OrderHolds(cfg, states, events, n - 1);
      var h, h' := states[n - 1], states[n];
      assert states[n - 1 + 1] == Next(cfg, states[n - 1], events[n - 1]);
      NextMoves(cfg, h, events[n - 1]);
      forall s | 0 <= s < |h'.subs| ensures Ordered(h'.subs[s]) {
        if s < |h.subs| { MovesOrdered(h.subs[s], h'.subs[s]); } else { EmptyOrdered(h'.subs[s]); }
      }
    }
  }

  lemma EmptyOrdered(s: Sub)
    requires s.sent == [] && s.queued == 0
    ensures Ordered(s)
  {
  }

  /** Nothing is sent to a connection once it is closed: what it had then is what it has at any later time. */
  lemma {:induction false} NothingAfterClose(cfg: Config, states: seq<State>, events: seq<Event>, i: nat, j: nat,
                                             s: nat)
    requires IsRun(cfg, states, events) && i <= j <= |events|
    requires s < |states[i].subs| && states[i].subs[s].closed
    ensures s < |states[j].subs| && states[j].subs[s].closed && states[j].subs[s].sent == states[i].subs[s].sent
    decreases j - i
  {
    hide Next, Less;
    if i < j {
      NothingAfterClose(cfg, states, events, i, j - 1, s);
      assert states[j - 1 + 1] == Next(cfg, states[j - 1], events[j - 1]);
      NextMoves(cfg, states[j - 1], events[j - 1]);
      assert Moves(states[j - 1].subs[s], states[j].subs[s]);
    }
  }

  // ------------------------------------------------------------------- gap-free delivery

  ghost predicate StreamsSorted(h: State) {
    0 <= h.seen && forall t :: t in h.streams ==> Sorted(h.streams[t]) && Ids(h.streams[t], h.seen, h.count)
  }

  /** A loop reads on from the last entry it dispatched. */
  ghost predicate InStep(t: Gen) {
    t.last != "" && Sorted(t.batch) && (forall i :: 0 <= i < |t.batch| ==> Less(t.last, t.batch[i].id)) &&
    (t.log != [] ==> t.last == t.log[|t.log| - 1].id) && (t.pending != {} ==> t.log != [])
  }

  ghost predicate Owned(subs: seq<Sub>, g: nat, t: Gen) {
    forall s :: s in t.pending || s in t.stalled ==> s < |subs| && subs[s].gen == g
  }

  /** What a connection has been given, against the entries its loop dispatched since it joined. */
  ghost predicate GapFree(t: Gen, s: nat, sub: Sub) {
    sub.lastId == "" ==>
      sub.todo == [] && sub.since <= |t.log| && (s in t.pending ==> t.log != []) &&
      (!sub.closed ==>
         if s in t.pending then Before(sub.last, t.last) else sub.last == "" || AtMost(sub.last, t.last)) &&
      var due := Matching(t.log[sub.since..], sub.user);
      sub.sent <= due &&
      (!sub.closed && s !in t.stalled ==>
         due == sub.sent + (if s in t.pending then [MsgOf(t.log[|t.log| - 1])] else []))
  }

  ghost predicate Delivering(cfg: Config, h: State) {
    HubBooks.Books(cfg, h) && StreamsSorted(h) &&
    (forall g :: 0 <= g < |h.gens| ==> InStep(h.gens[g]) && Owned(h.subs, g, h.gens[g])) &&
    (forall s :: 0 <= s < |h.subs| ==> h.subs[s].gen < |h.gens| && GapFree(h.gens[h.subs[s].gen], s, h.subs[s]))
  }

  /** The clock handed to the stream does not go back, and nothing overflows. */
  predicate Forward(h: State, ev: Event) {
    ev.Append? ==> h.seen <= ev.now <= MAX_INT64 && h.count < MAX_INT64
  }

  // -- streams

  lemma AppendKeeps(cfg: Config, h: State, ev: Event)
    requires ev.Append? && StreamsSorted(h) && Forward(h, ev)
    ensures StreamsSorted(Next(cfg, h, ev))
  {
    hide Sorted, Ids, Id;
    var h' := Next(cfg, h, ev);
    var e := Entry(Id(ev.now, h.count + 1), ev.to, ev.kind, ev.data);
    NoneSorted(h.seen, h.count);
    AppendSorted(StreamOf(h, ev.tenant), e, h.seen, h.count, ev.now, cfg.maxLen);
    forall t | t in h'.streams ensures Sorted(h'.streams[t]) && Ids(h'.streams[t], h'.seen, h'.count) {
      if t != ev.tenant { IdsWiden(h.streams[t], h.seen, h.count, h'.seen, h'.count); }
    }
  }

  lemma NoneSorted(top: int, count: int)
    ensures Sorted([]) && Ids([], top, count)
  {
  }

  lemma IdsWiden(es: seq<Entry>, top: int, count: int, top': int, count': int)
    requires Ids(es, top, count) && top <= top' && count <= count'
    ensures Ids(es, top', count')
  {
    hide IsId;
    forall i | 0 <= i < |es| ensures IsId(es[i].id, top', count') { IdsGrow(es[i].id, top, count, top', count'); }
  }

  lemma IdsFrom(part: seq<Entry>, es: seq<Entry>, top: int, count: int)
    requires From(part, es) && Ids(es, top, count)
    ensures Ids(part, top, count)
  {
    hide IsId;
    forall i | 0 <= i < |part| ensures IsId(part[i].id, top, count) {
      var j :| 0 <= j < |es| && es[j] == part[i];
      assert IsId(es[j].id, top, count);
    }
  }

  lemma TrimKeeps(cfg: Config, h: State, ev: Event)
    requires ev.Trim? && StreamsSorted(h)
    ensures StreamsSorted(Next(cfg, h, ev))
  {
    hide Sorted, Ids, From;
    var es := StreamOf(h, ev.tenant);
    NoneSorted(h.seen, h.count);
    KeptSorted(es, ev.minId);
    IdsFrom(Kept(es, ev.minId), es, h.seen, h.count);
  }

  // -- one connection or one loop at a time

  /** The loops and streams are as before and one connection changed. */
  lemma SubChanged(cfg: Config, h: State, s: nat, sub: Sub)
    requires Delivering(cfg, h) && s < |h.subs| && HubBooks.Books(cfg, SetSub(h, s, sub))
    requires sub.gen == h.subs[s].gen && GapFree(h.gens[sub.gen], s, sub)
    ensures Delivering(cfg, SetSub(h, s, sub))
  {
    hide GapFree, InStep, HubBooks.Books;
  }

  /** One loop changed, in a way its connections agree with. */
  lemma GenChanged(cfg: Config, h: State, g: nat, t: Gen)
    requires Delivering(cfg, h) && g < |h.gens| && HubBooks.Books(cfg, SetGen(h, g, t))
    requires InStep(t) && Owned(h.subs, g, t)
    requires forall s :: 0 <= s < |h.subs| && h.subs[s].gen == g ==> GapFree(t, s, h.subs[s])
    ensures Delivering(cfg, SetGen(h, g, t))
  {
    hide GapFree, InStep, Owned, HubBooks.Books;
  }

  lemma ReadKeeps(cfg: Config, h: State, ev: Event)
    requires ev.Read? && Delivering(cfg, h) && HubBooks.Books(cfg, Next(cfg, h, ev))
    ensures Delivering(cfg, Next(cfg, h, ev))
  {
    if ev.g < |h.gens| && h.gens[ev.g].batch == [] {
      var t := h.gens[ev.g];
      var t' := t.(batch := First(After(StreamOf(h, t.tenant), t.last), ev.count));
      ReadInStep(h, t, ev.count);
      hide Sorted, Less, Matching, After, First, HubBooks.Books, InStep;
      forall s | 0 <= s < |h.subs| && h.subs[s].gen == ev.g ensures GapFree(t', s, h.subs[s]) {
        assert GapFree(t, s, h.subs[s]);
      }
      GenChanged(cfg, h, ev.g, t');
    }
  }

  lemma ReadInStep(h: State, t: Gen, count: int)
    requires StreamsSorted(h) && InStep(t)
    ensures InStep(t.(batch := First(After(StreamOf(h, t.tenant), t.last), count)))
  {
    hide Less, After;
    assert Sorted(StreamOf(h, t.tenant));
    AfterSorted(StreamOf(h, t.tenant), t.last);
  }

  lemma MatchingSnoc(es: seq<Entry>, e: Entry, user: string)
    ensures Matching(es + [e], user) == Matching(es, user) + (if Targets(e.to, user) then [MsgOf(e)] else [])
  {
    assert (es + [e])[..|es|] == es;
  }

  lemma DispatchedSub(t: Gen, t': Gen, e: Entry, s: nat, sub: Sub)
    requires GapFree(t, s, sub) && t.pending == {} && t.stalled == {} && t'.stalled == {}
    requires t'.log == t.log + [e] && t'.last == e.id && Less(t.last, e.id)
    requires !sub.closed ==> (s in t'.pending <==> Targets(e.to, sub.user))
    ensures GapFree(t', s, sub)
  {
    hide Less, Targets, Matching;
    if sub.lastId == "" {
      LessIsStrict(sub.last, t.last, e.id);
      assert t'.log[sub.since..] == t.log[sub.since..] + [e];
      MatchingSnoc(t.log[sub.since..], e, sub.user);
    }
  }

  lemma DispatchKeeps(cfg: Config, h: State, ev: Event)
    requires ev.Dispatch? && Delivering(cfg, h) && HubBooks.Books(cfg, Next(cfg, h, ev))
    ensures Delivering(cfg, Next(cfg, h, ev))
  {
    var g := ev.g;
    if g < |h.gens| && h.gens[g].batch != [] && h.gens[g].pending == {} && h.gens[g].stalled == {} {
      var t := h.gens[g];
      var e := t.batch[0];
      var t' := t.(last := e.id, log := t.log + [e], batch := t.batch[1..], pending := Receivers(h, t.conns, e));
      assert HubBooks.Holds(h.subs, g, t.conns);
      DispatchInStep(t, t');
      assert Less(t.last, e.id);
      hide Less, Targets, Matching, GapFree, InStep, HubBooks.Books, Sorted;
      forall s | 0 <= s < |h.subs| && h.subs[s].gen == g ensures GapFree(t', s, h.subs[s]) {
        DispatchedSub(t, t', e, s, h.subs[s]);
      }
      GenChanged(cfg, h, g, t');
    }
  }

  lemma DispatchInStep(t: Gen, t': Gen)
    requires InStep(t) && t.batch != []
    requires t'.last == t.batch[0].id && t'.log == t.log + [t.batch[0]] && t'.batch == t.batch[1..]
    ensures InStep(t')
  {
    hide Less;
  }

  lemma PushedSub(t: Gen, s: nat, sub: Sub)
    requires GapFree(t, s, sub) && InStep(t) && s in t.pending && t.stalled == {}
    ensures var (sub', ok) := Pushed(sub, MsgOf(t.log[|t.log| - 1]));
            GapFree(t.(pending := t.pending - {s}, stalled := if ok then {} else {s}), s, sub')
  {
    hide Less, Targets, Matching, Sorted;
  }

  /** A hand-over to one connection leaves the others' accounts as they were. */
  lemma OtherSub(t: Gen, t': Gen, s: nat, k: nat, sub: Sub)
    requires GapFree(t, k, sub) && k != s && t.stalled == {}
    requires t'.log == t.log && t'.last == t.last && t'.pending == t.pending - {s} && t'.stalled <= {s}
    ensures GapFree(t', k, sub)
  {
    hide Less, Matching;
  }

  lemma PushKeeps(cfg: Config, h: State, ev: Event)
    requires ev.Push? && Delivering(cfg, h) && HubBooks.Books(cfg, Next(cfg, h, ev))
    ensures Delivering(cfg, Next(cfg, h, ev))
  {
    hide Less, Pushed, GapFree, InStep, HubBooks.Books, StreamsSorted;
    var g, s, h' := ev.g, ev.s, Next(cfg, h, ev);
    if h' != h {
      var t, t' := h.gens[g], h'.gens[g];
      assert h.subs[s].gen == g by { assert Owned(h.subs, g, t); }
      PushedSub(t, s, h.subs[s]);
      HubBooks.PushedSame(h.subs[s], MsgOf(t.log[|t.log| - 1]));
      PushInStep(t, t');
      forall k | 0 <= k < |h'.subs|
        ensures h'.subs[k].gen < |h'.gens| && GapFree(h'.gens[h'.subs[k].gen], k, h'.subs[k])
      {
        if k != s && h.subs[k].gen == g { OtherSub(t, t', s, k, h.subs[k]); }
      }
      SameStreams(h, h');
    }
  }

  lemma PushInStep(t: Gen, t': Gen)
    requires InStep(t) && t'.last == t.last && t'.log == t.log && t'.batch == t.batch && t'.pending <= t.pending
    ensures InStep(t')
  {
  }

  lemma SameStreams(h: State, h': State)
    requires StreamsSorted(h) && h'.streams == h.streams && h'.seen == h.seen && h'.count == h.count
    ensures StreamsSorted(h')
  {
  }

  lemma ReplayKeeps(cfg: Config, h: State, ev: Event)
    requires ev.BeginReplay? || ev.ReplayNext? || ev.Take?
    requires Delivering(cfg, h) && HubBooks.Books(cfg, Next(cfg, h, ev))
    ensures Delivering(cfg, Next(cfg, h, ev))
  {
    var h' := Next(cfg, h, ev);
    if h' != h {
      var s := ev.s;
      assert GapFree(h.gens[h.subs[s].gen], s, h.subs[s]);
      if ev.ReplayNext? { HubBooks.PushedSame(h.subs[s].(todo := h.subs[s].todo[1..]), h.subs[s].todo[0]); }
      ReplayedSub(cfg, h, ev);
      hide Less, Pushed, Matching, After, First, GapFree, HubBooks.Books, InStep;
      SubChanged(cfg, h, s, h'.subs[s]);
    }
  }

  lemma ReplayedSub(cfg: Config, h: State, ev: Event)
    requires ev.BeginReplay? || ev.ReplayNext? || ev.Take?
    requires ev.s < |h.subs| && h.subs[ev.s].gen < |h.gens| && GapFree(h.gens[h.subs[ev.s].gen], ev.s, h.subs[ev.s])
    ensures var h' := Next(cfg, h, ev);
            |h'.subs| == |h.subs| && h'.subs[ev.s].gen == h.subs[ev.s].gen && h' == SetSub(h, ev.s, h'.subs[ev.s]) &&
            GapFree(h.gens[h.subs[ev.s].gen], ev.s, h'.subs[ev.s])
  {
    hide Less, Matching, After, First, Pushed;
    var h' := Next(cfg, h, ev);
    var sub := h.subs[ev.s];
    assert h == SetSub(h, ev.s, sub);
    if h' != h && ev.ReplayNext? {
      PushedIdentity(sub.(todo := sub.todo[1..]), sub.todo[0]);
    }
  }

  lemma PushedIdentity(a: Sub, m: Msg)
    ensures SameIdentity(a, Pushed(a, m).0)
  {
  }

  // -- closing and subscribing

  lemma ClosedFrame(h: State, s: nat)
    ensures var h' := Closed(h, s);
            |h'.subs| == |h.subs| && |h'.gens| == |h.gens| && h'.streams == h.streams && h'.seen == h.seen &&
            h'.count == h.count &&
            (forall k :: 0 <= k < |h.subs| ==>
                h'.subs[k] == h.subs[k] || h'.subs[k] == h.subs[k].(closed := true)) &&
            (forall g :: 0 <= g < |h.gens| ==>
                h'.gens[g] == h.gens[g].(conns := h'.gens[g].conns, byUser := h'.gens[g].byUser)) &&
            (s < |h.subs| ==> h'.subs[s].closed)
  {
  }

  lemma ClosedSub(t: Gen, t': Gen, s: nat, sub: Sub, sub': Sub)
    requires GapFree(t, s, sub) && (sub' == sub || sub' == sub.(closed := true))
    requires t'.log == t.log && t'.last == t.last && t'.pending == t.pending
    requires t'.stalled == t.stalled || sub'.closed
    ensures GapFree(t', s, sub')
  {
    hide Less, Matching;
  }

  lemma CloseKeeps(cfg: Config, h: State, h': State, s: nat)
    requires Delivering(cfg, h) && HubBooks.Books(cfg, h')
    requires var c := Closed(h, s);
             h'.subs == c.subs && h'.streams == c.streams && h'.seen == c.seen && h'.count == c.count &&
             |h'.gens| == |c.gens| &&
             forall g :: 0 <= g < |c.gens| ==>
               h'.gens[g] == c.gens[g] ||
               (s < |h.subs| && s in h.gens[g].stalled && h'.gens[g] == c.gens[g].(stalled := c.gens[g].stalled - {s}))
    ensures Delivering(cfg, h')
  {
    hide Closed, GapFree, HubBooks.Books, Sorted, Less, StreamsSorted;
    ClosedFrame(h, s);
    SameStreams(h, h');
    forall k | 0 <= k < |h'.subs|
      ensures h'.subs[k].gen < |h'.gens| && GapFree(h'.gens[h'.subs[k].gen], k, h'.subs[k])
    {
      var g := h.subs[k].gen;
      if k == s || h'.gens[g].stalled == h.gens[g].stalled {
        ClosedSub(h.gens[g], h'.gens[g], k, h.subs[k], h'.subs[k]);
      } else {
        UnstalledSub(h.gens[g], h'.gens[g], k, s, h.subs[k], h'.subs[k]);
      }
    }
  }

  lemma UnstalledSub(t: Gen, t': Gen, k: nat, s: nat, sub: Sub, sub': Sub)
    requires GapFree(t, k, sub) && (sub' == sub || sub' == sub.(closed := true)) && k != s
    requires t'.log == t.log && t'.last == t.last && t'.pending == t.pending && t'.stalled == t.stalled - {s}
    ensures GapFree(t', k, sub')
  {
    hide Less, Matching;
  }

  lemma SameLoop(subs: seq<Sub>, subs': seq<Sub>, g: nat, t: Gen, t': Gen)
    requires InStep(t) && Owned(subs, g, t) && subs <= subs'
    requires t' == t.(conns := t'.conns, byUser := t'.byUser)
    ensures InStep(t') && Owned(subs', g, t')
  {
    hide Less, Sorted;
  }

  lemma NewLoop(subs: seq<Sub>, g: nat, t: Gen)
    requires t.last != "" && t.log == [] && t.batch == [] && t.pending == {} && t.stalled == {}
    ensures InStep(t) && Owned(subs, g, t)
  {
  }

  lemma SameSub(t: Gen, t': Gen, s: nat, sub: Sub)
    requires GapFree(t, s, sub) && t' == t.(conns := t'.conns, byUser := t'.byUser)
    ensures GapFree(t', s, sub)
  {
    hide Less, Matching;
  }

  lemma SubscribeKeeps(cfg: Config, h: State, ev: Event)
    requires ev.Subscribe? && Delivering(cfg, h) && HubBooks.Books(cfg, Next(cfg, h, ev))
    ensures Delivering(cfg, Next(cfg, h, ev))
  {
    hide Next, StreamsSorted, HubBooks.Books, GapFree, InStep, Owned;
    var h' := Next(cfg, h, ev);
    SubscribedFrame(cfg, h, ev);
    SameStreams(h, h');
    forall g | 0 <= g < |h'.gens| ensures InStep(h'.gens[g]) && Owned(h'.subs, g, h'.gens[g]) {
      if g < |h.gens| { SameLoop(h.subs, h'.subs, g, h.gens[g], h'.gens[g]); } else { NewLoop(h'.subs, g, h'.gens[g]); }
    }
    forall s | 0 <= s < |h'.subs|
      ensures h'.subs[s].gen < |h'.gens| && GapFree(h'.gens[h'.subs[s].gen], s, h'.subs[s])
    {
      if s < |h.subs| {
        assert h'.subs[s] == h.subs[s];
        var g := h.subs[s].gen;
        SameSub(h.gens[g], h'.gens[g], s, h.subs[s]);
      } else {
        NewSub(h, h', s);
      }
    }
  }

  lemma NewSub(h: State, h': State, s: nat)
    requires s == |h.subs| && s < |h'.subs|
    requires forall g :: 0 <= g < |h.gens| ==> Owned(h.subs, g, h.gens[g])
    requires var sub := h'.subs[s];
             sub.gen < |h'.gens| && sub.since == |h'.gens[sub.gen].log| && sub.last == "" && !sub.closed &&
             sub.sent == [] && sub.todo == []
    requires var g := h'.subs[s].gen;
             if g < |h.gens| then h'.gens[g].pending == h.gens[g].pending && h'.gens[g].stalled == h.gens[g].stalled
             else h'.gens[g].pending == {}
    ensures GapFree(h'.gens[h'.subs[s].gen], s, h'.subs[s])
  {
    hide Less;
    var sub := h'.subs[s];
    var t := h'.gens[sub.gen];
    assert t.log[sub.since..] == [];
  }

  lemma SubscribedFrame(cfg: Config, h: State, ev: Event)
    requires ev.Subscribe? && Delivering(cfg, h)
    ensures var h' := Next(cfg, h, ev);
            h'.streams == h.streams && h'.seen == h.seen && h'.count == h.count &&
            |h.gens| <= |h'.gens| && |h.subs| <= |h'.subs| <= |h.subs| + 1 && h.subs <= h'.subs &&
            (forall g :: 0 <= g < |h.gens| ==>
                h'.gens[g] == h.gens[g].(conns := h'.gens[g].conns, byUser := h'.gens[g].byUser)) &&
            (forall g :: |h.gens| <= g < |h'.gens| ==>
                h'.gens[g].last != "" && h'.gens[g].log == [] && h'.gens[g].batch == [] &&
                h'.gens[g].pending == {} && h'.gens[g].stalled == {}) &&
            (|h.subs| < |h'.subs| ==>
               var sub := h'.subs[|h.subs|];
               sub.gen < |h'.gens| && sub.since == |h'.gens[sub.gen].log| && sub.last == "" && !sub.closed &&
               sub.sent == [] && sub.todo == [])
  {
    hide Less, Sorted, Delivering, HubBooks.Placed, Entered, Refused;
    PlacedAndSorted(cfg, h, ev.tenant);
    EnteredFrame(h, ev.tenant);
    var (h1, g) := Entered(h, ev.tenant);
    assert |h.gens| <= |h1.gens|;
  }

  lemma PlacedAndSorted(cfg: Config, h: State, tenant: string)
    requires Delivering(cfg, h)
    ensures HubBooks.Placed(h.tenants, h.gens, h.subs) && Sorted(StreamOf(h, tenant))
  {
    hide GapFree, InStep, Owned, Less;
  }

  lemma EnteredFrame(h: State, tenant: string)
    requires HubBooks.Placed(h.tenants, h.gens, h.subs) && Sorted(StreamOf(h, tenant))
    ensures var (h1, g) := Entered(h, tenant);
            h1.streams == h.streams && h1.seen == h.seen && h1.count == h.count && h1.subs == h.subs &&
            |h.gens| <= |h1.gens| <= |h.gens| + 1 && g < |h1.gens| &&
            (forall k :: 0 <= k < |h.gens| ==> h1.gens[k] == h.gens[k]) &&
            (|h.gens| < |h1.gens| ==>
               var t := h1.gens[|h.gens|];
               t.last != "" && t.log == [] && t.batch == [] && t.pending == {} && t.stalled == {})
  {
    hide Less;
  }

  // -- the theorem

  lemma NextDelivers(cfg: Config, h: State, ev: Event)
    requires Usable(cfg) && Delivering(cfg, h) && Forward(h, ev)
    ensures Delivering(cfg, Next(cfg, h, ev))
  {
    var h' := Next(cfg, h, ev);
    HubBooks.NextKeepsBooks(cfg, h, ev);
    match ev
    case Append(_, _, _, _, _) => AppendKeeps(cfg, h, ev); ElsewhereKeeps(cfg, h, h');
    case Trim(_, _) => TrimKeeps(cfg, h, ev); ElsewhereKeeps(cfg, h, h');
    case Subscribe(_, _, _, _) => SubscribeKeeps(cfg, h, ev);
    case BeginReplay(_, _) => ReplayKeeps(cfg, h, ev);
    case ReplayNext(_) => ReplayKeeps(cfg, h, ev);
    case Take(_) => ReplayKeeps(cfg, h, ev);
    case Read(_, _) => ReadKeeps(cfg, h, ev);
    case Dispatch(_) => DispatchKeeps(cfg, h, ev);
    case Push(_, _) => PushKeeps(cfg, h, ev);
    case Close(s) => CloseKeeps(cfg, h, h', s);
    case CloseNext(s) => CloseNextKeeps(cfg, h, ev);
    case CloseStalled(g, s) => CloseStalledKeeps(cfg, h, ev);
    case Cancel => SameStreams(h, h'); ElsewhereKeeps(cfg, h, h');
    case Collect => SameStreams(h, h'); ElsewhereKeeps(cfg, h, h');
  }

  lemma CloseNextKeeps(cfg: Config, h: State, ev: Event)
    requires ev.CloseNext? && Delivering(cfg, h) && HubBooks.Books(cfg, Next(cfg, h, ev))
    ensures Delivering(cfg, Next(cfg, h, ev))
  {
    hide Delivering, HubBooks.Books, Closed;
    if ev.s in h.closing { CloseKeeps(cfg, h, Next(cfg, h, ev), ev.s); }
  }

  lemma CloseStalledKeeps(cfg: Config, h: State, ev: Event)
    requires ev.CloseStalled? && Delivering(cfg, h) && HubBooks.Books(cfg, Next(cfg, h, ev))
    ensures Delivering(cfg, Next(cfg, h, ev))
  {
    hide HubBooks.Books, Closed, GapFree, InStep, StreamsSorted;
    if ev.g < |h.gens| && ev.s in h.gens[ev.g].stalled {
      assert Owned(h.subs, ev.g, h.gens[ev.g]);
      ClosedFrame(h, ev.s);
      CloseKeeps(cfg, h, Next(cfg, h, ev), ev.s);
    }
  }

  lemma ElsewhereKeeps(cfg: Config, h: State, h': State)
    requires Delivering(cfg, h) && HubBooks.Books(cfg, h') && StreamsSorted(h')
    requires h'.gens == h.gens && h'.subs == h.subs
    ensures Delivering(cfg, h')
  {
    hide HubBooks.Books, StreamsSorted, InStep, Owned, GapFree;
  }

  /**
   * A connection opened without a last id has been given a prefix of the matching entries its loop dispatched
   * since it joined; while it is open and no hand-over to it is in progress, it has been given all of them.
   */
  lemma {:induction false} DeliveryHolds(cfg: Config, states: seq<State>, events: seq<Event>, n: nat)
    requires Usable(cfg) && IsRun(cfg, states, events) && n <= |events|
    requires forall i :: 0 <= i < |events| ==> Forward(states[i], events[i])
    ensures Delivering(cfg, states[n])
  {
    hide Next, Forward;
    if n == 0 {
      hide Delivering;
      EmptyDelivers(cfg);
    } else {
      hide Delivering;
      DeliveryHolds(cfg, states, events, n - 1);
      assert states[n - 1 + 1] == Next(cfg, states[n - 1], events[n - 1]);
      NextDelivers(cfg, states[n - 1], events[n - 1]);
    }
  }

  lemma EmptyDelivers(cfg: Config)
    ensures Delivering(cfg, EMPTY)
  {
    HubBooks.EmptyBooks(cfg);
  }

  lemma GapFreePrefix(cfg: Config, states: seq<State>, events: seq<Event>, n: nat, s: nat)
    requires Usable(cfg) && IsRun(cfg, states, events) && n <= |events|
    requires forall i :: 0 <= i < |events| ==> Forward(states[i], events[i])
    requires s < |states[n].subs| && states[n].subs[s].lastId == ""
    ensures var sub := states[n].subs[s];
            sub.gen < |states[n].gens| &&
            var t := states[n].gens[sub.gen];
            sub.since <= |t.log| && sub.sent <= Matching(t.log[sub.since..], sub.user) &&
            (!sub.closed && s !in t.pending && s !in t.stalled ==> sub.sent == Matching(t.log[sub.since..], sub.user))
  {
    hide Next, Forward, Matching;
    DeliveryHolds(cfg, states, events, n);
    var h := states[n];
    assert GapFree(h.gens[h.subs[s].gen], s, h.subs[s]);
    assert h.subs[s].sent + [] == h.subs[s].sent;
  }

  /** With room in the buffer, the next stream entry reaches a connection exactly when the clock did not go back. */
  lemma DeliveredExactly(sub: Sub, m: Msg, ms: int, n: int, now: int, n': int)
    requires 0 <= ms <= MAX_INT64 && 0 <= now <= MAX_INT64 && 0 <= n < n' <= MAX_INT64
    requires !sub.closed && sub.queued < CONN_BUFFER && sub.last == Id(ms, n) && m.id == Id(now, n')
    ensures Pushed(sub, m).0.sent == sub.sent + [m] <==> ms <= now
    ensures Pushed(sub, m).1
  {
    hide Less, Id;
    OrderedExactly(ms, n, now, n');
    IdNotEmpty(ms, n);
    IdNotEmpty(now, n');
    assert |sub.sent + [m]| == |sub.sent| + 1;
  }
}
