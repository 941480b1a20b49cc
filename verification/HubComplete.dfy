/**
 * Nothing is missed: what a reading loop has dispatched is its tenant's stream from the loop's start, without a
 * gap.
 */
module HubComplete {
  import opened Stream
  import opened Hub
  import opened HubDelivery
  import HubBooks

  // ------------------------------------------------------------ reading from a position

  const ORIGIN := "0-0"

  /** The id a reader of the entries from position b on stands at. */
  function IdBefore(es: seq<Entry>, b: nat): string
    requires b <= |es|
  {
    if b == 0 then ORIGIN else es[b - 1].id
  }

  lemma {:induction false} AfterIs(es: seq<Entry>, id: string, b: nat)
    requires b <= |es| && id != ""
    requires forall i :: 0 <= i < |es| ==> (Less(id, es[i].id) <==> b <= i)
    ensures After(es, id) == es[b..]
  {
    hide Less;
    if es != [] {
      var n := |es| - 1;
      if b <= n {
        AfterIs(es[..n], id, b);
        assert es[b..] == es[..n][b..] + [es[n]];
      } else {
        AfterIs(es[..n], id, n);
        assert After(es, id) == [];
      }
    }
  }

  lemma OriginIsFirst(es: seq<Entry>, top: int, count: int, i: nat)
    requires Ids(es, top, count) && top <= MAX_INT64 && count <= MAX_INT64 && i < |es|
    ensures Less(ORIGIN, es[i].id)
  {
    hide Less;
    assert IsId(es[i].id, top, count);
    var ms, n :| 0 <= ms <= top && 0 < n <= count && es[i].id == Id(ms, n);
    assert ORIGIN == Id(0, 0);
    hide Id;
    IdOrder(0, 0, ms, n);
  }

  /** In a stream in order, reading on from a position gives exactly the entries from there. */
  lemma ReadsOn(es: seq<Entry>, top: int, count: int, b: nat)
    requires Sorted(es) && Ids(es, top, count) && top <= MAX_INT64 && count <= MAX_INT64 && b <= |es|
    ensures IdBefore(es, b) != "" && After(es, IdBefore(es, b)) == es[b..]
  {
    hide Less, Ids;
    var id := IdBefore(es, b);
    forall i | 0 <= i < |es| ensures Less(id, es[i].id) <==> b <= i {
      if b == 0 {
        OriginIsFirst(es, top, count, i);
      } else {
        LessIsStrict(es[i].id, es[b - 1].id, es[i].id);
      }
    }
    AfterIs(es, id, b);
  }

  // ------------------------------------------------------------------------ the loops

  /**
   * The loop started at position b: what it dispatched and read is the stream from there, and it stands at its
   * last entry.
   */
  predicate Reads(es: seq<Entry>, t: Gen, b: nat) {
    b + |t.log| + |t.batch| <= |es| && t.log + t.batch == es[b..b + |t.log| + |t.batch|] &&
    t.last == IdBefore(es, b + |t.log|)
  }

  ghost predicate Tracks(h: State, starts: seq<nat>) {
    |starts| == |h.gens| && forall g :: 0 <= g < |h.gens| ==> Reads(StreamOf(h, h.gens[g].tenant), h.gens[g], starts[g])
  }

  /** No entry is dropped: nothing is trimmed, and no append reaches the length limit. */
  predicate Whole(cfg: Config, h: State, ev: Event) {
    !ev.Trim? && (ev.Append? ==> cfg.maxLen <= 0 || |StreamOf(h, ev.tenant)| < cfg.maxLen)
  }

  lemma LongerReads(es: seq<Entry>, es': seq<Entry>, t: Gen, b: nat)
    requires Reads(es, t, b) && es <= es'
    ensures Reads(es', t, b)
  {
    var n := b + |t.log| + |t.batch|;
    assert es'[..|es|] == es;
    assert es'[b..n] == es[b..n];
  }

  lemma AppendTracks(cfg: Config, h: State, ev: Event, starts: seq<nat>)
    requires ev.Append? && Tracks(h, starts) && Whole(cfg, h, ev)
    ensures Tracks(Next(cfg, h, ev), starts)
  {
    hide Reads, Id;
    var h' := Next(cfg, h, ev);
    forall g | 0 <= g < |h'.gens| ensures Reads(StreamOf(h', h'.gens[g].tenant), h'.gens[g], starts[g]) {
      LongerReads(StreamOf(h, h.gens[g].tenant), StreamOf(h', h.gens[g].tenant), h.gens[g], starts[g]);
    }
  }

  /** One loop changes what it reads. */
  lemma OneTracks(h: State, g: nat, t: Gen, starts: seq<nat>)
    requires Tracks(h, starts) && g < |h.gens| && t.tenant == h.gens[g].tenant &&
             Reads(StreamOf(h, t.tenant), t, starts[g])
    ensures Tracks(SetGen(h, g, t), starts)
  {
    hide Reads;
  }

  lemma StreamSorted(h: State, tenant: string)
    requires StreamsSorted(h)
    ensures Sorted(StreamOf(h, tenant)) && Ids(StreamOf(h, tenant), h.seen, h.count)
  {
    NoneSorted(h.seen, h.count);
    hide Sorted, Ids;
  }

  lemma FirstIsPrefix(es: seq<Entry>, count: int)
    ensures First(es, count) <= es
  {
  }

  lemma NextBatch(es: seq<Entry>, top: int, count: int, t: Gen, b: nat, most: int)
    requires Reads(es, t, b) && t.batch == [] && Sorted(es) && Ids(es, top, count) && top <= MAX_INT64 &&
             count <= MAX_INT64
    ensures Reads(es, t.(batch := First(After(es, t.last), most)), b)
  {
    hide Sorted, Ids, After, First, Reads, IdBefore;
    var m := b + |t.log|;
    LogIs(es, t, b);
    ReadsOn(es, top, count, m);
    FirstIsPrefix(es[m..], most);
    BatchRead(es, t, b, First(es[m..], most));
  }

  lemma ReadTracks(cfg: Config, h: State, ev: Event, starts: seq<nat>)
    requires ev.Read? && Tracks(h, starts) && StreamsSorted(h) && h.seen <= MAX_INT64 && h.count <= MAX_INT64
    ensures Tracks(Next(cfg, h, ev), starts)
  {
    hide Reads, Sorted, Ids, Id, After, First, StreamsSorted, Less, Matching, Kept, Newest, Pushed, Closed,
      Subscribed, Receivers;
    if ev.g < |h.gens| && h.gens[ev.g].batch == [] {
      var t := h.gens[ev.g];
      var es := StreamOf(h, t.tenant);
      StreamSorted(h, t.tenant);
      NextBatch(es, h.seen, h.count, t, starts[ev.g], ev.count);
      OneTracks(h, ev.g, t.(batch := First(After(es, t.last), ev.count)), starts);
    }
  }

  lemma BatchRead(es: seq<Entry>, t: Gen, b: nat, batch: seq<Entry>)
    requires Reads(es, t, b) && t.batch == [] && batch <= es[b + |t.log|..]
    ensures Reads(es, t.(batch := batch), b)
  {
    var m := b + |t.log|;
    assert t.log + t.batch == t.log;
    assert batch == es[m..][..|batch|] == es[m..m + |batch|];
    assert es[b..m] + es[m..m + |batch|] == es[b..m + |batch|];
  }

  lemma Dispatched(es: seq<Entry>, t: Gen, b: nat, pending: set<nat>)
    requires Reads(es, t, b) && t.batch != []
    ensures Reads(es,
                  t.(last := t.batch[0].id, log := t.log + [t.batch[0]], batch := t.batch[1..], pending := pending), b)
  {
    var n := b + |t.log| + |t.batch|;
    assert t.batch == [t.batch[0]] + t.batch[1..];
    assert (t.log + [t.batch[0]]) + t.batch[1..] == t.log + t.batch;
    assert es[b..n][|t.log|] == (t.log + t.batch)[|t.log|] == t.batch[0];
  }

  lemma DispatchTracks(cfg: Config, h: State, ev: Event, starts: seq<nat>)
    requires ev.Dispatch? && Tracks(h, starts)
    ensures Tracks(Next(cfg, h, ev), starts)
  {
    hide Reads, Receivers;
    if ev.g < |h.gens| && h.gens[ev.g].batch != [] {
      var t := h.gens[ev.g];
      Dispatched(StreamOf(h, t.tenant), t, starts[ev.g], Receivers(h, t.conns, t.batch[0]));
    }
  }

  /** A new loop starts at the tail. */
  lemma EnteredTracks(h: State, tenant: string, starts: seq<nat>) returns (starts': seq<nat>)
    requires Tracks(h, starts)
    ensures Tracks(Entered(h, tenant).0, starts') && starts <= starts'
  {
    starts' := starts;
    if tenant !in h.tenants {
      var es := StreamOf(h, tenant);
      starts' := starts + [|es|];
      assert Reads(es, Entered(h, tenant).0.gens[|h.gens|], |es|);
      hide Reads;
    }
  }

  lemma SubscribeTracks(cfg: Config, h: State, ev: Event, starts: seq<nat>) returns (starts': seq<nat>)
    requires ev.Subscribe? && Tracks(h, starts)
    ensures Tracks(Next(cfg, h, ev), starts') && starts <= starts'
  {
    hide Tracks, Refused, CountOf, Entered;
    starts' := starts;
    if !h.cancelled && !(ev.tenant !in h.tenants && ev.outage) {
      starts' := EnteredTracks(h, ev.tenant, starts);
      QuietTracks(Entered(h, ev.tenant).0, Next(cfg, h, ev), starts');
    }
  }

  /** Steps that leave the streams and what the loops read. */
  lemma QuietTracks(h: State, h': State, starts: seq<nat>)
    requires Tracks(h, starts) && h'.streams == h.streams && |h'.gens| == |h.gens|
    requires forall g :: 0 <= g < |h.gens| ==> SameReading(h.gens[g], h'.gens[g])
    ensures Tracks(h', starts)
  {
  }

  predicate SameReading(a: Gen, b: Gen) {
    b.tenant == a.tenant && b.last == a.last && b.log == a.log && b.batch == a.batch
  }

  lemma ClosedReads(h: State, s: nat)
    ensures var h' := Closed(h, s);
            h'.streams == h.streams && |h'.gens| == |h.gens| && forall g :: 0 <= g < |h.gens| ==>
              SameReading(h.gens[g], h'.gens[g])
  {
    hide CountOf;
  }

  lemma CloseTracks(cfg: Config, h: State, ev: Event, starts: seq<nat>)
    requires Tracks(h, starts) && (ev.Close? || ev.CloseNext? || ev.CloseStalled?)
    ensures Tracks(Next(cfg, h, ev), starts)
  {
    hide Tracks, Closed;
    ClosedReads(h, ev.s);
    QuietTracks(h, Next(cfg, h, ev), starts);
  }

  lemma SubTracks(cfg: Config, h: State, ev: Event, starts: seq<nat>)
    requires Tracks(h, starts) &&
             (ev.BeginReplay? || ev.ReplayNext? || ev.Take? || ev.Push? || ev.Cancel? || ev.Collect?)
    ensures Tracks(Next(cfg, h, ev), starts)
  {
    hide Tracks, Pushed, Matching, First, After, Open;
    QuietTracks(h, Next(cfg, h, ev), starts);
  }

  lemma NextTracks(cfg: Config, h: State, ev: Event, starts: seq<nat>) returns (starts': seq<nat>)
    requires Tracks(h, starts) && Whole(cfg, h, ev) && StreamsSorted(h) && h.seen <= MAX_INT64 && h.count <= MAX_INT64
    ensures Tracks(Next(cfg, h, ev), starts') && starts <= starts'
  {
    hide Next, Tracks, StreamsSorted;
    starts' := starts;
    match ev {
      case Append(_, _, _, _, _) => AppendTracks(cfg, h, ev, starts);
      case Subscribe(_, _, _, _) => starts' := SubscribeTracks(cfg, h, ev, starts);
      case Read(_, _) => ReadTracks(cfg, h, ev, starts);
      case Dispatch(_) => DispatchTracks(cfg, h, ev, starts);
      case Close(_) => CloseTracks(cfg, h, ev, starts);
      case CloseNext(_) => CloseTracks(cfg, h, ev, starts);
      case CloseStalled(_, _) => CloseTracks(cfg, h, ev, starts);
      case _ => SubTracks(cfg, h, ev, starts);
    }
  }

  // -------------------------------------------------------------------------- whole runs

  ghost predicate Undropped(cfg: Config, states: seq<State>, events: seq<Event>)
    requires |states| == |events| + 1
  {
    forall i :: 0 <= i < |events| ==> Forward(states[i], events[i]) && Whole(cfg, states[i], events[i])
  }

  lemma {:induction false} Bounded(cfg: Config, states: seq<State>, events: seq<Event>, n: nat)
    requires IsRun(cfg, states, events) && Undropped(cfg, states, events) && n <= |events|
    ensures states[n].seen <= MAX_INT64 && states[n].count <= MAX_INT64
  {
    hide Next, Whole;
    if n > 0 {
      Bounded(cfg, states, events, n - 1);
      assert states[n - 1 + 1] == Next(cfg, states[n - 1], events[n - 1]);
      ClockMoves(cfg, states[n - 1], events[n - 1]);
    }
  }

  lemma ClosedClock(h: State, s: nat)
    ensures Closed(h, s).seen == h.seen && Closed(h, s).count == h.count && |Closed(h, s).subs| == |h.subs|
  {
    hide CountOf;
  }

  lemma SubscribedClock(cfg: Config, h: State, tenant: string, user: string, lastId: string, outage: bool)
    ensures var h' := Subscribed(cfg, h, tenant, user, lastId, outage); h'.seen == h.seen && h'.count == h.count
  {
    hide CountOf, Refused;
  }

  lemma ClockMoves(cfg: Config, h: State, ev: Event)
    ensures var h' := Next(cfg, h, ev);
            if ev.Append? then h'.seen == ev.now && h'.count == h.count + 1
            else h'.seen == h.seen && h'.count == h.count
  {
    hide Id, Newest, Kept, Subscribed, Closed, Pushed, Matching, First, After, Receivers, Open;
    if ev.Close? || ev.CloseNext? || ev.CloseStalled? { ClosedClock(h, ev.s); }
    if ev.Subscribe? { SubscribedClock(cfg, h, ev.tenant, ev.user, ev.lastId, ev.outage); }
  }

  lemma {:induction false} RunTracks(cfg: Config, states: seq<State>, events: seq<Event>, a: nat, n: nat,
                                     starts: seq<nat>)
    returns (starts': seq<nat>)
    requires Usable(cfg) && IsRun(cfg, states, events) && Undropped(cfg, states, events) && a <= n <= |events|
    requires Tracks(states[a], starts)
    ensures Tracks(states[n], starts') && starts <= starts'
    decreases n
  {
    hide Next, Tracks, Forward, Whole;
    if n == a {
      starts' := starts;
    } else {
      var mid := RunTracks(cfg, states, events, a, n - 1, starts);
      DeliveryHolds(cfg, states, events, n - 1);
      DeliveringSorted(cfg, states[n - 1]);
      Bounded(cfg, states, events, n - 1);
      assert states[n - 1 + 1] == Next(cfg, states[n - 1], events[n - 1]);
      starts' := NextTracks(cfg, states[n - 1], events[n - 1], mid);
    }
  }

  lemma DeliveringSorted(cfg: Config, h: State)
    requires Delivering(cfg, h)
    ensures StreamsSorted(h) && HubBooks.Placed(h.tenants, h.gens, h.subs)
  {
    hide StreamsSorted, HubBooks.Placed, GapFree, InStep, Owned;
  }

  lemma {:induction false} IdentityStays(cfg: Config, states: seq<State>, events: seq<Event>, a: nat, n: nat, s: nat)
    requires IsRun(cfg, states, events) && a <= n <= |events| && s < |states[a].subs|
    ensures s < |states[n].subs| && SameIdentity(states[a].subs[s], states[n].subs[s])
    decreases n
  {
    hide Next;
    if a < n {
      IdentityStays(cfg, states, events, a, n - 1, s);
      assert states[n - 1 + 1] == Next(cfg, states[n - 1], events[n - 1]);
      NextMoves(cfg, states[n - 1], events[n - 1]);
      hide Less;
      assert Moves(states[n - 1].subs[s], states[n].subs[s]);
    }
  }

  lemma OnlySubscribe(cfg: Config, h: State, ev: Event)
    requires !ev.Subscribe?
    ensures |Next(cfg, h, ev).subs| == |h.subs|
  {
    hide Id, Newest, Kept, Closed, Pushed, Matching, First, After, Receivers, Open;
    if ev.Close? || ev.CloseNext? || ev.CloseStalled? { ClosedClock(h, ev.s); }
  }

  /** Open, with no hand-over in progress, and its loop has read and dispatched all there is. */
  predicate Idle(h: State, s: nat) {
    s < |h.subs| && !h.subs[s].closed && h.subs[s].gen < |h.gens| &&
    var t := h.gens[h.subs[s].gen];
    s !in t.pending && s !in t.stalled && t.batch == [] && After(StreamOf(h, t.tenant), t.last) == []
  }

  /** A loop with nothing more to read has dispatched its stream from its start to the end. */
  lemma AllDispatched(es: seq<Entry>, top: int, count: int, t: Gen, b: nat)
    requires Reads(es, t, b) && t.batch == [] && Sorted(es) && Ids(es, top, count) && top <= MAX_INT64 &&
             count <= MAX_INT64
    requires After(es, t.last) == []
    ensures b <= |es| && t.log == es[b..]
  {
    hide Sorted, Ids, After, Reads, IdBefore;
    LogIs(es, t, b);
    ReadsOn(es, top, count, b + |t.log|);
    assert |es[b + |t.log|..]| == 0;
  }

  lemma LogIs(es: seq<Entry>, t: Gen, b: nat)
    requires Reads(es, t, b) && t.batch == []
    ensures var m := b + |t.log|; m <= |es| && t.log == es[b..m] && t.last == IdBefore(es, m)
  {
    hide IdBefore;
    assert t.log + t.batch == t.log;
  }

  /** The connection that step j opened joined its loop at or before the end of the stream as it then stood. */
  lemma JoinedAt(cfg: Config, states: seq<State>, events: seq<Event>, j: nat, s: nat) returns (starts: seq<nat>)
    requires Usable(cfg) && IsRun(cfg, states, events) && Undropped(cfg, states, events) && j < |events|
    requires |states[j].subs| <= s < |states[j + 1].subs|
    ensures Tracks(states[j + 1], starts)
    ensures var sub := states[j + 1].subs[s];
            sub.gen < |starts| && states[j + 1].gens[sub.gen].tenant == sub.tenant &&
            starts[sub.gen] + sub.since <= |StreamOf(states[j], sub.tenant)|
  {
    hide Next, Tracks, Forward, Whole, Delivering;
    NothingTracked();
    starts := RunTracks(cfg, states, events, 0, j + 1, []);
    DeliveryHolds(cfg, states, events, j);
    DeliveryHolds(cfg, states, events, j + 1);
    assert states[j + 1] == Next(cfg, states[j], events[j]);
    Joins(cfg, states[j], events[j], s);
    JoinedBefore(states[j], states[j + 1], states[j + 1].subs[s], starts);
  }

  lemma Joins(cfg: Config, h: State, ev: Event, s: nat)
    requires Delivering(cfg, h) && Delivering(cfg, Next(cfg, h, ev)) && |h.subs| <= s < |Next(cfg, h, ev).subs|
    ensures var h' := Next(cfg, h, ev);
            var sub := h'.subs[s];
            h'.streams == h.streams && sub.gen < |h'.gens| && h'.gens[sub.gen].tenant == sub.tenant &&
            sub.since == |h'.gens[sub.gen].log|
  {
    hide Next, Delivering;
    if !ev.Subscribe? { OnlySubscribe(cfg, h, ev); }
    SubscribedFrame(cfg, h, ev);
    DeliveringSorted(cfg, Next(cfg, h, ev));
    hide StreamsSorted;
  }

  lemma JoinedBefore(h: State, h': State, sub: Sub, starts: seq<nat>)
    requires Tracks(h', starts) && h'.streams == h.streams && sub.gen < |h'.gens|
    requires h'.gens[sub.gen].tenant == sub.tenant && sub.since == |h'.gens[sub.gen].log|
    ensures sub.gen < |starts| && starts[sub.gen] + sub.since <= |StreamOf(h, sub.tenant)|
  {
    assert Reads(StreamOf(h', sub.tenant), h'.gens[sub.gen], starts[sub.gen]);
  }

  lemma NothingTracked()
    ensures Tracks(EMPTY, [])
  {
  }

  /**
   * In a run whose clock does not go back and which drops no entry, a connection opened without a last id that is
   * open and idle has been given, in order, every matching entry of its tenant's stream from a position at or before
   * the end of the stream as it stood when the connection was opened: every entry appended since is among them.
   */
  lemma EverythingArrives(cfg: Config, states: seq<State>, events: seq<Event>, j: nat, n: nat, s: nat) returns (at: nat)
    requires Usable(cfg) && IsRun(cfg, states, events) && Undropped(cfg, states, events) && j < n <= |events|
    requires |states[j].subs| <= s < |states[j + 1].subs| && states[j + 1].subs[s].lastId == "" && Idle(states[n], s)
    ensures var sub := states[n].subs[s];
            at <= |StreamOf(states[j], sub.tenant)| && at <= |StreamOf(states[n], sub.tenant)| &&
            sub.sent == Matching(StreamOf(states[n], sub.tenant)[at..], sub.user)
  {
    hide Next, Tracks, Forward, Whole, Reads, Matching, After, GapFree, StreamsSorted, Sorted, Ids;
    var starts := JoinedAt(cfg, states, events, j, s);
    var starts' := RunTracks(cfg, states, events, j + 1, n, starts);
    IdentityStays(cfg, states, events, j + 1, n, s);
    GapFreePrefix(cfg, states, events, n, s);
    DeliveryHolds(cfg, states, events, n);
    DeliveringSorted(cfg, states[n]);
    Bounded(cfg, states, events, n);
    var h := states[n];
    var sub := h.subs[s];
    var t, b := h.gens[sub.gen], starts'[sub.gen];
    StreamSorted(h, sub.tenant);
    TracksAt(h, starts', sub.gen);
    var es := StreamOf(h, sub.tenant);
    AllDispatched(es, h.seen, h.count, t, b);
    at := b + sub.since;
    assert t.log[sub.since..] == es[at..];
  }

  lemma TracksAt(h: State, starts: seq<nat>, g: nat)
    requires Tracks(h, starts) && g < |h.gens|
    ensures g < |starts| && Reads(StreamOf(h, h.gens[g].tenant), h.gens[g], starts[g])
  {
    hide Reads;
  }
}
