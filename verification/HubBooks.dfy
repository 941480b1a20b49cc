/** Hub accounting over every run: counts, limits, tenant entries and shutdown. */
module HubBooks {
  import opened Stream
  import opened Hub

  function UserConns(subs: seq<Sub>, conns: set<nat>, user: string): set<nat> {
    set s | s in conns && s < |subs| && subs[s].user == user
  }

  /** byUser holds exactly the users with connections, each with their number. */
  ghost predicate Counted(subs: seq<Sub>, t: Gen) {
    forall u :: CountOf(t.byUser, u) == |UserConns(subs, t.conns, u)| && (u in t.byUser ==> t.byUser[u] > 0)
  }

  /** conns holds exactly the entry's open connections. */
  ghost predicate Holds(subs: seq<Sub>, g: nat, conns: set<nat>) {
    forall s: nat :: s in conns <==> s < |subs| && subs[s].gen == g && !subs[s].closed
  }

  ghost predicate Placed(tenants: map<string, nat>, gens: seq<Gen>, subs: seq<Sub>) {
    (forall s :: 0 <= s < |subs| ==> subs[s].gen < |gens| && gens[subs[s].gen].tenant == subs[s].tenant) &&
    (forall t :: t in tenants ==> tenants[t] < |gens| && gens[tenants[t]].tenant == t)
  }

  /** An entry is registered exactly while it has an open connection. */
  ghost predicate Registered(tenants: map<string, nat>, gens: seq<Gen>) {
    forall g :: 0 <= g < |gens| ==> (Current(tenants, gens, g) <==> gens[g].conns != {})
  }

  predicate Current(tenants: map<string, nat>, gens: seq<Gen>, g: nat) {
    g < |gens| && gens[g].tenant in tenants && tenants[gens[g].tenant] == g
  }

  ghost predicate Limited(cfg: Config, t: Gen) {
    |t.conns| <= cfg.perTenant && forall u :: u in t.byUser ==> t.byUser[u] <= cfg.perUser
  }

  ghost predicate Books(cfg: Config, h: State) {
    Placed(h.tenants, h.gens, h.subs) && Registered(h.tenants, h.gens) &&
    forall g :: 0 <= g < |h.gens| ==>
                  Holds(h.subs, g, h.gens[g].conns) && Counted(h.subs, h.gens[g]) && Limited(cfg, h.gens[g])
  }

  /** Once Hub.Close has collected, only connections it will close are open, and no new one opens. */
  ghost predicate Closing(h: State) {
    h.collected ==> h.cancelled && forall s :: 0 <= s < |h.subs| && !h.subs[s].closed ==> s in h.closing
  }

  // ------------------------------------------------- steps that do not touch the books

  ghost predicate SameBooks(h: State, h': State) {
    h'.tenants == h.tenants && |h'.gens| == |h.gens| && |h'.subs| == |h.subs| &&
    (forall s :: 0 <= s < |h.subs| ==> SameSub(h.subs[s], h'.subs[s])) &&
    (forall g :: 0 <= g < |h.gens| ==> SameGen(h.gens[g], h'.gens[g]))
  }

  predicate SameSub(a: Sub, b: Sub) {
    a.gen == b.gen && a.tenant == b.tenant && a.user == b.user && a.closed == b.closed
  }
  predicate SameGen(a: Gen, b: Gen) { a.tenant == b.tenant && a.conns == b.conns && a.byUser == b.byUser }

  lemma SameBooksKeep(cfg: Config, h: State, h': State)
    requires Books(cfg, h) && SameBooks(h, h')
    ensures Books(cfg, h')
  {
    forall g | 0 <= g < |h.gens|
      ensures Holds(h'.subs, g, h'.gens[g].conns) && Counted(h'.subs, h'.gens[g]) && Limited(cfg, h'.gens[g])
    {
      SameCounts(cfg, h.subs, h'.subs, g, h.gens[g], h'.gens[g]);
    }
    SamePlaces(h, h');
  }

  lemma SamePlaces(h: State, h': State)
    requires Placed(h.tenants, h.gens, h.subs) && Registered(h.tenants, h.gens) && SameBooks(h, h')
    ensures Placed(h'.tenants, h'.gens, h'.subs) && Registered(h'.tenants, h'.gens)
  {
    forall g | 0 <= g < |h'.gens| ensures Current(h'.tenants, h'.gens, g) <==> h'.gens[g].conns != {} {
      assert SameGen(h.gens[g], h'.gens[g]);
    }
    forall s | 0 <= s < |h'.subs|
      ensures h'.subs[s].gen < |h'.gens| && h'.gens[h'.subs[s].gen].tenant == h'.subs[s].tenant
    {
      assert SameSub(h.subs[s], h'.subs[s]) && SameGen(h.gens[h.subs[s].gen], h'.gens[h.subs[s].gen]);
    }
    forall t | t in h'.tenants ensures h'.tenants[t] < |h'.gens| && h'.gens[h'.tenants[t]].tenant == t {
      assert SameGen(h.gens[h.tenants[t]], h'.gens[h.tenants[t]]);
    }
  }

  lemma SameCounts(cfg: Config, subs: seq<Sub>, subs': seq<Sub>, g: nat, t: Gen, t': Gen)
    requires Holds(subs, g, t.conns) && Counted(subs, t) && Limited(cfg, t) && SameGen(t, t')
    requires |subs'| == |subs| && forall s :: 0 <= s < |subs| ==> SameSub(subs[s], subs'[s])
    ensures Holds(subs', g, t'.conns) && Counted(subs', t') && Limited(cfg, t')
  {
    forall s: nat ensures s in t'.conns <==> s < |subs'| && subs'[s].gen == g && !subs'[s].closed {
      if 0 <= s < |subs| { assert SameSub(subs[s], subs'[s]); }
    }
    forall u ensures UserConns(subs', t'.conns, u) == UserConns(subs, t.conns, u) {
      forall s | s in t.conns && s < |subs| ensures subs[s].user == subs'[s].user {
        assert SameSub(subs[s], subs'[s]);
      }
    }
  }

  lemma PushedSame(s: Sub, m: Msg)
    ensures SameSub(s, Pushed(s, m).0)
  {
  }

  predicate Quiet(ev: Event) {
    !(ev.Subscribe? || ev.Close? || ev.CloseStalled? || ev.CloseNext?)
  }

  lemma SetSubSame(h: State, s: nat, sub: Sub)
    requires s < |h.subs| && SameSub(h.subs[s], sub)
    ensures SameBooks(h, SetSub(h, s, sub))
  {
  }

  lemma SetGenSame(h: State, g: nat, t: Gen)
    requires g < |h.gens| && SameGen(h.gens[g], t)
    ensures SameBooks(h, SetGen(h, g, t))
  {
  }

  lemma PushSame(h: State, g: nat, t: Gen, s: nat, sub: Sub)
    requires g < |h.gens| && SameGen(h.gens[g], t) && s < |h.subs| && SameSub(h.subs[s], sub)
    ensures SameBooks(h, SetSub(SetGen(h, g, t), s, sub))
  {
  }

  lemma QuietSame(cfg: Config, h: State, ev: Event)
    requires Quiet(ev)
    ensures SameBooks(h, Next(cfg, h, ev))
  {
    hide Targets, Matching, After, Kept, Newest, First, Receivers, Id, Less, Pushed, SetSub, SetGen;
    match ev
    case BeginReplay(s, reset) =>
      if s < |h.subs| {
        hide SameBooks;
        var sub := h.subs[s];
        SetSubSame(h, s, sub);
        SetSubSame(h, s, sub.(todo := [Msg("", RESET, reset)]));
        SetSubSame(h, s,
                   sub.(todo := Matching(First(After(StreamOf(h, sub.tenant), sub.lastId), cfg.maxLen), sub.user)));
      }
      NothingSame(h);
    case Take(s) =>
      if s < |h.subs| && h.subs[s].queued > 0 { SetSubSame(h, s, h.subs[s].(queued := h.subs[s].queued - 1)); }
      NothingSame(h);
    case ReplayNext(s) =>
      if s < |h.subs| && h.subs[s].todo != [] {
        var sub := h.subs[s];
        PushedSame(sub.(todo := sub.todo[1..]), sub.todo[0]);
        SetSubSame(h, s, Pushed(sub.(todo := sub.todo[1..]), sub.todo[0]).0);
      }
      NothingSame(h);
    case Read(g, count) =>
      if g < |h.gens| {
        var t := h.gens[g];
        SetGenSame(h, g, t.(batch := First(After(StreamOf(h, t.tenant), t.last), count)));
      }
      NothingSame(h);
    case Dispatch(g) =>
      if g < |h.gens| && h.gens[g].batch != [] {
        var t := h.gens[g];
        var e := t.batch[0];
        SetGenSame(h, g,
                   t.(last := e.id, log := t.log + [e], batch := t.batch[1..], pending := Receivers(h, t.conns, e)));
      }
      NothingSame(h);
    case Push(g, s) =>
      if g < |h.gens| && h.gens[g].log != [] && s < |h.subs| {
        var t := h.gens[g];
        var (sub, ok) := Pushed(h.subs[s], MsgOf(t.log[|t.log| - 1]));
        PushedSame(h.subs[s], MsgOf(t.log[|t.log| - 1]));
        PushSame(h, g, t.(pending := t.pending - {s}, stalled := if ok then {} else {s}), s, sub);
      }
      NothingSame(h);
    case _ =>
  }

  lemma NothingSame(h: State)
    ensures SameBooks(h, h)
  {
  }

  // --------------------------------------------------------------------- subscribing

  lemma AddedUser(subs: seq<Sub>, conns: set<nat>, sub: Sub, u: string)
    requires forall s :: s in conns ==> s < |subs|
    ensures UserConns(subs + [sub], conns + {|subs|}, u) ==
            UserConns(subs, conns, u) + (if sub.user == u then {|subs|} else {})
    ensures |subs| !in UserConns(subs, conns, u)
  {
  }

  lemma WiderUser(subs: seq<Sub>, conns: set<nat>, sub: Sub, u: string)
    requires forall s :: s in conns ==> s < |subs|
    ensures UserConns(subs + [sub], conns, u) == UserConns(subs, conns, u)
  {
  }

  lemma EnteredBooks(cfg: Config, h: State, tenant: string)
    requires Usable(cfg) && Books(cfg, h)
    ensures var (h1, g) := Entered(h, tenant);
            Placed(h1.tenants, h1.gens, h1.subs) && h1.subs == h.subs && g < |h1.gens| && h1.gens[g].tenant == tenant &&
            Current(h1.tenants, h1.gens, g) &&
            (forall k :: 0 <= k < |h1.gens| && k != g ==>
               (Current(h1.tenants, h1.gens, k) <==> h1.gens[k].conns != {})) &&
            (tenant !in h.tenants ==> h1.gens[g].conns == {} && h1.gens[g].byUser == map[]) &&
            forall k :: 0 <= k < |h1.gens| ==>
              Holds(h1.subs, k, h1.gens[k].conns) && Counted(h1.subs, h1.gens[k]) && Limited(cfg, h1.gens[k])
  {
    hide Counted, Holds, Limited;
    if tenant !in h.tenants {
      var (h1, g) := Entered(h, tenant);
      FreshBooks(cfg, h, g, h1.gens[g]);
      FreshPlaces(h, tenant);
    } else {
      assert h.gens[h.tenants[tenant]].tenant == tenant;
    }
  }

  lemma FreshPlaces(h: State, tenant: string)
    requires Placed(h.tenants, h.gens, h.subs) && Registered(h.tenants, h.gens) && tenant !in h.tenants
    ensures var (h1, g) := Entered(h, tenant);
            Placed(h1.tenants, h1.gens, h1.subs) && Current(h1.tenants, h1.gens, g) &&
            forall k :: 0 <= k < |h1.gens| && k != g ==> (Current(h1.tenants, h1.gens, k) <==> h1.gens[k].conns != {})
  {
    var (h1, g) := Entered(h, tenant);
    forall k | 0 <= k < |h.gens| ensures Current(h1.tenants, h1.gens, k) <==> h1.gens[k].conns != {} {
      assert Current(h.tenants, h.gens, k) <==> h.gens[k].conns != {};
      assert h1.gens[k] == h.gens[k];
    }
  }

  lemma FreshBooks(cfg: Config, h: State, g: nat, t: Gen)
    requires Usable(cfg) && Placed(h.tenants, h.gens, h.subs) && g == |h.gens| && t.conns == {} && t.byUser == map[]
    ensures Holds(h.subs, g, t.conns) && Counted(h.subs, t) && Limited(cfg, t)
  {
    forall u ensures UserConns(h.subs, {}, u) == {} {}
  }

  /** The entry with one connection more. */
  function With(t: Gen, s: nat, user: string): Gen {
    t.(conns := t.conns + {s}, byUser := t.byUser[user := CountOf(t.byUser, user) + 1])
  }

  lemma JoinedCount(subs: seq<Sub>, t: Gen, sub: Sub, u: string)
    requires forall s :: s in t.conns ==> s < |subs|
    requires CountOf(t.byUser, u) == |UserConns(subs, t.conns, u)| && (u in t.byUser ==> t.byUser[u] > 0)
    ensures var t' := With(t, |subs|, sub.user);
            CountOf(t'.byUser, u) == |UserConns(subs + [sub], t'.conns, u)| && (u in t'.byUser ==> t'.byUser[u] > 0)
  {
    hide UserConns;
    AddedUser(subs, t.conns, sub, u);
  }

  lemma JoinedCounts(cfg: Config, subs: seq<Sub>, g: nat, t: Gen, sub: Sub)
    requires Holds(subs, g, t.conns) && Counted(subs, t) && Limited(cfg, t)
    requires sub.gen == g && !sub.closed && !Refused(cfg, t, sub.user)
    ensures var t' := With(t, |subs|, sub.user);
            Holds(subs + [sub], g, t'.conns) && Counted(subs + [sub], t') && Limited(cfg, t')
  {
    JoinedHolds(subs, g, t, sub);
    JoinedLimited(cfg, subs, g, t, sub);
    hide UserConns, Limited, With, CountOf, Refused;
    var t' := With(t, |subs|, sub.user);
    forall u ensures CountOf(t'.byUser, u) == |UserConns(subs + [sub], t'.conns, u)| &&
                     (u in t'.byUser ==> t'.byUser[u] > 0)
    {
      JoinedCount(subs, t, sub, u);
    }
  }

  lemma JoinedHolds(subs: seq<Sub>, g: nat, t: Gen, sub: Sub)
    requires Holds(subs, g, t.conns) && sub.gen == g && !sub.closed
    ensures Holds(subs + [sub], g, With(t, |subs|, sub.user).conns)
  {
  }

  lemma JoinedLimited(cfg: Config, subs: seq<Sub>, g: nat, t: Gen, sub: Sub)
    requires Holds(subs, g, t.conns) && Limited(cfg, t) && !Refused(cfg, t, sub.user)
    ensures Limited(cfg, With(t, |subs|, sub.user))
  {
  }

  lemma OthersCounts(cfg: Config, subs: seq<Sub>, g: nat, t: Gen, sub: Sub)
    requires Holds(subs, g, t.conns) && Counted(subs, t) && Limited(cfg, t) && sub.gen != g
    ensures Holds(subs + [sub], g, t.conns) && Counted(subs + [sub], t)
  {
    forall u ensures UserConns(subs + [sub], t.conns, u) == UserConns(subs, t.conns, u) {
      WiderUser(subs, t.conns, sub, u);
    }
  }

  /** A subscriber is refused by a fresh entry only under a limit that is not positive. */
  lemma FreshNeverRefused(cfg: Config, h: State, tenant: string, user: string)
    requires tenant !in h.tenants
    ensures var (h1, g) := Entered(h, tenant); Refused(cfg, h1.gens[g], user) <==> !Usable(cfg)
  {
  }

  lemma SubscribeKeeps(cfg: Config, h: State, tenant: string, user: string, lastId: string, outage: bool)
    requires Usable(cfg) && Books(cfg, h)
    ensures Books(cfg, Subscribed(cfg, h, tenant, user, lastId, outage))
  {
    hide Holds, Counted, Limited, Refused;
    var h' := Subscribed(cfg, h, tenant, user, lastId, outage);
    if !(h.cancelled || (tenant !in h.tenants && outage)) {
      var (h1, g) := Entered(h, tenant);
      EnteredBooks(cfg, h, tenant);
      var t := h1.gens[g];
      if Refused(cfg, t, user) {
        if tenant !in h.tenants { FreshNeverRefused(cfg, h, tenant, user); }
        assert Registered(h'.tenants, h'.gens);
      } else {
        var sub := Sub(tenant, user, g, |t.log|, lastId, "", false, 0, [], []);
        JoinedCounts(cfg, h1.subs, g, t, sub);
        assert h'.gens[g] == With(t, |h1.subs|, user);
        forall k | 0 <= k < |h'.gens|
          ensures Holds(h'.subs, k, h'.gens[k].conns) && Counted(h'.subs, h'.gens[k]) && Limited(cfg, h'.gens[k])
        {
          if k != g { OthersCounts(cfg, h1.subs, k, h1.gens[k], sub); }
        }
        JoinedPlaces(h1, h', g, sub);
      }
    }
  }

  lemma JoinedPlaces(h1: State, h': State, g: nat, sub: Sub)
    requires Placed(h1.tenants, h1.gens, h1.subs) && g < |h1.gens| && Current(h1.tenants, h1.gens, g)
    requires forall k :: 0 <= k < |h1.gens| && k != g ==> (Current(h1.tenants, h1.gens, k) <==> h1.gens[k].conns != {})
    requires h'.tenants == h1.tenants && h'.subs == h1.subs + [sub] && sub.gen == g && sub.tenant == h1.gens[g].tenant
    requires |h'.gens| == |h1.gens| && h'.gens[g].tenant == h1.gens[g].tenant && h'.gens[g].conns != {}
    requires forall k :: 0 <= k < |h1.gens| && k != g ==> h'.gens[k] == h1.gens[k]
    ensures Placed(h'.tenants, h'.gens, h'.subs) && Registered(h'.tenants, h'.gens)
  {
    forall k | 0 <= k < |h'.gens| ensures Current(h'.tenants, h'.gens, k) <==> h'.gens[k].conns != {} {
      assert Current(h'.tenants, h'.gens, k) <==> Current(h1.tenants, h1.gens, k);
    }
  }

  // ------------------------------------------------------------------------- closing

  lemma RemovedUser(subs: seq<Sub>, conns: set<nat>, s: nat, closed: Sub, u: string)
    requires s in conns && s < |subs| && closed.user == subs[s].user
    ensures UserConns(subs[s := closed], conns - {s}, u) ==
            UserConns(subs, conns, u) - (if subs[s].user == u then {s} else {})
    ensures subs[s].user == u ==> s in UserConns(subs, conns, u)
  {
  }

  lemma SwappedUser(subs: seq<Sub>, conns: set<nat>, s: nat, closed: Sub, u: string)
    requires s < |subs| && closed.user == subs[s].user
    ensures UserConns(subs[s := closed], conns, u) == UserConns(subs, conns, u)
  {
  }

  /** The entry after one of its connections closed. */
  function Without(t: Gen, s: nat, user: string): Gen {
    var n := CountOf(t.byUser, user) - 1;
    t.(conns := t.conns - {s}, byUser := if n <= 0 then t.byUser - {user} else t.byUser[user := n])
  }

  lemma LeftCounts(cfg: Config, subs: seq<Sub>, g: nat, t: Gen, s: nat)
    requires Holds(subs, g, t.conns) && Counted(subs, t) && Limited(cfg, t)
    requires s < |subs| && s in t.conns
    ensures var subs' := subs[s := subs[s].(closed := true)];
            var t' := Without(t, s, subs[s].user);
            Holds(subs', g, t'.conns) && Counted(subs', t') && Limited(cfg, t')
  {
    var sub := subs[s].(closed := true);
    var subs', t' := subs[s := sub], Without(t, s, sub.user);
    forall u ensures CountOf(t'.byUser, u) == |UserConns(subs', t'.conns, u)| && (u in t'.byUser ==> t'.byUser[u] > 0) {
      RemovedUser(subs, t.conns, s, sub, u);
      assert CountOf(t.byUser, u) == |UserConns(subs, t.conns, u)|;
    }
    assert Holds(subs', g, t'.conns);
    SmallerLimits(cfg, t, s, sub.user);
  }

  lemma SmallerLimits(cfg: Config, t: Gen, s: nat, user: string)
    requires Limited(cfg, t)
    ensures Limited(cfg, Without(t, s, user))
  {
    var t' := Without(t, s, user);
    assert t'.conns <= t.conns;
    SubsetSize(t'.conns, t.conns);
  }

  lemma {:induction false} SubsetSize(a: set<nat>, b: set<nat>)
    requires a <= b
    ensures |a| <= |b|
  {
    assert b == a + (b - a);
  }

  lemma UntouchedCounts(cfg: Config, subs: seq<Sub>, g: nat, t: Gen, s: nat)
    requires Holds(subs, g, t.conns) && Counted(subs, t) && Limited(cfg, t)
    requires s < |subs| && subs[s].gen != g
    ensures var subs' := subs[s := subs[s].(closed := true)]; Holds(subs', g, t.conns) && Counted(subs', t)
  {
    var sub := subs[s].(closed := true);
    forall u ensures UserConns(subs[s := sub], t.conns, u) == UserConns(subs, t.conns, u) {
      SwappedUser(subs, t.conns, s, sub, u);
    }
  }

  /** An open connection sits in the entry that its tenant has registered. */
  lemma OpenIsCurrent(cfg: Config, h: State, s: nat)
    requires Books(cfg, h) && s < |h.subs| && !h.subs[s].closed
    ensures var sub := h.subs[s];
            sub.tenant in h.tenants && h.tenants[sub.tenant] == sub.gen && sub.gen < |h.gens| &&
            s in h.gens[sub.gen].conns
  {
    var g := h.subs[s].gen;
    assert s in h.gens[g].conns;
    assert Current(h.tenants, h.gens, g);
  }

  lemma CloseKeeps(cfg: Config, h: State, s: nat)
    requires Books(cfg, h)
    ensures Books(cfg, Closed(h, s))
  {
    hide Holds, Counted, Limited;
    if s < |h.subs| && !h.subs[s].closed {
      OpenIsCurrent(cfg, h, s);
      var sub, h' := h.subs[s], Closed(h, s);
      var g := sub.gen;
      forall k | 0 <= k < |h'.gens|
        ensures Holds(h'.subs, k, h'.gens[k].conns) && Counted(h'.subs, h'.gens[k]) && Limited(cfg, h'.gens[k])
      {
        if k == g { LeftCounts(cfg, h.subs, g, h.gens[g], s); } else { UntouchedCounts(cfg, h.subs, k, h.gens[k], s); }
      }
      LeftPlaces(h, s);
    }
  }

  lemma LeftPlaces(h: State, s: nat)
    requires Placed(h.tenants, h.gens, h.subs) && Registered(h.tenants, h.gens)
    requires s < |h.subs| && !h.subs[s].closed
    requires var sub := h.subs[s];
             sub.tenant in h.tenants && h.tenants[sub.tenant] == sub.gen && sub.gen < |h.gens| &&
             s in h.gens[sub.gen].conns
    ensures var h' := Closed(h, s); Placed(h'.tenants, h'.gens, h'.subs) && Registered(h'.tenants, h'.gens)
  {
    var h', g := Closed(h, s), h.subs[s].gen;
    forall k | 0 <= k < |h'.gens| ensures Current(h'.tenants, h'.gens, k) <==> h'.gens[k].conns != {} {
      assert Current(h.tenants, h.gens, k) <==> h.gens[k].conns != {};
      assert h'.gens[k].tenant == h.gens[k].tenant;
      if k != g { assert h'.gens[k] == h.gens[k]; }
    }
  }

  // ----------------------------------------------------------------------- every step

  lemma NextKeepsBooks(cfg: Config, h: State, ev: Event)
    requires Usable(cfg) && Books(cfg, h)
    ensures Books(cfg, Next(cfg, h, ev))
  {
    hide Books, Subscribed, Closed;
    var h' := Next(cfg, h, ev);
    match ev
    case Subscribe(tenant, user, lastId, outage) => SubscribeKeeps(cfg, h, tenant, user, lastId, outage);
    case Close(s) => CloseKeeps(cfg, h, s);
    case CloseStalled(g, s) =>
      if g < |h.gens| && s in h.gens[g].stalled {
        CloseKeeps(cfg, h, s);
        SameBooksKeep(cfg, Closed(h, s), h');
      }
    case CloseNext(s) =>
      if s in h.closing {
        CloseKeeps(cfg, h, s);
        SameBooksKeep(cfg, Closed(h, s), h');
      }
    case _ =>
      QuietSame(cfg, h, ev);
      SameBooksKeep(cfg, h, h');
  }

  lemma CloseFrame(h: State, s: nat)
    ensures var h' := Closed(h, s);
            |h'.subs| == |h.subs| && h'.cancelled == h.cancelled && h'.collected == h.collected &&
            h'.closing == h.closing &&
            (s < |h.subs| ==> h'.subs[s].closed) &&
            forall k :: 0 <= k < |h.subs| && h.subs[k].closed ==> h'.subs[k].closed
  {
  }

  lemma NextKeepsClosing(cfg: Config, h: State, ev: Event)
    requires Closing(h)
    ensures Closing(Next(cfg, h, ev))
  {
    hide Targets, Matching, After, Kept, Newest, First, Receivers, Id, Less;
    match ev
    case Close(s) => CloseFrame(h, s);
    case CloseStalled(g, s) => CloseFrame(h, s);
    case CloseNext(s) => CloseFrame(h, s);
    case Subscribe(_, _, _, _) =>
    case Collect =>
    case _ =>
      QuietSame(cfg, h, ev);
      QuietClosing(cfg, h, ev);
  }

  lemma QuietClosing(cfg: Config, h: State, ev: Event)
    requires Quiet(ev) && !ev.Collect?
    ensures var h' := Next(cfg, h, ev);
            h'.collected == h.collected && h'.closing == h.closing && (h.cancelled ==> h'.cancelled)
  {
  }

  /** In every reachable state the books balance, and once Hub.Close has finished nothing is open. */
  lemma {:induction false} BooksHold(cfg: Config, states: seq<State>, events: seq<Event>, n: nat)
    requires Usable(cfg) && IsRun(cfg, states, events) && n <= |events|
    ensures Books(cfg, states[n]) && Closing(states[n])
    ensures states[n].collected && states[n].closing == {} ==> Open(states[n]) == {}
  {
    hide Next, Books;
    if n == 0 {
      EmptyBooks(cfg);
    } else {
      BooksHold(cfg, states, events, n - 1);
      assert states[n - 1 + 1] == Next(cfg, states[n - 1], events[n - 1]);
      NextKeepsBooks(cfg, states[n - 1], events[n - 1]);
      NextKeepsClosing(cfg, states[n - 1], events[n - 1]);
    }
  }

  lemma EmptyBooks(cfg: Config)
    ensures Books(cfg, EMPTY)
  {
  }
}
