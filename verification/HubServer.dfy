/** The hub's critical sections as they run on its fields (internal/stream/hub.go), each one step of the protocol. */
module HubServer {
  import opened Stream
  import opened Hub
  import opened HubTargets
  import B = HubBooks

  datatype Answer = Opened(s: nat) | HubClosed | Outage | TooMany

  class Server {
    const cfg: Config
    var cancelled: bool
    var tenants: map<string, nat>
    var gens: seq<Gen>
    var subs: seq<Sub>
    var streams: map<string, seq<Entry>>
    var count: nat
    var seen: int

    function Now(): State
      reads this
    {
      State(cancelled, tenants, gens, subs, streams, count, seen, {}, false)
    }

    constructor (cfg: Config)
      ensures this.cfg == cfg && Now() == EMPTY
    {
      this.cfg := cfg;
      cancelled, tenants, gens, subs := false, map[], [], [];
      streams, count, seen := map[], 0, 0;
    }

    /** Opening a stream: the entry and its loop are made first, the limits are checked after. */
    method Subscribe(tenant: string, user: string, lastId: string, outage: bool) returns (a: Answer)
      requires forall t :: t in tenants ==> tenants[t] < |gens|
      modifies this`tenants, this`gens, this`subs
      ensures Now() == Subscribed(cfg, old(Now()), tenant, user, lastId, outage)
      ensures a.Opened? ==> a.s == |old(subs)| && |subs| == a.s + 1 && subs[..a.s] == old(subs)
      ensures a.Opened? ==> subs[a.s].tenant == tenant && subs[a.s].user == user && subs[a.s].lastId == lastId &&
                            !subs[a.s].closed && subs[a.s].sent == [] && subs[a.s].last == ""
      ensures !a.Opened? ==> subs == old(subs)
      ensures a == HubClosed <==> cancelled
    {
      if cancelled { return HubClosed; }
      if tenant !in tenants {
        if outage { return Outage; }
        var es := StreamOf(Now(), tenant);
        var start := if es == [] then "0-0" else es[|es| - 1].id;
        tenants := tenants[tenant := |gens|];
        gens := gens + [Gen(tenant, {}, map[], start, [], [], {}, {})];
      }
      var g := tenants[tenant];
      var t := gens[g];
      if CountOf(t.byUser, user) >= cfg.perUser || |t.conns| >= cfg.perTenant { return TooMany; }
      var s := |subs|;
      subs := subs + [Sub(tenant, user, g, |t.log|, lastId, "", false, 0, [], [])];
      gens := gens[g := t.(conns := t.conns + {s}, byUser := t.byUser[user := CountOf(t.byUser, user) + 1])];
      a := Opened(s);
    }

    /** push: under the connection's lock, so the closed check and the send are one step. */
    method Send(s: nat, m: Msg) returns (ok: bool)
      requires s < |subs|
      modifies this`subs
      ensures Now() == SetSub(old(Now()), s, Pushed(old(subs[s]), m).0) && ok == Pushed(old(subs[s]), m).1
    {
      var sub := subs[s];
      if sub.closed || (m.id != "" && sub.last != "" && !Less(sub.last, m.id)) {
        assert subs[s := sub] == subs;
        return true;
      }
      if m.id != "" { sub := sub.(last := m.id); }
      ok := sub.queued < CONN_BUFFER;
      if ok { sub := sub.(queued := sub.queued + 1, sent := sub.sent + [m]); }
      subs := subs[s := sub];
    }

    method CloseOne(s: nat)
      requires s < |subs|
      modifies this`tenants, this`gens, this`subs
      ensures Now() == Closed(old(Now()), s)
    {
      var sub := subs[s];
      if sub.closed { return; }
      subs := subs[s := sub.(closed := true)];
      if sub.tenant in tenants && tenants[sub.tenant] < |gens| {
        var g := tenants[sub.tenant];
        var t := gens[g];
        var n := CountOf(t.byUser, sub.user) - 1;
        t := t.(conns := t.conns - {s}, byUser := if n <= 0 then t.byUser - {sub.user} else t.byUser[sub.user := n]);
        gens := gens[g := t];
        if t.conns == {} { tenants := tenants - {sub.tenant}; }
      }
    }

    /** The first half of dispatch: the connections of the entry that the next stream entry goes to. */
    method Collect(g: nat) returns (e: Entry)
      requires g < |gens| && gens[g].batch != [] && gens[g].pending == {} && gens[g].stalled == {}
      modifies this`gens
      ensures Now() == Next(cfg, old(Now()), Dispatch(g)) && e == old(gens[g].batch[0])
      ensures forall s :: s in gens[g].pending <==>
                s in old(gens[g].conns) && s < |subs| && Addressed(e.to, subs[s].user)
    {
      hide Targets, Addressed;
      var t := gens[g];
      e := t.batch[0];
      forall s | 0 <= s < |subs| ensures Targets(e.to, subs[s].user) <==> Addressed(e.to, subs[s].user) {
        TargetsExactly(e.to, subs[s].user);
      }
      var rest, found: set<nat> := t.conns, {};
      while rest != {}
        invariant rest <= t.conns
        invariant found == Receivers(Now(), t.conns - rest, e)
        decreases rest
        modifies {}
      {
        var s :| s in rest;
        if s < |subs| && Targets(e.to, subs[s].user) { found := found + {s}; }
        rest := rest - {s};
      }
      assert t.conns - rest == t.conns;
      gens := gens[g := t.(last := e.id, log := t.log + [e], batch := t.batch[1..], pending := found)];
    }

    /** Hub.Close: no new streams, then every connection found under the lock is closed. */
    method Shutdown()
      requires B.Books(cfg, Now())
      modifies this`cancelled, this`tenants, this`gens, this`subs
      ensures cancelled && Open(Now()) == {} && tenants == map[]
      ensures |subs| == |old(subs)| && B.Books(cfg, Now())
    {
      cancelled := true;
      ghost var h := Now();
      B.SameBooksKeep(cfg, old(Now()), h);
      var todo := Connections();
      while todo != {}
        invariant |subs| == |old(subs)| && cancelled && B.Books(cfg, Now())
        invariant forall s :: s in todo ==> s < |subs|
        invariant forall s :: 0 <= s < |subs| && !subs[s].closed ==> s in todo
        decreases todo
      {
        var s :| s in todo;
        ghost var before := Now();
        CloseOne(s);
        B.CloseKeeps(cfg, before, s);
        B.CloseFrame(before, s);
        todo := todo - {s};
      }
      NothingRegistered(cfg, Now());
    }

    /** Every connection of every entry. */
    method Connections() returns (found: set<nat>)
      requires B.Books(cfg, Now())
      ensures found == Open(Now())
    {
      hide B.Books;
      var names := tenants.Keys;
      found := {};
      while names != {}
        invariant names <= tenants.Keys
        invariant forall s: nat :: s in found <==>
                    s < |subs| && !subs[s].closed && subs[s].tenant in tenants.Keys - names
        decreases names
      {
        var t :| t in names;
        EntryHolds(cfg, Now(), t);
        found := found + gens[tenants[t]].conns;
        names := names - {t};
      }
      forall s | 0 <= s < |subs| && !subs[s].closed ensures subs[s].tenant in tenants {
        B.OpenIsCurrent(cfg, Now(), s);
      }
    }
  }

  /** A registered entry holds exactly its tenant's open connections. */
  lemma EntryHolds(cfg: Config, h: State, tenant: string)
    requires B.Books(cfg, h) && tenant in h.tenants
    ensures h.tenants[tenant] < |h.gens|
    ensures forall s: nat :: s in h.gens[h.tenants[tenant]].conns <==>
                               s < |h.subs| && !h.subs[s].closed && h.subs[s].tenant == tenant
  {
    var g := h.tenants[tenant];
    assert B.Holds(h.subs, g, h.gens[g].conns);
    forall s: nat | s < |h.subs| && !h.subs[s].closed && h.subs[s].tenant == tenant ensures h.subs[s].gen == g {
      B.OpenIsCurrent(cfg, h, s);
    }
  }

  lemma NothingRegistered(cfg: Config, h: State)
    requires B.Books(cfg, h) && forall s :: 0 <= s < |h.subs| ==> h.subs[s].closed
    ensures h.tenants == map[]
  {
    forall g | 0 <= g < |h.gens| ensures h.gens[g].conns == {} {
      assert B.Holds(h.subs, g, h.gens[g].conns);
    }
    forall t ensures t !in h.tenants {
      if t in h.tenants { assert false; }
    }
  }
}
