/**
 * The hub that fans tenant streams out to connections (internal/stream/hub.go), as a transition system: each
 * step is one critical section of a subscriber, a reading loop, a replay, a reader or a closer.
 */
module Hub {
  import opened Stream

  const CONN_BUFFER := 32

  /** Limits; NewHub replaces a limit that is not positive by its default. */
  datatype Config = Config(perUser: int, perTenant: int, maxLen: int)

  predicate Usable(cfg: Config) { 0 < cfg.perUser && 0 < cfg.perTenant }

  function NewConfig(perUser: int, perTenant: int, maxLen: int): (cfg: Config)
    ensures Usable(cfg) && (perUser > 0 ==> cfg.perUser == perUser) && (perTenant > 0 ==> cfg.perTenant == perTenant)
  {
    Config(if perUser <= 0 then 5 else perUser, if perTenant <= 0 then 2000 else perTenant,
           if maxLen <= 0 then 10000 else maxLen)
  }

  datatype Msg = Msg(id: string, kind: string, data: string)

  const RESET := "reset"

  /**
   * One open stream: `last` is the highest id handed over, `queued` the messages in its channel, `sent` all it
   * was ever given, `gen` the tenant entry it joined after `since` dispatched entries, `todo` a replay in progress.
   */
  datatype Sub = Sub(
    tenant: string, user: string, gen: nat, since: nat, lastId: string,
    last: string, closed: bool, queued: nat, sent: seq<Msg>, todo: seq<Msg>)

  /**
   * A tenant entry with its reading loop: `log` holds the entries dispatched so far, `batch` the ones read but
   * not yet dispatched, `pending` the connections the current entry still goes to, `stalled` the one to close.
   */
  datatype Gen = Gen(
    tenant: string, conns: set<nat>, byUser: map<string, int>,
    last: string, log: seq<Entry>, batch: seq<Entry>, pending: set<nat>, stalled: set<nat>)

  /** `closing` lists the connections a running Hub.Close still has to close. */
  datatype State = State(
    cancelled: bool, tenants: map<string, nat>, gens: seq<Gen>, subs: seq<Sub>,
    streams: map<string, seq<Entry>>, count: nat, seen: int, closing: set<nat>, collected: bool)

  const EMPTY := State(false, map[], [], [], map[], 0, 0, {}, false)

  datatype Event =
    | Append(tenant: string, to: string, kind: string, data: string, now: int)
    | Trim(tenant: string, minId: string)
    | Subscribe(tenant: string, user: string, lastId: string, outage: bool)
    | BeginReplay(s: nat, reset: string)
    | ReplayNext(s: nat)
    | Read(g: nat, count: int)
    | Dispatch(g: nat)
    | Push(g: nat, s: nat)
    | CloseStalled(g: nat, s: nat)
    | Take(s: nat)
    | Close(s: nat)
    | Cancel
    | Collect
    | CloseNext(s: nat)

  // ------------------------------------------------------------------- functions

  /** The recipients of an entry, separated by commas. */
  function Recipients(to: string): seq<string> {
    if to == "" then [""]
    else
      var front := Recipients(to[..|to| - 1]);
      if to[|to| - 1] == ',' then front + [""]
      else if front == [] then [to]
      else front[..|front| - 1] + [front[|front| - 1] + [to[|to| - 1]]]
  }

  predicate Targets(to: string, user: string) { to == "*" || user in Recipients(to) }

  function MsgOf(e: Entry): Msg { Msg(e.id, e.kind, e.data) }

  /** What a user is owed of a list of entries. */
  function Matching(es: seq<Entry>, user: string): seq<Msg> {
    if es == [] then []
    else
      var e := es[|es| - 1];
      Matching(es[..|es| - 1], user) + (if Targets(e.to, user) then [MsgOf(e)] else [])
  }

  function StreamOf(h: State, tenant: string): seq<Entry> {
    if tenant in h.streams then h.streams[tenant] else []
  }

  /** What a reconnecting reader is owed of its tenant's stream. */
  function Owed(cfg: Config, h: State, sub: Sub): seq<Msg> {
    Matching(First(After(StreamOf(h, sub.tenant), sub.lastId), cfg.maxLen), sub.user)
  }

  /** Queues a message unless it was already delivered; the second result is false when the buffer is full. */
  function Pushed(s: Sub, m: Msg): (Sub, bool) {
    if s.closed || (m.id != "" && s.last != "" && !Less(s.last, m.id)) then (s, true)
    else
      var t := if m.id != "" then s.(last := m.id) else s;
      if t.queued < CONN_BUFFER then (t.(queued := t.queued + 1, sent := t.sent + [m]), true) else (t, false)
  }

  function CountOf(byUser: map<string, int>, user: string): int { if user in byUser then byUser[user] else 0 }

  /** Closing a connection: once, and the tenant entry goes with its last connection. */
  function Closed(h: State, s: nat): State {
    if s >= |h.subs| || h.subs[s].closed then h
    else
      var sub := h.subs[s];
      var h1 := h.(subs := h.subs[s := sub.(closed := true)]);
      if sub.tenant !in h.tenants || h.tenants[sub.tenant] >= |h.gens| then h1
      else
        var g := h.tenants[sub.tenant];
        var t := h.gens[g];
        var n := CountOf(t.byUser, sub.user) - 1;
        var t' := t.(conns := t.conns - {s},
                     byUser := if n <= 0 then t.byUser - {sub.user} else t.byUser[sub.user := n]);
        h1.(gens := h.gens[g := t'],
            tenants := if t'.conns == {} then h.tenants - {sub.tenant} else h.tenants)
  }

  /** The tenant's current entry, made with a fresh loop that starts at the stream's tail when there is none. */
  function Entered(h: State, tenant: string): (State, nat) {
    if tenant in h.tenants then (h, h.tenants[tenant])
    else
      var es := StreamOf(h, tenant);
      var start := if es == [] then "0-0" else es[|es| - 1].id;
      (h.(tenants := h.tenants[tenant := |h.gens|],
          gens := h.gens + [Gen(tenant, {}, map[], start, [], [], {}, {})]), |h.gens|)
  }

  predicate Refused(cfg: Config, t: Gen, user: string) {
    CountOf(t.byUser, user) >= cfg.perUser || |t.conns| >= cfg.perTenant
  }

  /** Opening a stream; a refusal leaves no connection. */
  function Subscribed(cfg: Config, h: State, tenant: string, user: string, lastId: string, outage: bool): State {
    if h.cancelled || (tenant !in h.tenants && outage) then h
    else
      var (h1, g) := Entered(h, tenant);
      if g >= |h1.gens| || Refused(cfg, h1.gens[g], user) then h1
      else
        var t := h1.gens[g];
        var s := |h1.subs|;
        h1.(gens := h1.gens[g := t.(conns := t.conns + {s}, byUser := t.byUser[user := CountOf(t.byUser, user) + 1])],
            subs := h1.subs + [Sub(tenant, user, g, |t.log|, lastId, "", false, 0, [], [])])
  }

  function Open(h: State): set<nat> { set s | 0 <= s < |h.subs| && !h.subs[s].closed }

  function Receivers(h: State, conns: set<nat>, e: Entry): set<nat> {
    set s | s in conns && s < |h.subs| && Targets(e.to, h.subs[s].user)
  }

  function SetSub(h: State, s: nat, sub: Sub): State
    requires s < |h.subs|
  {
    h.(subs := h.subs[s := sub])
  }

  function SetGen(h: State, g: nat, t: Gen): State
    requires g < |h.gens|
  {
    h.(gens := h.gens[g := t])
  }

  /** One step of any goroutine; a step whose guard fails does nothing. */
  function Next(cfg: Config, h: State, ev: Event): State {
    match ev
    case Append(tenant, to, kind, data, now) =>
      var e := Entry(Id(now, h.count + 1), to, kind, data);
      h.(count := h.count + 1, seen := now,
         streams := h.streams[tenant := Newest(StreamOf(h, tenant) + [e], cfg.maxLen)])
    case Trim(tenant, minId) => h.(streams := h.streams[tenant := Kept(StreamOf(h, tenant), minId)])
    case Subscribe(tenant, user, lastId, outage) => Subscribed(cfg, h, tenant, user, lastId, outage)
    case BeginReplay(s, reset) =>
      if s < |h.subs| && h.subs[s].lastId != "" && h.subs[s].todo == [] then
        var sub := h.subs[s];
        SetSub(h, s, sub.(todo := if reset != "" then [Msg("", RESET, reset)] else Owed(cfg, h, sub)))
      else h
    case ReplayNext(s) =>
      if s < |h.subs| && h.subs[s].todo != [] then
        var sub := h.subs[s];
        SetSub(h, s, Pushed(sub.(todo := sub.todo[1..]), sub.todo[0]).0)
      else h
    case Read(g, count) =>
      if g < |h.gens| && h.gens[g].batch == [] then
        var t := h.gens[g];
        SetGen(h, g, t.(batch := First(After(StreamOf(h, t.tenant), t.last), count)))
      else h
    case Dispatch(g) =>
      if g < |h.gens| && h.gens[g].batch != [] && h.gens[g].pending == {} && h.gens[g].stalled == {} then
        var t := h.gens[g];
        var e := t.batch[0];
        SetGen(h, g, t.(last := e.id, log := t.log + [e], batch := t.batch[1..],
                        pending := Receivers(h, t.conns, e)))
      else h
    case Push(g, s) =>
      if g < |h.gens| && s in h.gens[g].pending && h.gens[g].stalled == {} && h.gens[g].log != [] && s < |h.subs| then
        var t := h.gens[g];
        var (sub, ok) := Pushed(h.subs[s], MsgOf(t.log[|t.log| - 1]));
        SetSub(SetGen(h, g, t.(pending := t.pending - {s}, stalled := if ok then {} else {s})), s, sub)
      else h
    case CloseStalled(g, s) =>
      if g < |h.gens| && s in h.gens[g].stalled then
        var h1 := Closed(h, s);
        if g < |h1.gens| then SetGen(h1, g, h1.gens[g].(stalled := h1.gens[g].stalled - {s})) else h1
      else h
    case Take(s) =>
      if s < |h.subs| && h.subs[s].queued > 0 then SetSub(h, s, h.subs[s].(queued := h.subs[s].queued - 1)) else h
    case Close(s) => Closed(h, s)
    case Cancel => h.(cancelled := true)
    case Collect => if h.cancelled then h.(closing := h.closing + Open(h), collected := true) else h
    case CloseNext(s) => if s in h.closing then Closed(h, s).(closing := h.closing - {s}) else h
  }

  /** A run: a state before and after every event. */
  ghost predicate IsRun(cfg: Config, states: seq<State>, events: seq<Event>) {
    |states| == |events| + 1 && states[0] == EMPTY &&
    forall i :: 0 <= i < |events| ==> states[i + 1] == Next(cfg, states[i], events[i])
  }
}
