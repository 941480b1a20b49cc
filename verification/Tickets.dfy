/**
 * The ticket service: status, priority and assignee changes read the ticket, write it, and append the
 * change to the history. Over every run of the service the history is a faithful log of each ticket.
 */
module Tickets {
  import opened Rows
  import opened Text
  import opened Listing
  import S = Store
  import V = StoreValid
  import opened Memstore

  // ----------------------------------------------------------- one call's effect

  /** Which of a call's three store calls fail. */
  datatype Faults = Faults(get: bool, write: bool, log: bool)

  /** What a call brings along: who acts, the minted history id, the service clock. */
  datatype Caller = Caller(tenant: string, actorKind: string, actorId: string, historyId: string, now: Time)

  /** An unchanged value is not recorded. */
  function Log(s: S.Db, c: Caller, ticket: string, field: string, old_: string, new_: string, fails: bool): S.Db {
    if old_ == new_ || fails then s
    else S.AppendHistory(s,
                         History(c.historyId, c.tenant, ticket, field, old_, new_, c.actorKind, c.actorId, c.now),
                         c.now).db
  }

  function SetStatusAs(s: S.Db, c: Caller, id: string, status: string, f: Faults): S.Db {
    if status !in STATUSES || f.get || !S.HasTicket(s, c.tenant, id) then s
    else
      var before := s.tickets[id];
      if before.status == status || f.write then s
      else
        var t := S.SetStatus(s, c.tenant, id, status, c.now, c.now).db;
        Log(t, c, id, FIELD_STATUS, before.status, t.tickets[id].status, f.log)
  }

  function SetPriorityAs(s: S.Db, c: Caller, id: string, priority: string, f: Faults): S.Db {
    if priority !in PRIORITIES || f.get || !S.HasTicket(s, c.tenant, id) then s
    else
      var before := s.tickets[id];
      if before.priority == priority || f.write then s
      else
        var t := S.UpdateTicket(s, c.tenant, id, Patch(None, None, Some(priority)), c.now, c.now).db;
        Log(t, c, id, FIELD_PRIORITY, before.priority, t.tickets[id].priority, f.log)
  }

  function Update(s: S.Db, c: Caller, id: string, p: Patch, f: Faults): S.Db {
    if (p.priority.Some? && p.priority.value !in PRIORITIES) || f.get || !S.HasTicket(s, c.tenant, id) || f.write then s
    else
      var before := s.tickets[id];
      var t := S.UpdateTicket(s, c.tenant, id, p, c.now, c.now).db;
      Log(t, c, id, FIELD_PRIORITY, before.priority, t.tickets[id].priority, f.log)
  }

  /** The directory answers the display name of an assignable agent, or None. */
  function AssignAs(s: S.Db, c: Caller, id: string, assignee: string, name: Option<string>, f: Faults): S.Db {
    if f.get || !S.HasTicket(s, c.tenant, id) || (assignee != "" && name.None?) then s
    else
      var before := s.tickets[id];
      if before.assignee == assignee && (assignee == "" || before.assigneeName == name.value) then s
      else if f.write then s
      else
        var t := S.SetAssignee(s, c.tenant, id, assignee, if assignee == "" then "" else name.value, c.now, c.now).db;
        Log(t, c, id, FIELD_ASSIGNEE, before.assignee, t.tickets[id].assignee, f.log)
  }

  /** The history is as it was, or says who changed the field from what to what, and when. */
  predicate Notes(a: seq<History>, b: seq<History>, c: Caller, ticket: string, field: string, was: string,
                  is_: string) {
    b == a ||
    (was != is_ && |b| == |a| + 1 && a <= b &&
     var h := b[|a|];
     h.id == c.historyId && h.tenant == c.tenant && h.ticket == ticket && h.field == field && h.oldValue == was &&
     h.newValue == is_ && h.actorKind == c.actorKind && h.actorId == c.actorId && h.createdAt == c.now)
  }

  // ------------------------------------------------------------------ the service

  class Service {
    const st: Mem

    constructor (st: Mem)
      ensures this.st == st
    {
      this.st := st;
    }

    method Append(c: Caller, ticket: string, field: string, old_: string, new_: string) returns (out: S.Outcome)
      modifies st`history, st`failNext
      ensures st.failNext <= old(st.failNext)
      ensures st.State() == Log(old(st.State()), c, ticket, field, old_, new_, "AppendHistory" in old(st.failNext))
      ensures old(st.failNext) == {} && S.HasTicket(old(st.State()), c.tenant, ticket) ==> out == S.Done
      ensures Notes(old(st.history), st.history, c, ticket, field, old_, new_)
    {
      if old_ == new_ { return S.Done; }
      out := st.AppendHistory(History(c.historyId, c.tenant, ticket, field, old_, new_, c.actorKind, c.actorId, c.now),
                              c.now);
    }

    method SetStatus(c: Caller, id: string, status: string) returns (out: S.Outcome)
      modifies st`tickets, st`history, st`failNext
      ensures st.failNext <= old(st.failNext)
      ensures st.State() ==
              SetStatusAs(old(st.State()), c, id, status,
                          Faults("GetTicket" in old(st.failNext), "SetStatus" in old(st.failNext),
                                 "AppendHistory" in old(st.failNext)))
      ensures out == S.Done ==> S.HasTicket(st.State(), c.tenant, id) && st.tickets[id].status == status
      ensures S.HasTicket(old(st.State()), c.tenant, id) ==>
                id in st.tickets &&
                Notes(old(st.history), st.history, c, id, "status", old(st.tickets[id].status), st.tickets[id].status)
      ensures old(st.failNext) == {} ==>
                (out == S.Done <==> status in STATUSES && S.HasTicket(old(st.State()), c.tenant, id))
    {
      if status !in STATUSES { return S.NotFound; }
      var before;
      out, before := st.GetTicket(c.tenant, id);
      if out != S.Done { return; }
      if before.value.status == status { return S.Done; }
      out := st.SetStatus(c.tenant, id, status, c.now, c.now);
      if out != S.Done { return; }
      out := Append(c, id, FIELD_STATUS, before.value.status, st.tickets[id].status);
    }

    method SetPriority(c: Caller, id: string, priority: string) returns (out: S.Outcome)
      modifies st`tickets, st`history, st`failNext
      ensures st.failNext <= old(st.failNext)
      ensures st.State() ==
              SetPriorityAs(old(st.State()), c, id, priority,
                            Faults("GetTicket" in old(st.failNext), "UpdateTicket" in old(st.failNext),
                                   "AppendHistory" in old(st.failNext)))
      ensures out == S.Done ==> S.HasTicket(st.State(), c.tenant, id) && st.tickets[id].priority == priority
      ensures S.HasTicket(old(st.State()), c.tenant, id) ==>
                id in st.tickets && Notes(old(st.history), st.history, c, id, "priority",
                                          old(st.tickets[id].priority), st.tickets[id].priority)
      ensures old(st.failNext) == {} ==>
                (out == S.Done <==> priority in PRIORITIES && S.HasTicket(old(st.State()), c.tenant, id))
    {
      if priority !in PRIORITIES { return S.NotFound; }
      var before;
      out, before := st.GetTicket(c.tenant, id);
      if out != S.Done { return; }
      if before.value.priority == priority { return S.Done; }
      out := st.UpdateTicket(c.tenant, id, Patch(None, None, Some(priority)), c.now, c.now);
      if out != S.Done { return; }
      out := Append(c, id, FIELD_PRIORITY, before.value.priority, st.tickets[id].priority);
    }

    method UpdateFields(c: Caller, id: string, p: Patch) returns (out: S.Outcome)
      modifies st`tickets, st`history, st`failNext
      ensures st.failNext <= old(st.failNext)
      ensures st.State() ==
              Update(old(st.State()), c, id, p,
                     Faults("GetTicket" in old(st.failNext), "UpdateTicket" in old(st.failNext),
                            "AppendHistory" in old(st.failNext)))
      ensures out == S.Done ==> S.HasTicket(old(st.State()), c.tenant, id) && id in st.tickets &&
                                st.tickets[id] == S.Patched(old(st.tickets[id]), p, OrNow(c.now, c.now))
      ensures S.HasTicket(old(st.State()), c.tenant, id) ==>
                id in st.tickets && Notes(old(st.history), st.history, c, id, "priority",
                                          old(st.tickets[id].priority), st.tickets[id].priority)
    {
      if p.priority.Some? && p.priority.value !in PRIORITIES { return S.NotFound; }
      var before;
      out, before := st.GetTicket(c.tenant, id);
      if out != S.Done { return; }
      out := st.UpdateTicket(c.tenant, id, p, c.now, c.now);
      if out != S.Done { return; }
      out := Append(c, id, FIELD_PRIORITY, before.value.priority, st.tickets[id].priority);
    }

    method Assign(c: Caller, id: string, assignee: string, name: Option<string>) returns (out: S.Outcome)
      modifies st`tickets, st`history, st`failNext
      ensures st.failNext <= old(st.failNext)
      ensures st.State() ==
              AssignAs(old(st.State()), c, id, assignee, name,
                       Faults("GetTicket" in old(st.failNext), "SetAssignee" in old(st.failNext),
                              "AppendHistory" in old(st.failNext)))
      ensures out == S.Done ==> S.HasTicket(st.State(), c.tenant, id) && st.tickets[id].assignee == assignee
      ensures out == S.Done && assignee != "" ==> name.Some? && st.tickets[id].assigneeName == name.value
      ensures S.HasTicket(old(st.State()), c.tenant, id) ==>
                id in st.tickets && Notes(old(st.history), st.history, c, id, "assignee",
                                          old(st.tickets[id].assignee), st.tickets[id].assignee)
      ensures old(st.failNext) == {} ==>
                (out == S.Done <==> S.HasTicket(old(st.State()), c.tenant, id) && (assignee == "" || name.Some?))
    {
      var before;
      out, before := st.GetTicket(c.tenant, id);
      if out != S.Done { return; }
      if assignee != "" && name.None? { return S.NotFound; }
      if before.value.assignee == assignee && (assignee == "" || before.value.assigneeName == name.value) {
        return S.Done;
      }
      var shown := "";
      if assignee != "" { shown := name.value; }
      out := st.SetAssignee(c.tenant, id, assignee, shown, c.now, c.now);
      if out != S.Done { return; }
      out := Append(c, id, FIELD_ASSIGNEE, before.value.assignee, st.tickets[id].assignee);
    }
  }

  // ------------------------------------------------------------------- whole runs

  /** Operations that change neither status, priority, assignee nor history. */
  predicate Neutral(op: S.Op) {
    op.OpCreateComment? || op.OpSetDelivery? || op.OpDeleteComment? ||
    op.OpCreateAttachment? || op.OpDeleteAttachments? ||
    op.OpCreateTag? || op.OpUpdateTag? || op.OpDeleteTag? || op.OpSetTicketTags? || op.OpAddTicketTags? ||
    op.OpCreateRule? || op.OpUpdateRule? || op.OpDeleteRule? || op.OpCreateMailbox? || op.OpUpdateMailbox? ||
    op.OpDeleteMailbox?
  }

  /** One call on the service, by an agent, a rule or the inbound edge, or another part of the system. */
  datatype Call =
    | Open(t: Ticket, now: Time)
    | Status(c: Caller, id: string, status: string, f: Faults)
    | Priority(c: Caller, id: string, priority: string, f: Faults)
    | Edit(c: Caller, id: string, p: Patch, f: Faults)
    | Assigned(c: Caller, id: string, assignee: string, name: Option<string>, f: Faults)
    | Delete(tenant: string, id: string)
    | Other(op: S.Op)

  datatype Birth = Birth(status: string, priority: string, assignee: string)

  /** The store, and each ticket's values when it was created. */
  datatype World = World(db: S.Db, born: map<string, Birth>)

  /** Tickets are opened unresolved; a history write never fails. */
  predicate Proper(call: Call) {
    match call
    case Open(t, _) => t.status != STATUS_RESOLVED && t.resolvedAt.None?
    case Status(_, _, _, f) => !f.log
    case Priority(_, _, _, f) => !f.log
    case Edit(_, _, _, f) => !f.log
    case Assigned(_, _, _, _, f) => !f.log
    case Delete(_, _) => true
    case Other(op) => Neutral(op)
  }

  function Serve(cs: Casing, w: World, call: Call): World {
    match call
    case Open(t, now) =>
      var r := S.CreateTicket(w.db, t, now);
      if r.out == S.Done then
        var row := r.db.tickets[t.id];
        World(r.db, w.born[t.id := Birth(row.status, row.priority, row.assignee)])
      else w
    case Status(c, id, status, f) => w.(db := SetStatusAs(w.db, c, id, status, f))
    case Priority(c, id, priority, f) => w.(db := SetPriorityAs(w.db, c, id, priority, f))
    case Edit(c, id, p, f) => w.(db := Update(w.db, c, id, p, f))
    case Assigned(c, id, a, name, f) => w.(db := AssignAs(w.db, c, id, a, name, f))
    case Delete(tenant, id) => w.(db := S.DeleteTicket(w.db, tenant, id).db)
    case Other(op) => w.(db := S.Apply(cs, w.db, op))
  }

  function ServeAll(cs: Casing, w: World, calls: seq<Call>): World {
    if calls == [] then w else Serve(cs, ServeAll(cs, w, calls[..|calls| - 1]), calls[|calls| - 1])
  }

  // --------------------------------------------------------------- the faithful log

  /** The rows of one ticket and one field, oldest first. */
  function RowsFor(h: seq<History>, ticket: string, field: string): seq<History> {
    if h == [] then []
    else
      var before, r := RowsFor(h[..|h| - 1], ticket, field), h[|h| - 1];
      if r.ticket == ticket && r.field == field then before + [r] else before
  }

  function Replay(start: string, rows: seq<History>): string {
    if rows == [] then start else rows[|rows| - 1].newValue
  }

  /** Each row starts where the one before it ended, and changes something. */
  predicate Chain(start: string, rows: seq<History>) {
    forall i :: 0 <= i < |rows| ==>
      rows[i].oldValue == Replay(start, rows[..i]) && rows[i].oldValue != rows[i].newValue
  }

  predicate Logged(start: string, h: seq<History>, ticket: string, field: string, current: string) {
    Chain(start, RowsFor(h, ticket, field)) && Replay(start, RowsFor(h, ticket, field)) == current
  }

  predicate TicketLogged(w: World, id: string)
    requires id in w.db.tickets && id in w.born
  {
    var t, b := w.db.tickets[id], w.born[id];
    && Logged(b.status, w.db.history, id, FIELD_STATUS, t.status)
    && Logged(b.priority, w.db.history, id, FIELD_PRIORITY, t.priority)
    && Logged(b.assignee, w.db.history, id, FIELD_ASSIGNEE, t.assignee)
    && (t.resolvedAt.Some? <==> t.status == STATUS_RESOLVED)
  }

  predicate Faithful(w: World) {
    && (forall k :: k in w.db.tickets ==> w.db.tickets[k].id == k && k in w.born && TicketLogged(w, k))
    && (forall i :: 0 <= i < |w.db.history| ==> w.db.history[i].ticket in w.db.tickets)
  }

  lemma {:induction false} RowsForNone(h: seq<History>, ticket: string, field: string)
    requires forall i :: 0 <= i < |h| ==> h[i].ticket != ticket
    ensures RowsFor(h, ticket, field) == []
  {
    if h != [] { RowsForNone(h[..|h| - 1], ticket, field); }
  }

  lemma {:induction false} RowsForWithout(h: seq<History>, gone: string, ticket: string, field: string)
    requires ticket != gone
    ensures RowsFor(S.HistoryWithout(h, gone), ticket, field) == RowsFor(h, ticket, field)
  {
    if h != [] { RowsForWithout(h[..|h| - 1], gone, ticket, field); }
  }

  /** Recording a change extends the log of its ticket and field. */
  lemma LogExtends(start: string, h: seq<History>, r: History)
    requires Logged(start, h, r.ticket, r.field, r.oldValue) && r.oldValue != r.newValue
    ensures Logged(start, h + [r], r.ticket, r.field, r.newValue)
  {
    assert (h + [r])[..|h|] == h;
    var rows := RowsFor(h, r.ticket, r.field);
    assert RowsFor(h + [r], r.ticket, r.field) == rows + [r];
    hide RowsFor;
    ChainExtends(start, rows, r);
  }

  lemma ChainExtends(start: string, rows: seq<History>, r: History)
    requires Chain(start, rows) && Replay(start, rows) == r.oldValue && r.oldValue != r.newValue
    ensures Chain(start, rows + [r])
  {
    hide Replay;
    var all := rows + [r];
    forall i | 0 <= i < |all| ensures all[i].oldValue == Replay(start, all[..i]) && all[i].oldValue != all[i].newValue {
      if i < |rows| { assert all[..i] == rows[..i] && all[i] == rows[i]; } else { assert all[..i] == rows; }
    }
  }

  lemma LogKept(start: string, h: seq<History>, r: History, ticket: string, field: string, current: string)
    requires Logged(start, h, ticket, field, current) && (r.ticket != ticket || r.field != field)
    ensures Logged(start, h + [r], ticket, field, current)
  {
    assert (h + [r])[..|h|] == h;
  }

  /** One ticket row rewritten and one history row added for it. */
  lemma ChangeLogged(w: World, id: string, t: Ticket, r: History)
    requires Faithful(w) && id in w.db.tickets && t.id == id && r.ticket == id
    requires r.oldValue != r.newValue && (t.resolvedAt.Some? <==> t.status == STATUS_RESOLVED)
    requires var b := w.db.tickets[id];
             || (r.field == FIELD_STATUS && r.oldValue == b.status && r.newValue == t.status &&
                 t.priority == b.priority && t.assignee == b.assignee)
             || (r.field == FIELD_PRIORITY && r.oldValue == b.priority && r.newValue == t.priority &&
                 t.status == b.status && t.assignee == b.assignee)
             || (r.field == FIELD_ASSIGNEE && r.oldValue == b.assignee && r.newValue == t.assignee &&
                 t.status == b.status && t.priority == b.priority)
    ensures Faithful(w.(db := w.db.(tickets := w.db.tickets[id := t], history := w.db.history + [r])))
  {
    hide Logged;
    var v := w.(db := w.db.(tickets := w.db.tickets[id := t], history := w.db.history + [r]));
    forall k | k in v.db.tickets ensures TicketLogged(v, k) {
      assert TicketLogged(w, k);
      var h, b := w.db.history, w.born[k];
      var o := w.db.tickets[k];
      if k == id && r.field == FIELD_STATUS { LogExtends(b.status, h, r); }
      else { LogKept(b.status, h, r, k, FIELD_STATUS, o.status); }
      if k == id && r.field == FIELD_PRIORITY { LogExtends(b.priority, h, r); }
      else { LogKept(b.priority, h, r, k, FIELD_PRIORITY, o.priority); }
      if k == id && r.field == FIELD_ASSIGNEE { LogExtends(b.assignee, h, r); }
      else { LogKept(b.assignee, h, r, k, FIELD_ASSIGNEE, o.assignee); }
    }
  }

  /** Rewriting tickets without touching the logged values. */
  lemma RewriteLogged(w: World, db: S.Db)
    requires Faithful(w) && db.history == w.db.history && db.tickets.Keys == w.db.tickets.Keys
    requires forall k :: k in db.tickets ==>
               db.tickets[k].id == k && db.tickets[k].status == w.db.tickets[k].status &&
               db.tickets[k].priority == w.db.tickets[k].priority &&
               db.tickets[k].assignee == w.db.tickets[k].assignee &&
               (db.tickets[k].resolvedAt.Some? <==> w.db.tickets[k].resolvedAt.Some?)
    ensures Faithful(w.(db := db))
  {
    hide Logged;
    forall k | k in db.tickets ensures TicketLogged(w.(db := db), k) { assert TicketLogged(w, k); }
  }

  lemma StatusLogged(w: World, c: Caller, id: string, status: string, f: Faults)
    requires Faithful(w) && !f.log
    ensures Faithful(w.(db := SetStatusAs(w.db, c, id, status, f)))
  {
    hide TicketLogged;
    var d := SetStatusAs(w.db, c, id, status, f);
    if d != w.db {
      var o := w.db.tickets[id];
      var t := S.Moved(o, status, OrNow(c.now, c.now));
      ChangeLogged(w, id, t,
                   History(c.historyId, c.tenant, id, FIELD_STATUS, o.status, status, c.actorKind, c.actorId, c.now));
    }
  }

  lemma PriorityLogged(w: World, c: Caller, id: string, p: Patch, f: Faults)
    requires Faithful(w) && !f.log
    ensures Faithful(w.(db := Update(w.db, c, id, p, f)))
  {
    hide Logged, PRIORITIES;
    var d := Update(w.db, c, id, p, f);
    if d != w.db {
      assert TicketLogged(w, id);
      var o := w.db.tickets[id];
      var t := S.Patched(o, p, OrNow(c.now, c.now));
      hide TicketLogged;
      if o.priority == t.priority {
        RewriteLogged(w, d);
      } else {
        ChangeLogged(w, id, t,
                     History(c.historyId, c.tenant, id, FIELD_PRIORITY, o.priority, t.priority, c.actorKind, c.actorId,
                             c.now));
      }
    }
  }

  lemma SetPriorityIsUpdate(s: S.Db, c: Caller, id: string, priority: string, f: Faults)
    ensures SetPriorityAs(s, c, id, priority, f) == s ||
            SetPriorityAs(s, c, id, priority, f) == Update(s, c, id, Patch(None, None, Some(priority)), f)
  {
  }

  lemma AssigneeLogged(w: World, c: Caller, id: string, assignee: string, name: Option<string>, f: Faults)
    requires Faithful(w) && !f.log
    ensures Faithful(w.(db := AssignAs(w.db, c, id, assignee, name, f)))
  {
    hide Logged;
    var d := AssignAs(w.db, c, id, assignee, name, f);
    if d != w.db {
      assert TicketLogged(w, id);
      var o, t := w.db.tickets[id], d.tickets[id];
      hide TicketLogged;
      if o.assignee == assignee {
        RewriteLogged(w, d);
      } else {
        ChangeLogged(w, id, t,
                     History(c.historyId, c.tenant, id, FIELD_ASSIGNEE, o.assignee, assignee, c.actorKind, c.actorId,
                             c.now));
      }
    }
  }

  lemma OpenLogged(cs: Casing, w: World, t: Ticket, now: Time)
    requires Faithful(w) && t.status != STATUS_RESOLVED && t.resolvedAt.None?
    ensures Faithful(Serve(cs, w, Open(t, now)))
  {
    hide Logged, S.ExternalTaken, S.MailboxKnown;
    var v := Serve(cs, w, Open(t, now));
    if v != w {
      forall k | k in v.db.tickets ensures TicketLogged(v, k) {
        if k == t.id {
          BirthLogged(v.db.history, k, FIELD_STATUS, v.db.tickets[k].status);
          BirthLogged(v.db.history, k, FIELD_PRIORITY, v.db.tickets[k].priority);
          BirthLogged(v.db.history, k, FIELD_ASSIGNEE, v.db.tickets[k].assignee);
        } else {
          assert TicketLogged(w, k);
        }
      }
    }
  }

  lemma BirthLogged(h: seq<History>, ticket: string, field: string, value: string)
    requires forall i :: 0 <= i < |h| ==> h[i].ticket != ticket
    ensures Logged(value, h, ticket, field, value)
  {
    RowsForNone(h, ticket, field);
  }

  lemma DeleteLogged(w: World, tenant: string, id: string)
    requires Faithful(w)
    ensures Faithful(w.(db := S.DeleteTicket(w.db, tenant, id).db))
  {
    hide Chain, Replay;
    var v := w.(db := S.DeleteTicket(w.db, tenant, id).db);
    if v.db != w.db {
      V.HistoryWithoutIs(w.db.history, id);
      forall k | k in v.db.tickets ensures TicketLogged(v, k) {
        assert TicketLogged(w, k);
        RowsForWithout(w.db.history, id, k, FIELD_STATUS);
        RowsForWithout(w.db.history, id, k, FIELD_PRIORITY);
        RowsForWithout(w.db.history, id, k, FIELD_ASSIGNEE);
      }
    }
  }

  lemma NeutralTouchesNoTicket(cs: Casing, s: S.Db, op: S.Op)
    requires Neutral(op) && !op.OpCreateComment? && !op.OpDeleteComment? && !op.OpDeleteMailbox?
    ensures S.Apply(cs, s, op).tickets == s.tickets && S.Apply(cs, s, op).history == s.history
  {
    hide S.NameTaken, S.AddressTaken, S.NormAddr, S.KeyTaken, S.CommentMatches, S.TagsKnown, S.LinksWithout;
  }

  /** Same tickets, same logged values. */
  predicate SameValues(a: map<string, Ticket>, b: map<string, Ticket>) {
    a.Keys == b.Keys && forall k :: k in a ==>
      b[k].id == a[k].id && b[k].status == a[k].status && b[k].priority == a[k].priority &&
      b[k].assignee == a[k].assignee && b[k].resolvedAt == a[k].resolvedAt
  }

  lemma CommentKeepsValues(cs: Casing, s: S.Db, op: S.Op)
    requires (op.OpCreateComment? || op.OpDeleteComment?) && forall k :: k in s.tickets ==> s.tickets[k].id == k
    ensures SameValues(s.tickets, S.Apply(cs, s, op).tickets) && S.Apply(cs, s, op).history == s.history
  {
    hide S.MessageTaken, SameValues;
    var d := S.Apply(cs, s, op).tickets;
    if d != s.tickets {
      var k := if op.OpCreateComment? then op.c.ticket else s.comments[op.id].ticket;
      assert d == s.tickets[k := d[k]];
      OneRowSame(s.tickets, k, d[k]);
    } else {
      RowsSame(s.tickets);
    }
  }

  lemma RowsSame(a: map<string, Ticket>)
    ensures SameValues(a, a)
  {
  }

  lemma OneRowSame(a: map<string, Ticket>, k: string, t: Ticket)
    requires k in a && t.id == a[k].id && t.status == a[k].status && t.priority == a[k].priority &&
             t.assignee == a[k].assignee && t.resolvedAt == a[k].resolvedAt
    ensures SameValues(a, a[k := t])
  {
  }

  lemma MailboxKeepsValues(cs: Casing, s: S.Db, op: S.Op)
    requires op.OpDeleteMailbox?
    ensures SameValues(s.tickets, S.Apply(cs, s, op).tickets) && S.Apply(cs, s, op).history == s.history
  {
    UnroutedKeepsValues(s.tickets, op.id);
    RowsSame(s.tickets);
    hide S.MailboxUsed, S.MailboxKnown, S.Unrouted, SameValues;
  }

  lemma UnroutedKeepsValues(tickets: map<string, Ticket>, mailbox: string)
    ensures SameValues(tickets, S.Unrouted(tickets, mailbox))
  {
  }

  lemma NeutralLogged(cs: Casing, w: World, op: S.Op)
    requires Faithful(w) && Neutral(op)
    ensures Faithful(w.(db := S.Apply(cs, w.db, op)))
  {
    hide TicketLogged, S.Apply;
    if op.OpCreateComment? || op.OpDeleteComment? {
      CommentKeepsValues(cs, w.db, op);
    } else if op.OpDeleteMailbox? {
      MailboxKeepsValues(cs, w.db, op);
    } else {
      NeutralTouchesNoTicket(cs, w.db, op);
    }
    RewriteLogged(w, S.Apply(cs, w.db, op));
  }

  lemma ServeLogged(cs: Casing, w: World, call: Call)
    requires Faithful(w) && Proper(call)
    ensures Faithful(Serve(cs, w, call))
  {
    hide Faithful;
    match call
    case Open(t, now) => OpenLogged(cs, w, t, now);
    case Status(c, id, status, f) => StatusLogged(w, c, id, status, f);
    case Priority(c, id, priority, f) =>
      SetPriorityIsUpdate(w.db, c, id, priority, f);
      PriorityLogged(w, c, id, Patch(None, None, Some(priority)), f);
    case Edit(c, id, p, f) => PriorityLogged(w, c, id, p, f);
    case Assigned(c, id, a, name, f) => AssigneeLogged(w, c, id, a, name, f);
    case Delete(tenant, id) => DeleteLogged(w, tenant, id);
    case Other(op) => NeutralLogged(cs, w, op);
  }

  /**
   * Over every run in which no history write fails: each ticket's rows form a chain per field, replaying
   * them from the creation values gives the current ones, and the resolution time is set exactly while the
   * ticket is resolved.
   */
  lemma {:induction false} HistoryIsFaithful(cs: Casing, calls: seq<Call>)
    requires forall i :: 0 <= i < |calls| ==> Proper(calls[i])
    ensures Faithful(ServeAll(cs, World(S.EMPTY, map[]), calls))
  {
    hide Serve;
    if calls != [] {
      var n := |calls| - 1;
      HistoryIsFaithful(cs, calls[..n]);
      ServeLogged(cs, ServeAll(cs, World(S.EMPTY, map[]), calls[..n]), calls[n]);
    }
  }

  // ------------------------------------------------------------------ lost history writes

  /** Any call, whatever fails in it. */
  predicate Ordinary(call: Call) { (call.Open? || call.Other?) ==> Proper(call) }

  /** The call gets as far as changing a logged value of its ticket. */
  predicate Changes(db: S.Db, call: Call) {
    match call
    case Status(c, id, status, f) =>
      !f.get && !f.write && status in STATUSES && S.HasTicket(db, c.tenant, id) && db.tickets[id].status != status
    case Priority(c, id, priority, f) =>
      !f.get && !f.write && priority in PRIORITIES && S.HasTicket(db, c.tenant, id) &&
      db.tickets[id].priority != priority
    case Edit(c, id, p, f) =>
      !f.get && !f.write && p.priority.Some? && p.priority.value in PRIORITIES && S.HasTicket(db, c.tenant, id) &&
      db.tickets[id].priority != p.priority.value
    case Assigned(c, id, assignee, name, f) =>
      !f.get && !f.write && (assignee == "" || name.Some?) && S.HasTicket(db, c.tenant, id) &&
      db.tickets[id].assignee != assignee
    case _ => false
  }

  /** It does, and its history write fails. */
  predicate Loses(db: S.Db, call: Call) { Changes(db, call) && call.f.log }

  function WithLog(call: Call): Call {
    match call
    case Status(c, id, status, f) => Status(c, id, status, f.(log := false))
    case Priority(c, id, priority, f) => Priority(c, id, priority, f.(log := false))
    case Edit(c, id, p, f) => Edit(c, id, p, f.(log := false))
    case Assigned(c, id, a, name, f) => Assigned(c, id, a, name, f.(log := false))
    case _ => call
  }

  /** Where nothing is lost, a failing history write makes no difference. */
  lemma LogUnneeded(cs: Casing, w: World, call: Call)
    requires Ordinary(call) && !Loses(w.db, call)
    ensures Proper(WithLog(call)) && Serve(cs, w, call) == Serve(cs, w, WithLog(call))
  {
    hide S.Apply, S.CreateTicket, S.DeleteTicket, STATUSES, PRIORITIES;
  }

  /** The ticket's value moved on and its log did not. */
  lemma LostRow(cs: Casing, w: World, call: Call)
    requires Faithful(w) && Loses(w.db, call)
    ensures !Faithful(Serve(cs, w, call))
  {
    hide Chain, RowsFor, STATUSES, PRIORITIES, S.Apply, S.CreateTicket, S.DeleteTicket;
    var v, id := Serve(cs, w, call), call.id;
    assert TicketLogged(w, id) && v.db.history == w.db.history && id in v.db.tickets;
    assert !TicketLogged(v, id);
  }

  /** A call keeps the log faithful if and only if it does not lose a change. */
  lemma FaithfulExactly(cs: Casing, w: World, call: Call)
    requires Faithful(w) && Ordinary(call)
    ensures Faithful(Serve(cs, w, call)) <==> !Loses(w.db, call)
  {
    hide Faithful, Serve, Loses;
    if Loses(w.db, call) {
      LostRow(cs, w, call);
    } else {
      LogUnneeded(cs, w, call);
      ServeLogged(cs, w, WithLog(call));
    }
  }

  function After(cs: Casing, calls: seq<Call>, n: nat): World
    requires n <= |calls|
  {
    ServeAll(cs, World(S.EMPTY, map[]), calls[..n])
  }

  lemma AfterNext(cs: Casing, calls: seq<Call>, n: nat)
    requires n < |calls|
    ensures After(cs, calls, n + 1) == Serve(cs, After(cs, calls, n), calls[n])
  {
    hide Serve;
    assert calls[..n + 1][..n] == calls[..n];
  }

  /**
   * Over every run, whatever fails: the log is faithful in every state up to n if and only if no call before n
   * lost a change.
   */
  lemma {:induction false} FaithfulThroughout(cs: Casing, calls: seq<Call>, n: nat)
    requires n <= |calls| && forall i :: 0 <= i < |calls| ==> Ordinary(calls[i])
    ensures (forall k :: 0 <= k <= n ==> Faithful(After(cs, calls, k))) <==>
            (forall i :: 0 <= i < n ==> !Loses(After(cs, calls, i).db, calls[i]))
  {
    hide Serve, Loses, Ordinary;
    if n == 0 {
      assert After(cs, calls, 0) == World(S.EMPTY, map[]);
    } else {
      hide Faithful, After;
      FaithfulThroughout(cs, calls, n - 1);
      AfterNext(cs, calls, n - 1);
      if forall k :: 0 <= k <= n - 1 ==> Faithful(After(cs, calls, k)) {
        FaithfulExactly(cs, After(cs, calls, n - 1), calls[n - 1]);
      }
    }
  }

  lemma LostMove(s: S.Db, c: Caller, id: string, status: string, f: Faults)
    requires f.log && S.HasTicket(s, c.tenant, id)
    ensures var r := SetStatusAs(s, c, id, status, f);
            r == s || (status in STATUSES && !f.get && !f.write && s.tickets[id].status != status &&
                       r == s.(tickets := s.tickets[id := S.Moved(s.tickets[id], status, OrNow(c.now, c.now))]))
  {
    hide STATUSES;
  }

  /**
   * A loss can hide again: a change and its reversal, both lost, leave a log that replays as if nothing had
   * happened.
   */
  lemma LostAndBack(w: World, c: Caller, id: string, status: string, f: Faults)
    requires Faithful(w) && f.log && S.HasTicket(w.db, c.tenant, id) && w.db.tickets[id].status in STATUSES
    ensures var there := SetStatusAs(w.db, c, id, status, f);
            Faithful(w.(db := SetStatusAs(there, c, id, w.db.tickets[id].status, f)))
  {
    var was := w.db.tickets[id];
    var there := SetStatusAs(w.db, c, id, status, f);
    var back := SetStatusAs(there, c, id, was.status, f);
    assert TicketLogged(w, id);
    LostMove(w.db, c, id, status, f);
    LostMove(there, c, id, was.status, f);
    if there != w.db { assert back != there by { LostMoves(there, c, id, was.status, f); } }
    hide TicketLogged, STATUSES, SetStatusAs;
    if back != w.db { RewriteLogged(w, back); }
  }

  lemma LostMoves(s: S.Db, c: Caller, id: string, status: string, f: Faults)
    requires f.log && S.HasTicket(s, c.tenant, id) && status in STATUSES && !f.get && !f.write &&
             s.tickets[id].status != status
    ensures SetStatusAs(s, c, id, status, f) != s
  {
    hide STATUSES;
    assert SetStatusAs(s, c, id, status, f).tickets[id].status == status;
  }

  // ------------------------------------------------------------ the listed history

  function Of(h: seq<History>, tenant: string, ticket: string): seq<History> {
    if h == [] then []
    else
      var before, r := Of(h[..|h| - 1], tenant, ticket), h[|h| - 1];
      if r.tenant == tenant && r.ticket == ticket then before + [r] else before
  }

  /** The listing of a ticket's history, sorted by time and id. */
  method ListHistory(h: seq<History>, tenant: string, ticket: string) returns (rows: seq<History>)
    ensures rows == SortBy(Of(h, tenant, ticket), HistoryKey)
  {
    rows := [];
    for i := 0 to |h|
      invariant rows == Of(h[..i], tenant, ticket)
    {
      assert h[..i + 1][..i] == h[..i];
      if h[i].tenant == tenant && h[i].ticket == ticket { rows := rows + [h[i]]; }
    }
    assert h[..|h|] == h;
    rows := SortBy(rows, HistoryKey);
  }

  lemma {:induction false} OfSorted(h: seq<History>, tenant: string, ticket: string)
    requires Sorted(h, HistoryKey)
    ensures Sorted(Of(h, tenant, ticket), HistoryKey) && forall r :: r in Of(h, tenant, ticket) ==> r in h
  {
    if h != [] {
      var n := |h| - 1;
      OfSorted(h[..n], tenant, ticket);
      var before := Of(h[..n], tenant, ticket);
      forall i | 0 <= i < |before| ensures !KeyLess(HistoryKey(h[n]), HistoryKey(before[i])) {
        assert before[i] in h[..n];
      }
    }
  }

  /**
   * The listing shows the log in the order it was written exactly when the times and ids it was written
   * with were in order: a clock that steps back reorders what agents see.
   */
  lemma ListedInOrder(h: seq<History>, tenant: string, ticket: string)
    ensures SortBy(Of(h, tenant, ticket), HistoryKey) == Of(h, tenant, ticket) <==>
              Sorted(Of(h, tenant, ticket), HistoryKey)
    ensures Sorted(h, HistoryKey) ==> SortBy(Of(h, tenant, ticket), HistoryKey) == Of(h, tenant, ticket)
  {
    SortBySorts(Of(h, tenant, ticket), HistoryKey);
    if Sorted(Of(h, tenant, ticket), HistoryKey) { SortBySorted(Of(h, tenant, ticket), HistoryKey); }
    if Sorted(h, HistoryKey) { OfSorted(h, tenant, ticket); SortBySorted(Of(h, tenant, ticket), HistoryKey); }
  }
}
