/**
 * Applying a triage decision to a new ticket (internal/rules/apply.go): tags are found or created and linked,
 * then assignee, status and priority are set through the ticket service. Every action is attempted, whatever
 * became of the ones before it.
 */
module TriageApply {
  import opened Rows
  import opened Text
  import opened Memstore
  import opened Triage
  import opened TicketFrame
  import S = Store
  import V = StoreValid
  import T = Tickets

  // --------------------------------------------------------------------- drawing ids

  /** Ids as the minter draws them: 36 characters, never the same twice. */
  ghost predicate GoodDraw(draw: nat -> string) {
    (forall i: nat :: |draw(i)| == 36) && (forall i: nat, j: nat :: i < j ==> draw(i) != draw(j))
  }

  /** Ids drawn from n on are none of these. */
  ghost predicate Undrawn(draw: nat -> string, n: nat, ids: set<string>) { forall i: nat :: n <= i ==> draw(i) !in ids }

  lemma UndrawnLater(draw: nat -> string, n: nat, n': nat, ids: set<string>)
    requires Undrawn(draw, n, ids) && n <= n'
    ensures Undrawn(draw, n', ids)
  {
  }

  lemma UndrawnBut(draw: nat -> string, n: nat, ids: set<string>, ids': set<string>)
    requires GoodDraw(draw) && Undrawn(draw, n, ids) && ids' <= ids + {draw(n)}
    ensures Undrawn(draw, n + 1, ids')
  {
  }

  lemma NotUsed(draw: nat -> string, n: nat, ids: set<string>)
    requires Undrawn(draw, n, ids)
    ensures draw(n) !in ids
  {
  }

  // ------------------------------------------------------------------------ the effect

  /** The row as it was but for what a rule may set. */
  predicate Worked(a: Ticket, b: Ticket) {
    b == a.(status := b.status, resolvedAt := b.resolvedAt, priority := b.priority, assignee := b.assignee,
            assigneeName := b.assigneeName, updatedAt := b.updatedAt)
  }

  /** Only the one ticket's row is worked on, and the history only grows. */
  ghost predicate Turned(a: S.Db, b: S.Db, ticket: string) {
    b.tickets.Keys == a.tickets.Keys && a.history <= b.history &&
    forall k :: k in a.tickets ==>
      if k == ticket then Worked(a.tickets[k], b.tickets[k]) else b.tickets[k] == a.tickets[k]
  }

  /**
   * What a decision leaves in the ticket: the decided values that are valid, and what was there where nothing was
   * decided.
   */
  predicate Decided(a: Ticket, b: Ticket, d: Decision, agent: Option<string>) {
    b.assignee == (if d.assignee != "" && agent.Some? then d.assignee else a.assignee) &&
    b.assigneeName == (if d.assignee != "" && agent.Some? then agent.value else a.assigneeName) &&
    b.status == (if d.status in STATUSES then d.status else a.status) &&
    b.priority == (if d.priority in PRIORITIES then d.priority else a.priority)
  }

  predicate TagIs(cs: Casing, g: Tag, tenant: string, ref: TagRef) {
    g.tenant == tenant && g.kind == (if ref.kind == "" then KIND_TAG else ref.kind) &&
    cs.fold(g.name) == cs.fold(ref.name)
  }

  /** One of these tags is the tenant's tag of that kind and folded name. */
  ghost predicate Tagged(cs: Casing, tags: map<string, Tag>, ids: set<string>, tenant: string, ref: TagRef) {
    exists g :: g in ids && g in tags && TagIs(cs, tags[g], tenant, ref)
  }

  ghost predicate AllTagged(cs: Casing, tags: map<string, Tag>, ids: set<string>, tenant: string, refs: seq<TagRef>) {
    forall i :: 0 <= i < |refs| ==> Tagged(cs, tags, ids, tenant, refs[i])
  }

  function AsSet(ids: seq<string>): set<string> { set i | i in ids }

  ghost predicate MoreTags(a: map<string, Tag>, b: map<string, Tag>) {
    forall g :: g in a ==> g in b && b[g] == a[g]
  }

  ghost predicate OwnTags(a: map<string, Tag>, b: map<string, Tag>, tenant: string) {
    forall g :: g in b && g !in a ==> b[g].tenant == tenant
  }

  lemma StillTagged(cs: Casing, tags: map<string, Tag>, ids: set<string>, tags': map<string, Tag>, ids': set<string>,
                    tenant: string, refs: seq<TagRef>)
    requires AllTagged(cs, tags, ids, tenant, refs) && MoreTags(tags, tags') && ids <= ids'
    ensures AllTagged(cs, tags', ids', tenant, refs)
  {
    forall i | 0 <= i < |refs| ensures Tagged(cs, tags', ids', tenant, refs[i]) {
      assert Tagged(cs, tags, ids, tenant, refs[i]);
    }
  }

  lemma OneMoreTagged(cs: Casing, tags: map<string, Tag>, ids: seq<string>, g: string, tenant: string,
                      refs: seq<TagRef>, ref: TagRef)
    requires AllTagged(cs, tags, AsSet(ids), tenant, refs) && g in tags && TagIs(cs, tags[g], tenant, ref)
    ensures AllTagged(cs, tags, AsSet(ids + [g]), tenant, refs + [ref])
  {
    var all := AsSet(ids + [g]);
    StillTagged(cs, tags, AsSet(ids), tags, all, tenant, refs);
    assert g in all;
    assert Tagged(cs, tags, all, tenant, ref);
    forall i | 0 <= i < |refs + [ref]| ensures Tagged(cs, tags, all, tenant, (refs + [ref])[i]) {
      if i < |refs| { assert Tagged(cs, tags, all, tenant, refs[i]); }
    }
  }

  lemma TurnedSame(db: S.Db, b: S.Db, ticket: string)
    requires b.tickets == db.tickets && b.history == db.history
    ensures Turned(db, b, ticket)
  {
  }

  lemma TurnedTwice(a: S.Db, b: S.Db, c: S.Db, ticket: string)
    requires Turned(a, b, ticket) && Turned(b, c, ticket)
    ensures Turned(a, c, ticket)
  {
  }

  // ------------------------------------------------------------- the service's three changes

  /** A row of one ticket and a line of history. */
  lemma RowTurned(db: S.Db, b: S.Db, ticket: string, t: Ticket)
    requires ticket in db.tickets && Worked(db.tickets[ticket], t) && b.tickets == db.tickets[ticket := t] &&
             db.history <= b.history
    ensures Turned(db, b, ticket)
  {
  }

  lemma LogKeepsValid(cs: Casing, db: S.Db, c: T.Caller, ticket: string, field: string, was: string, now': string,
                      fails: bool)
    requires V.Valid(cs, db)
    ensures var r := T.Log(db, c, ticket, field, was, now', fails);
            V.Valid(cs, r) && r == db.(history := r.history) && db.history <= r.history &&
            LogsOn(db.history, r.history, c.tenant, ticket)
  {
    hide V.Valid;
    V.ApplyKeepsValid(cs, db,
                      S.OpAppendHistory(History(c.historyId, c.tenant, ticket, field, was, now', c.actorKind, c.actorId,
                                                c.now), c.now));
  }

  lemma StatusTurns(cs: Casing, db: S.Db, c: T.Caller, ticket: string, status: string, f: T.Faults)
    requires V.Valid(cs, db)
    ensures var r := T.SetStatusAs(db, c, ticket, status, f);
            V.Valid(cs, r) && Turned(db, r, ticket) && Touches(db, r, c.tenant, ticket) && r.comments == db.comments
    ensures var r := T.SetStatusAs(db, c, ticket, status, f);
            S.HasTicket(db, c.tenant, ticket) ==>
              r.tickets[ticket].assignee == db.tickets[ticket].assignee &&
              r.tickets[ticket].assigneeName == db.tickets[ticket].assigneeName &&
              r.tickets[ticket].priority == db.tickets[ticket].priority &&
              (!f.get && !f.write ==>
                 r.tickets[ticket].status == if status in STATUSES then status else db.tickets[ticket].status)
  {
    hide V.Valid, Turned, Touches, LogsOn, STATUSES, T.Log;
    TurnedSame(db, db, ticket);
    TouchesNothing(db, c.tenant, ticket);
    var r := T.SetStatusAs(db, c, ticket, status, f);
    if status in STATUSES && !f.get && S.HasTicket(db, c.tenant, ticket) && db.tickets[ticket].status != status &&
       !f.write {
      V.ApplyKeepsValid(cs, db, S.OpSetStatus(c.tenant, ticket, status, c.now, c.now));
      var was, t := db.tickets[ticket], S.SetStatus(db, c.tenant, ticket, status, c.now, c.now).db;
      LogKeepsValid(cs, t, c, ticket, FIELD_STATUS, was.status, t.tickets[ticket].status, f.log);
      RowTurned(db, r, ticket, t.tickets[ticket]);
      RowTouches(db, r, c.tenant, ticket, t.tickets[ticket]);
    }
  }

  lemma PriorityTurns(cs: Casing, db: S.Db, c: T.Caller, ticket: string, priority: string, f: T.Faults)
    requires V.Valid(cs, db)
    ensures var r := T.SetPriorityAs(db, c, ticket, priority, f);
            V.Valid(cs, r) && Turned(db, r, ticket) && Touches(db, r, c.tenant, ticket) && r.comments == db.comments
    ensures var r := T.SetPriorityAs(db, c, ticket, priority, f);
            S.HasTicket(db, c.tenant, ticket) ==>
              r.tickets[ticket].assignee == db.tickets[ticket].assignee &&
              r.tickets[ticket].assigneeName == db.tickets[ticket].assigneeName &&
              r.tickets[ticket].status == db.tickets[ticket].status &&
              (!f.get && !f.write ==>
                 r.tickets[ticket].priority == if priority in PRIORITIES then priority else db.tickets[ticket].priority)
  {
    hide V.Valid, Turned, Touches, LogsOn, PRIORITIES, T.Log;
    TurnedSame(db, db, ticket);
    TouchesNothing(db, c.tenant, ticket);
    var r := T.SetPriorityAs(db, c, ticket, priority, f);
    if priority in PRIORITIES && !f.get && S.HasTicket(db, c.tenant, ticket) &&
       db.tickets[ticket].priority != priority && !f.write {
      var p := Patch(None, None, Some(priority));
      V.ApplyKeepsValid(cs, db, S.OpUpdateTicket(c.tenant, ticket, p, c.now, c.now));
      var was, t := db.tickets[ticket], S.UpdateTicket(db, c.tenant, ticket, p, c.now, c.now).db;
      LogKeepsValid(cs, t, c, ticket, FIELD_PRIORITY, was.priority, t.tickets[ticket].priority, f.log);
      RowTurned(db, r, ticket, t.tickets[ticket]);
      RowTouches(db, r, c.tenant, ticket, t.tickets[ticket]);
    }
  }

  lemma AssigneeTurns(cs: Casing, db: S.Db, c: T.Caller, ticket: string, assignee: string, agent: Option<string>,
                      f: T.Faults)
    requires V.Valid(cs, db) && assignee != ""
    ensures var r := T.AssignAs(db, c, ticket, assignee, agent, f);
            V.Valid(cs, r) && Turned(db, r, ticket) && Touches(db, r, c.tenant, ticket) && r.comments == db.comments
    ensures var r := T.AssignAs(db, c, ticket, assignee, agent, f);
            S.HasTicket(db, c.tenant, ticket) ==>
              r.tickets[ticket].priority == db.tickets[ticket].priority &&
              r.tickets[ticket].status == db.tickets[ticket].status &&
              (!f.get && !f.write ==>
                 r.tickets[ticket].assignee == (if agent.Some? then assignee else db.tickets[ticket].assignee) &&
                 r.tickets[ticket].assigneeName ==
                   if agent.Some? then agent.value else db.tickets[ticket].assigneeName)
  {
    hide V.Valid, Turned, Touches, LogsOn, T.Log;
    TurnedSame(db, db, ticket);
    TouchesNothing(db, c.tenant, ticket);
    var r := T.AssignAs(db, c, ticket, assignee, agent, f);
    if !f.get && S.HasTicket(db, c.tenant, ticket) && agent.Some? && !f.write &&
       (db.tickets[ticket].assignee != assignee || db.tickets[ticket].assigneeName != agent.value) {
      V.ApplyKeepsValid(cs, db, S.OpSetAssignee(c.tenant, ticket, assignee, agent.value, c.now, c.now));
      var was, t := db.tickets[ticket], S.SetAssignee(db, c.tenant, ticket, assignee, agent.value, c.now, c.now).db;
      LogKeepsValid(cs, t, c, ticket, FIELD_ASSIGNEE, was.assignee, t.tickets[ticket].assignee, f.log);
      RowTurned(db, r, ticket, t.tickets[ticket]);
      RowTouches(db, r, c.tenant, ticket, t.tickets[ticket]);
    }
  }

  // ---------------------------------------------------------------------------- applying

  lemma NothingIsDecided()
    ensures "" !in STATUSES && "" !in PRIORITIES
  {
  }

  lemma SameTags(tags: map<string, Tag>)
    ensures MoreTags(tags, tags) && forall tenant :: OwnTags(tags, tags, tenant)
  {
  }

  lemma NoTags(db: S.Db, tenant: string)
    ensures S.TagsKnown(db, tenant, [])
  {
  }

  lemma StillKnown(a: S.Db, b: S.Db, tenant: string, ids: seq<string>)
    requires MoreTags(a.tags, b.tags) && S.TagsKnown(a, tenant, ids)
    ensures S.TagsKnown(b, tenant, ids)
  {
  }

  lemma OneMoreKnown(db: S.Db, tenant: string, ids: seq<string>, id: string)
    requires S.TagsKnown(db, tenant, ids) && S.HasTag(db, tenant, id)
    ensures S.TagsKnown(db, tenant, ids + [id])
  {
  }

  lemma NoneTagged(cs: Casing, tags: map<string, Tag>, ids: set<string>, tenant: string, refs: seq<TagRef>)
    requires refs == []
    ensures AllTagged(cs, tags, ids, tenant, refs)
  {
  }

  lemma TagNamed(cs: Casing, db: S.Db, g: Tag)
    requires V.Valid(cs, db) && exists k :: k in db.tags && db.tags[k] == g
    ensures g.id in db.tags && db.tags[g.id] == g
  {
    assert V.KeysMatch(db);
  }

  lemma NewTagsTouch(a: S.Db, b: S.Db, tenant: string, ticket: string)
    requires b == a.(tags := b.tags) && MoreTags(a.tags, b.tags) && OwnTags(a.tags, b.tags, tenant)
    ensures Touches(a, b, tenant, ticket)
  {
    TagsTouch(a, b, tenant, ticket);
  }

  lemma LinksAre(db: S.Db, tenant: string, ticket: string, ids: seq<string>)
    ensures var r := S.AddTicketTags(db, tenant, ticket, ids);
            r.db.tags == db.tags &&
            (S.HasTicket(db, tenant, ticket) && S.TagsKnown(db, tenant, ids) ==>
               AsSet(ids) <= S.Linked(r.db.links, ticket))
  {
    hide S.TagsKnown;
  }

  lemma TagAdded(cs: Casing, db: S.Db, g: Tag, now: Time)
    requires V.Valid(cs, db)
    ensures var r := S.CreateTag(cs, db, g, now).db;
            V.Valid(cs, r) && MoreTags(db.tags, r.tags) && OwnTags(db.tags, r.tags, g.tenant) &&
            r.tags.Keys <= db.tags.Keys + {g.id}
  {
    hide V.Valid, S.NameTaken;
    V.ApplyKeepsValid(cs, db, S.OpCreateTag(g, now));
  }

  class Applier {
    const mem: Mem
    const desk: T.Service

    constructor (mem: Mem, desk: T.Service)
      ensures this.mem == mem && this.desk == desk
    {
      this.mem, this.desk := mem, desk;
    }

    /** Finds or creates the tag of one more reference. */
    method EnsureTag(tenant: string, ghost before: seq<TagRef>, ref: TagRef, ids: seq<string>, draw: nat -> string,
                     first: nat, now: Time, ghost used: set<string>)
      returns (ids': seq<string>)
      requires GoodDraw(draw) && V.Valid(mem.cs, mem.State()) && S.TagsKnown(mem.State(), tenant, ids)
      modifies mem`tags, mem`failNext
      ensures V.Valid(mem.cs, mem.State()) && MoreTags(old(mem.tags), mem.tags) &&
              S.TagsKnown(mem.State(), tenant, ids')
      ensures OwnTags(old(mem.tags), mem.tags, tenant)
      ensures mem.failNext <= old(mem.failNext)
      ensures Undrawn(draw, first, used + old(mem.tags.Keys)) ==> Undrawn(draw, first + 1, used + mem.tags.Keys)
      ensures old(mem.failNext) == {} && Undrawn(draw, first, used + old(mem.tags.Keys)) &&
              AllTagged(mem.cs, old(mem.tags), AsSet(ids), tenant, before) ==>
                AllTagged(mem.cs, mem.tags, AsSet(ids'), tenant, before + [ref])
    {
      hide V.Valid, GoodDraw, Undrawn, AllTagged, S.CreateTag, MoreTags, S.TagsKnown, AsSet;
      ghost var db, kind := mem.State(), if ref.kind == "" then KIND_TAG else ref.kind;
      ghost var free := Undrawn(draw, first, used + mem.tags.Keys);
      if free { NotUsed(draw, first, used + mem.tags.Keys); }
      TagAdded(mem.cs, db, Tag(draw(first), tenant, ref.name, kind, "", "", now), now);
      var out, tag := mem.EnsureTagByName(tenant, ref.kind, ref.name, draw(first), now);
      ids' := ids;
      SameTags(db.tags);
      StillKnown(db, mem.State(), tenant, ids);
      if free { UndrawnBut(draw, first, used + db.tags.Keys, used + mem.tags.Keys); }
      if out == S.Done {
        ids' := ids + [tag.value.id];
        TagNamed(mem.cs, mem.State(), tag.value);
        OneMoreKnown(mem.State(), tenant, ids, tag.value.id);
        if free && old(mem.failNext) == {} && AllTagged(mem.cs, db.tags, AsSet(ids), tenant, before) {
          StillTagged(mem.cs, db.tags, AsSet(ids), mem.tags, AsSet(ids), tenant, before);
          OneMoreTagged(mem.cs, mem.tags, ids, tag.value.id, tenant, before, ref);
        }
      }
    }

    /** Finds or creates the tag of every reference; one that cannot be had is left out. */
    method EnsureTags(tenant: string, refs: seq<TagRef>, draw: nat -> string, first: nat, now: Time,
                      ghost used: set<string>)
      returns (ids: seq<string>)
      requires GoodDraw(draw) && V.Valid(mem.cs, mem.State())
      modifies mem`tags, mem`failNext
      ensures V.Valid(mem.cs, mem.State()) && MoreTags(old(mem.tags), mem.tags) && S.TagsKnown(mem.State(), tenant, ids)
      ensures OwnTags(old(mem.tags), mem.tags, tenant)
      ensures mem.failNext <= old(mem.failNext)
      ensures Undrawn(draw, first, used + old(mem.tags.Keys)) ==> Undrawn(draw, first + |refs|, used + mem.tags.Keys)
      ensures old(mem.failNext) == {} && Undrawn(draw, first, used + old(mem.tags.Keys)) ==>
                AllTagged(mem.cs, mem.tags, AsSet(ids), tenant, refs)
    {
      hide V.Valid, GoodDraw, Undrawn, S.TagsKnown;
      ids := [];
      ghost var free := Undrawn(draw, first, used + mem.tags.Keys);
      NoTags(mem.State(), tenant);
      for n := 0 to |refs|
        invariant V.Valid(mem.cs, mem.State()) && MoreTags(old(mem.tags), mem.tags) &&
                  S.TagsKnown(mem.State(), tenant, ids)
        invariant OwnTags(old(mem.tags), mem.tags, tenant)
        invariant mem.failNext <= old(mem.failNext) && (free ==> Undrawn(draw, first + n, used + mem.tags.Keys))
        invariant old(mem.failNext) == {} && free ==> AllTagged(mem.cs, mem.tags, AsSet(ids), tenant, refs[..n])
        modifies mem`tags, mem`failNext
      {
        hide AllTagged;
        assert refs[..n + 1] == refs[..n] + [refs[n]];
        ids := EnsureTag(tenant, refs[..n], refs[n], ids, draw, first + n, now, used);
      }
      assert refs[..|refs|] == refs;
    }

    /** Tags the ticket as decided. */
    method AddTags(tenant: string, ticket: string, refs: seq<TagRef>, draw: nat -> string, first: nat, now: Time,
                   ghost used: set<string>)
      requires GoodDraw(draw) && V.Valid(mem.cs, mem.State())
      modifies mem`tags, mem`links, mem`failNext
      ensures V.Valid(mem.cs, mem.State()) && MoreTags(old(mem.tags), mem.tags) && mem.failNext <= old(mem.failNext)
      ensures Touches(old(mem.State()), mem.State(), tenant, ticket)
      ensures Undrawn(draw, first, used + old(mem.tags.Keys)) ==> Undrawn(draw, first + |refs|, used + mem.tags.Keys)
      ensures old(mem.failNext) == {} && S.HasTicket(old(mem.State()), tenant, ticket) &&
              Undrawn(draw, first, used + old(mem.tags.Keys)) ==>
                AllTagged(mem.cs, mem.tags, S.Linked(mem.links, ticket), tenant, refs)
    {
      hide V.Valid, GoodDraw, Undrawn, AllTagged, S.TagsKnown, MoreTags, OwnTags, Touches, S.AddTicketTags;
      if refs == [] {
        NoneTagged(mem.cs, mem.tags, S.Linked(mem.links, ticket), tenant, refs);
        SameTags(mem.tags);
        TouchesNothing(mem.State(), tenant, ticket);
        return;
      }
      var ids := EnsureTags(tenant, refs, draw, first, now, used);
      ghost var db := mem.State();
      NewTagsTouch(old(mem.State()), db, tenant, ticket);
      if ids == [] {
        if old(mem.failNext) == {} && Undrawn(draw, first, used + old(mem.tags.Keys)) {
          StillTagged(mem.cs, mem.tags, AsSet(ids), mem.tags, S.Linked(mem.links, ticket), tenant,
                      refs) by { SameTags(mem.tags); }
        }
        return;
      }
      V.ApplyKeepsValid(mem.cs, db, S.OpAddTicketTags(tenant, ticket, ids));
      LinksTouch(db, tenant, ticket, ids);
      LinksAre(db, tenant, ticket, ids);
      TouchesNothing(db, tenant, ticket);
      var out := mem.AddTicketTags(tenant, ticket, ids);
      TouchesTwice(old(mem.State()), db, mem.State(), tenant, ticket);
      if old(mem.failNext) == {} && S.HasTicket(old(mem.State()), tenant, ticket) &&
         Undrawn(draw, first, used + old(mem.tags.Keys)) {
        SameTags(mem.tags);
        StillTagged(mem.cs, mem.tags, AsSet(ids), mem.tags, S.Linked(mem.links, ticket), tenant, refs);
      }
    }

    method Assign(tenant: string, ticket: string, assignee: string, agent: Option<string>, id: string, now: Time)
      requires desk.st == mem && V.Valid(mem.cs, mem.State()) && assignee != ""
      modifies mem`tickets, mem`history, mem`failNext
      ensures V.Valid(mem.cs, mem.State()) && Turned(old(mem.State()), mem.State(), ticket) &&
              mem.failNext <= old(mem.failNext)
      ensures Touches(old(mem.State()), mem.State(), tenant, ticket)
      ensures S.HasTicket(old(mem.State()), tenant, ticket) ==> S.HasTicket(mem.State(), tenant, ticket)
      ensures S.HasTicket(old(mem.State()), tenant, ticket) ==>
                mem.tickets[ticket].priority == old(mem.tickets[ticket].priority) &&
                mem.tickets[ticket].status == old(mem.tickets[ticket].status)
      ensures old(mem.failNext) == {} && S.HasTicket(old(mem.State()), tenant, ticket) ==>
                mem.tickets[ticket].assignee == (if agent.Some? then assignee
                                                 else old(mem.tickets[ticket].assignee)) &&
                mem.tickets[ticket].assigneeName == (if agent.Some? then agent.value
                                                     else old(mem.tickets[ticket].assigneeName))
    {
      hide V.Valid, Touches, T.AssignAs;
      ghost var f := T.Faults("GetTicket" in mem.failNext, "SetAssignee" in mem.failNext,
                              "AppendHistory" in mem.failNext);
      var c := T.Caller(tenant, ACTOR_RULE, INBOUND_ACTOR_ID, id, now);
      AssigneeTurns(mem.cs, mem.State(), c, ticket, assignee, agent, f);
      var _ := desk.Assign(c, ticket, assignee, agent);
    }

    method SetStatus(tenant: string, ticket: string, status: string, id: string, now: Time)
      requires desk.st == mem && V.Valid(mem.cs, mem.State())
      modifies mem`tickets, mem`history, mem`failNext
      ensures V.Valid(mem.cs, mem.State()) && Turned(old(mem.State()), mem.State(), ticket) &&
              mem.failNext <= old(mem.failNext)
      ensures Touches(old(mem.State()), mem.State(), tenant, ticket)
      ensures S.HasTicket(old(mem.State()), tenant, ticket) ==> S.HasTicket(mem.State(), tenant, ticket)
      ensures S.HasTicket(old(mem.State()), tenant, ticket) ==>
                mem.tickets[ticket].priority == old(mem.tickets[ticket].priority) &&
                mem.tickets[ticket].assignee == old(mem.tickets[ticket].assignee) &&
                mem.tickets[ticket].assigneeName == old(mem.tickets[ticket].assigneeName)
      ensures old(mem.failNext) == {} && S.HasTicket(old(mem.State()), tenant, ticket) ==>
                mem.tickets[ticket].status == if status in STATUSES then status else old(mem.tickets[ticket].status)
    {
      hide V.Valid, Touches, T.SetStatusAs, STATUSES;
      ghost var f := T.Faults("GetTicket" in mem.failNext, "SetStatus" in mem.failNext,
                              "AppendHistory" in mem.failNext);
      var c := T.Caller(tenant, ACTOR_RULE, INBOUND_ACTOR_ID, id, now);
      StatusTurns(mem.cs, mem.State(), c, ticket, status, f);
      var _ := desk.SetStatus(c, ticket, status);
    }

    method SetPriority(tenant: string, ticket: string, priority: string, id: string, now: Time)
      requires desk.st == mem && V.Valid(mem.cs, mem.State())
      modifies mem`tickets, mem`history, mem`failNext
      ensures V.Valid(mem.cs, mem.State()) && Turned(old(mem.State()), mem.State(), ticket) &&
              mem.failNext <= old(mem.failNext)
      ensures Touches(old(mem.State()), mem.State(), tenant, ticket)
      ensures S.HasTicket(old(mem.State()), tenant, ticket) ==> S.HasTicket(mem.State(), tenant, ticket)
      ensures S.HasTicket(old(mem.State()), tenant, ticket) ==>
                mem.tickets[ticket].assignee == old(mem.tickets[ticket].assignee) &&
                mem.tickets[ticket].assigneeName == old(mem.tickets[ticket].assigneeName) &&
                mem.tickets[ticket].status == old(mem.tickets[ticket].status)
      ensures old(mem.failNext) == {} && S.HasTicket(old(mem.State()), tenant, ticket) ==>
                mem.tickets[ticket].priority ==
                  if priority in PRIORITIES then priority else old(mem.tickets[ticket].priority)
    {
      hide V.Valid, Touches, T.SetPriorityAs, PRIORITIES;
      ghost var f := T.Faults("GetTicket" in mem.failNext, "UpdateTicket" in mem.failNext,
                              "AppendHistory" in mem.failNext);
      var c := T.Caller(tenant, ACTOR_RULE, INBOUND_ACTOR_ID, id, now);
      PriorityTurns(mem.cs, mem.State(), c, ticket, priority, f);
      var _ := desk.SetPriority(c, ticket, priority);
    }

    /** Sets what was decided through the ticket service; the ids name the history rows. */
    method SetFields(tenant: string, ticket: string, d: Decision, agent: Option<string>, ids: seq<string>, now: Time)
      requires desk.st == mem && V.Valid(mem.cs, mem.State()) && |ids| == 3
      modifies mem`tickets, mem`history, mem`failNext
      ensures V.Valid(mem.cs, mem.State()) && Turned(old(mem.State()), mem.State(), ticket) &&
              mem.failNext <= old(mem.failNext)
      ensures Touches(old(mem.State()), mem.State(), tenant, ticket)
      ensures S.HasTicket(old(mem.State()), tenant, ticket) ==> ticket in mem.tickets
      ensures old(mem.failNext) == {} && S.HasTicket(old(mem.State()), tenant, ticket) ==>
                Decided(old(mem.tickets[ticket]), mem.tickets[ticket], d, agent)
    {
      hide V.Valid, Turned, STATUSES, PRIORITIES, Touches;
      NothingIsDecided();
      ghost var db := mem.State();
      TurnedSame(db, db, ticket);
      TouchesNothing(db, tenant, ticket);
      if d.assignee != "" { Assign(tenant, ticket, d.assignee, agent, ids[0], now); }
      ghost var db1 := mem.State();
      TurnedSame(db1, db1, ticket);
      TouchesNothing(db1, tenant, ticket);
      if d.status != "" { SetStatus(tenant, ticket, d.status, ids[1], now); }
      ghost var db2 := mem.State();
      TurnedTwice(db, db1, db2, ticket);
      TouchesTwice(db, db1, db2, tenant, ticket);
      TurnedSame(db2, db2, ticket);
      TouchesNothing(db2, tenant, ticket);
      if d.priority != "" { SetPriority(tenant, ticket, d.priority, ids[2], now); }
      TurnedTwice(db, db2, mem.State(), ticket);
      TouchesTwice(db, db2, mem.State(), tenant, ticket);
    }

    /**
     * Applies a decision: whatever fails, only this ticket's workflow fields and tags change; when nothing
     * fails the ticket carries every decided tag and value.
     */
    method Apply(tenant: string, ticket: string, d: Decision, agent: Option<string>, draw: nat -> string, first: nat,
                 now: Time, ghost used: set<string>)
      returns (drawn: nat)
      requires desk.st == mem && GoodDraw(draw) && V.Valid(mem.cs, mem.State())
      modifies mem`tags, mem`links, mem`tickets, mem`history, mem`failNext
      ensures V.Valid(mem.cs, mem.State()) && Turned(old(mem.State()), mem.State(), ticket)
      ensures Touches(old(mem.State()), mem.State(), tenant, ticket) && mem.failNext <= old(mem.failNext) &&
              first <= drawn
      ensures Undrawn(draw, first, used + old(mem.tags.Keys)) ==> Undrawn(draw, drawn, used + mem.tags.Keys)
      ensures old(mem.failNext) == {} && S.HasTicket(old(mem.State()), tenant, ticket) ==>
                Decided(old(mem.tickets[ticket]), mem.tickets[ticket], d, agent)
      ensures old(mem.failNext) == {} && S.HasTicket(old(mem.State()), tenant, ticket) &&
              Undrawn(draw, first, used + old(mem.tags.Keys)) ==>
                AllTagged(mem.cs, mem.tags, S.Linked(mem.links, ticket), tenant, d.tags)
    {
      hide V.Valid, GoodDraw, Undrawn, AllTagged, MoreTags, Turned, Decided, Touches;
      AddTags(tenant, ticket, d.tags, draw, first, now, used);
      drawn := first + |d.tags|;
      ghost var db := mem.State();
      TurnedSame(old(mem.State()), db, ticket);
      SetFields(tenant, ticket, d, agent, [draw(drawn), draw(drawn + 1), draw(drawn + 2)], now);
      TurnedTwice(old(mem.State()), db, mem.State(), ticket);
      TouchesTwice(old(mem.State()), db, mem.State(), tenant, ticket);
      drawn := drawn + 3;
      if Undrawn(draw, first + |d.tags|, used + mem.tags.Keys) {
        UndrawnLater(draw, first + |d.tags|, drawn, used + mem.tags.Keys);
      }
    }
  }
}
