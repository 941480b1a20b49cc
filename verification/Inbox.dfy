/**
 * Ingesting messages one after another (internal/inbound/inbound.go): duplicate check, threading, uploading,
 * writing the row, recording the attachments, re-opening or triaging the ticket and acknowledging it, with
 * compensation when a call fails.
 */
module Inbox {
  import opened Rows
  import opened Text
  import opened Memstore
  import opened Pipeline
  import opened PipelineSafety
  import opened Threading
  import opened TriageApply
  import opened TicketFrame
  import opened MailRows
  import I = StoreIsolation
  import S = Store
  import V = StoreValid
  import T = Tickets
  import R = Triage

  /**
   * One delivery: the message, its thread ids, what triage decides (nothing when it fails), the directory's
   * answer for the decided assignee, the acknowledgement's Message-ID ("" for none) and whether it could be sent.
   */
  datatype Delivery = Delivery(mail: Mail, threadIds: seq<string>, plan: R.Decision, agent: Option<string>,
                               ackId: string, ackBody: string, ackSent: bool, note: string, now: Time)

  // ---------------------------------------------------------------------------- records

  /** A Message-ID is recorded on a ticket as its root or as one of its comments. */
  ghost predicate Recorded(db: S.Db, tenant: string, messageId: string, ticket: string) {
    messageId != "" &&
    (RootIs(db.tickets, ticket, tenant, messageId) ||
     exists k :: CommentIs(db.comments, k, tenant, messageId) && db.comments[k].ticket == ticket)
  }

  /** No Message-ID is both a root and a comment of the same tenant. */
  ghost predicate OneRecord(db: S.Db) {
    forall j, k :: j in db.tickets && k in db.comments ==> Separate(db.tickets[j], db.comments[k])
  }

  predicate Separate(t: Ticket, c: Comment) {
    t.externalId == "" || t.tenant != c.tenant || t.externalId != c.messageId
  }

  ghost predicate Rootless(tickets: map<string, Ticket>, tenant: string, id: string) {
    id == "" || forall k :: !RootIs(tickets, k, tenant, id)
  }

  /** Tickets come and go in neither step: the roots are the same. */
  ghost predicate SameRoots(a: map<string, Ticket>, b: map<string, Ticket>) {
    forall k :: k in b ==> k in a && b[k].tenant == a[k].tenant && b[k].externalId == a[k].externalId
  }

  ghost predicate SameStatuses(a: map<string, Ticket>, b: map<string, Ticket>) {
    forall k :: k in b ==> k in a && b[k].status == a[k].status
  }

  /** The only new root a step may add is the one of its own message. */
  ghost predicate AddsRoot(a: map<string, Ticket>, b: map<string, Ticket>, tenant: string, messageId: string) {
    forall k :: k in b ==> (k in a && b[k].tenant == a[k].tenant && b[k].externalId == a[k].externalId) ||
                           (b[k].tenant == tenant && b[k].externalId == messageId)
  }

  lemma AddsRootThen(a: map<string, Ticket>, b: map<string, Ticket>, c: map<string, Ticket>, tenant: string,
                     messageId: string)
    requires AddsRoot(a, b, tenant, messageId) && SameRoots(b, c)
    ensures AddsRoot(a, c, tenant, messageId)
  {
  }

  lemma SameAddsRoot(a: map<string, Ticket>, b: map<string, Ticket>, tenant: string, messageId: string)
    requires SameRoots(a, b)
    ensures AddsRoot(a, b, tenant, messageId)
  {
  }

  lemma RootlessAfter(a: map<string, Ticket>, b: map<string, Ticket>, tenant: string, messageId: string, owner: string,
                      id: string)
    requires AddsRoot(a, b, tenant, messageId) && Rootless(a, owner, id) && (owner == tenant ==> id != messageId)
    ensures Rootless(b, owner, id)
  {
    assert forall k :: RootIs(b, k, owner, id) ==> RootIs(a, k, owner, id);
  }

  lemma StaysRootless(a: map<string, Ticket>, b: map<string, Ticket>, tenant: string, id: string)
    requires SameRoots(a, b) && Rootless(a, tenant, id)
    ensures Rootless(b, tenant, id)
  {
    assert forall k :: RootIs(b, k, tenant, id) ==> RootIs(a, k, tenant, id);
  }

  predicate Shut(status: string) { status == STATUS_RESOLVED || status == STATUS_CLOSED }

  /** A ticket as it was but for its comments, and re-opened at most. */
  predicate SameTicket(a: Ticket, b: Ticket) {
    b == a.(commentCount := b.commentCount, updatedAt := b.updatedAt, lastMessage := b.lastMessage, status := b.status,
            resolvedAt := b.resolvedAt) &&
    ((b.status == a.status && b.resolvedAt == a.resolvedAt) ||
     (Shut(a.status) && b.status == STATUS_OPEN && b.resolvedAt.None?))
  }

  /** Rows that keep every record: tickets change only with their comments or re-open, comments only grow. */
  ghost predicate Grows(a: S.Db, b: S.Db) {
    (forall k :: k in a.tickets ==> k in b.tickets && SameTicket(a.tickets[k], b.tickets[k])) &&
    (forall k :: k in a.comments ==> k in b.comments && b.comments[k] == a.comments[k])
  }

  /** The ticket is not shut afterwards; if it was, one history row says that the inbound edge re-opened it. */
  predicate OpenAgain(a: S.Db, b: S.Db, tenant: string, ticket: string)
    requires ticket in a.tickets
  {
    var was := a.tickets[ticket].status;
    ticket in b.tickets && !Shut(b.tickets[ticket].status) && a.history <= b.history &&
    if Shut(was) then |b.history| == |a.history| + 1 && ReopenRow(b.history[|a.history|], tenant, ticket, was)
    else b.history == a.history
  }

  predicate ReopenRow(h: History, tenant: string, ticket: string, from: string) {
    h.tenant == tenant && h.ticket == ticket && h.field == FIELD_STATUS && h.oldValue == from &&
    h.newValue == STATUS_OPEN &&
    h.actorKind == ACTOR_INBOUND && h.actorId == INBOUND_ACTOR_ID
  }

  /** One ticket rewritten without touching its identity. */
  lemma RowRewritten(db: S.Db, id: string, t: Ticket, r: S.Db)
    requires OneRecord(db) && id in db.tickets && SameTicket(db.tickets[id], t)
    requires r.tickets == db.tickets[id := t] && r.comments == db.comments
    ensures OneRecord(r) && Grows(db, r) && SameRoots(db.tickets, r.tickets) && r.tickets.Keys == db.tickets.Keys
  {
    forall j, k | j in r.tickets && k in r.comments ensures Separate(r.tickets[j], r.comments[k]) {
      assert Separate(db.tickets[j], db.comments[k]);
    }
  }

  /** Re-opening rewrites the ticket's status and appends the change, as far as its calls do not fail. */
  lemma ReopenShape(db: S.Db, c: T.Caller, ticket: string, f: T.Faults)
    requires S.HasTicket(db, c.tenant, ticket) && Shut(db.tickets[ticket].status)
    requires c.actorKind == ACTOR_INBOUND && c.actorId == INBOUND_ACTOR_ID
    ensures var r, t := T.SetStatusAs(db, c, ticket, STATUS_OPEN, f), S.Moved(db.tickets[ticket], STATUS_OPEN,
                                      OrNow(c.now, c.now));
            r.comments == db.comments && r.attachments == db.attachments &&
            (r.tickets == db.tickets || r.tickets == db.tickets[ticket := t]) &&
            (!f.get && !f.write && !f.log ==> OpenAgain(db, r, c.tenant, ticket))
  {
    assert STATUS_OPEN in STATUSES by { assert STATUSES[0] == STATUS_OPEN; }
    hide STATUSES, OpenAgain, Shut;
    var r, was := T.SetStatusAs(db, c, ticket, STATUS_OPEN, f), db.tickets[ticket];
    var t := S.Moved(was, STATUS_OPEN, OrNow(c.now, c.now));
    assert was.status != STATUS_OPEN by { StillShut(was.status); }
    if !f.get && !f.write && !f.log {
      var h := History(c.historyId, c.tenant, ticket, FIELD_STATUS, was.status, STATUS_OPEN, ACTOR_INBOUND,
                       INBOUND_ACTOR_ID, OrNow(c.now, c.now));
      assert r.tickets == db.tickets[ticket := t] && r.history == db.history + [h];
      OpenedAgain(db, r, c.tenant, ticket, t, h);
    }
  }

  lemma StillShut(status: string)
    requires Shut(status)
    ensures status != STATUS_OPEN
  {
    assert STATUS_OPEN[0] == 'o';
  }

  lemma OpenedAgain(a: S.Db, b: S.Db, tenant: string, ticket: string, t: Ticket, h: History)
    requires ticket in a.tickets && Shut(a.tickets[ticket].status) && t.status == STATUS_OPEN
    requires b.tickets == a.tickets[ticket := t] && b.history == a.history + [h]
    requires ReopenRow(h, tenant, ticket, a.tickets[ticket].status)
    ensures OpenAgain(a, b, tenant, ticket)
  {
    if Shut(t.status) { StillShut(t.status); }
  }

  lemma ReopenKeeps(db: S.Db, c: T.Caller, ticket: string, f: T.Faults)
    requires OneRecord(db) && S.HasTicket(db, c.tenant, ticket) && Shut(db.tickets[ticket].status)
    requires c.actorKind == ACTOR_INBOUND && c.actorId == INBOUND_ACTOR_ID
    ensures var r := T.SetStatusAs(db, c, ticket, STATUS_OPEN, f);
            OneRecord(r) && Grows(db, r) && SameRoots(db.tickets, r.tickets) && r.tickets.Keys == db.tickets.Keys &&
            r.attachments == db.attachments && (!f.get && !f.write && !f.log ==> OpenAgain(db, r, c.tenant, ticket))
  {
    hide OneRecord, Grows, SameRoots, T.SetStatusAs, OpenAgain;
    var r := T.SetStatusAs(db, c, ticket, STATUS_OPEN, f);
    ReopenShape(db, c, ticket, f);
    if r.tickets == db.tickets { SameRecords(db, r); }
    else { RowRewritten(db, ticket, r.tickets[ticket], r); }
  }

  /** Re-opening after steps that changed no status and no history. */
  lemma OpenAgainLater(a: S.Db, b: S.Db, c: S.Db, tenant: string, ticket: string)
    requires ticket in a.tickets && ticket in b.tickets && SameStatuses(a.tickets, b.tickets) && b.history == a.history
    requires OpenAgain(b, c, tenant, ticket)
    ensures OpenAgain(a, c, tenant, ticket)
  {
  }

  /** A new ticket may besides take what triage decides. */
  predicate Begun(a: Ticket, b: Ticket) {
    b == a.(commentCount := b.commentCount, updatedAt := b.updatedAt, lastMessage := b.lastMessage, status := b.status,
            resolvedAt := b.resolvedAt, priority := b.priority, assignee := b.assignee, assigneeName := b.assigneeName)
  }

  /** Rows that keep every record, one ticket being worked on. */
  ghost predicate GrowsBut(a: S.Db, b: S.Db, id: string) {
    (forall k :: k in a.tickets ==>
       k in b.tickets &&
       if k == id then Begun(a.tickets[k], b.tickets[k]) else SameTicket(a.tickets[k], b.tickets[k])) &&
    (forall k :: k in a.comments ==> k in b.comments && b.comments[k] == a.comments[k])
  }

  lemma GrowsGrowsBut(a: S.Db, b: S.Db, id: string)
    requires Grows(a, b)
    ensures GrowsBut(a, b, id)
  {
  }

  lemma GrowsButTwice(a: S.Db, b: S.Db, c: S.Db, id: string)
    requires GrowsBut(a, b, id) && GrowsBut(b, c, id)
    ensures GrowsBut(a, c, id)
  {
  }

  lemma GrowsThenBut(a: S.Db, b: S.Db, c: S.Db, id: string)
    requires Grows(a, b) && GrowsBut(b, c, id) && id !in a.tickets
    ensures Grows(a, c)
  {
  }

  lemma GrowsButKeepsRecords(a: S.Db, b: S.Db, id: string, tenant: string, messageId: string, ticket: string)
    requires GrowsBut(a, b, id) && Recorded(a, tenant, messageId, ticket)
    ensures Recorded(b, tenant, messageId, ticket)
  {
    if !RootIs(a.tickets, ticket, tenant, messageId) {
      var k :| CommentIs(a.comments, k, tenant, messageId) && a.comments[k].ticket == ticket;
      assert CommentIs(b.comments, k, tenant, messageId) && b.comments[k].ticket == ticket;
    }
  }

  /** Applying a decision keeps every record. */
  lemma TurnedKeeps(a: S.Db, b: S.Db, id: string)
    requires OneRecord(a) && Turned(a, b, id) && b.comments == a.comments
    ensures OneRecord(b) && GrowsBut(a, b, id) && SameRoots(a.tickets, b.tickets)
  {
    forall j, k | j in b.tickets && k in b.comments ensures Separate(b.tickets[j], b.comments[k]) {
      assert Separate(a.tickets[j], a.comments[k]);
    }
  }

  lemma GrowsKeepsRecords(a: S.Db, b: S.Db, tenant: string, messageId: string, ticket: string)
    requires Grows(a, b) && Recorded(a, tenant, messageId, ticket)
    ensures Recorded(b, tenant, messageId, ticket)
  {
    if !RootIs(a.tickets, ticket, tenant, messageId) {
      var k :| CommentIs(a.comments, k, tenant, messageId) && a.comments[k].ticket == ticket;
      assert CommentIs(b.comments, k, tenant, messageId) && b.comments[k].ticket == ticket;
    }
  }

  /** No comment of the tenant carries the Message-ID. */
  ghost predicate Unsaid(comments: map<string, Comment>, tenant: string, id: string) {
    forall k :: !CommentIs(comments, k, tenant, id)
  }

  /** Every new comment is without a Message-ID. */
  ghost predicate Unnamed(a: map<string, Comment>, b: map<string, Comment>) {
    forall k :: k in b ==> (k in a && b[k] == a[k]) || b[k].messageId == ""
  }

  lemma OneNamed(a: map<string, Comment>, id: string, c: Comment)
    ensures Unnamed(a, a) && (c.messageId == "" ==> Unnamed(a, a[id := c]))
  {
  }

  lemma StaysUnsaid(a: map<string, Comment>, b: map<string, Comment>, tenant: string, id: string)
    requires Unnamed(a, b) && Unsaid(a, tenant, id) && id != ""
    ensures Unsaid(b, tenant, id)
  {
    assert forall k :: CommentIs(b, k, tenant, id) ==> CommentIs(a, k, tenant, id);
  }

  lemma GrowsTwice(a: S.Db, b: S.Db, c: S.Db)
    requires Grows(a, b) && Grows(b, c)
    ensures Grows(a, c)
  {
  }

  ghost predicate Unrecorded(db: S.Db, tenant: string, messageId: string) {
    messageId == "" || (FindComment(db, tenant, messageId).None? && FindRoot(db, tenant, messageId).None?)
  }

  /** With one record per id, the duplicate check finds the ticket it is recorded on. */
  lemma RecordedIsFound(cs: Casing, db: S.Db, tenant: string, messageId: string, ticket: string)
    requires V.Valid(cs, db) && OneRecord(db) && Recorded(db, tenant, messageId, ticket)
    ensures var c, t := FindComment(db, tenant, messageId), FindRoot(db, tenant, messageId);
            if c.Some? then c.value.ticket == ticket else t.Some? && t.value.id == ticket
  {
    hide V.Valid;
    if RootIs(db.tickets, ticket, tenant, messageId) {
      RootFound(cs, db, tenant, messageId, ticket);
      assert db.tickets[ticket].id == ticket by { RootNamed(cs, db, ticket); }
      assert forall k :: CommentIs(db.comments, k, tenant, messageId) ==> false;
    } else {
      var k :| CommentIs(db.comments, k, tenant, messageId) && db.comments[k].ticket == ticket;
      CommentFound(cs, db, tenant, messageId, k);
    }
  }

  lemma RootNamed(cs: Casing, db: S.Db, k: string)
    requires V.Valid(cs, db) && k in db.tickets
    ensures db.tickets[k].id == k
  {
    assert V.KeysMatch(db);
  }

  lemma CommentWritten(cs: Casing, db: S.Db, c: Comment, now: Time)
    requires V.Valid(cs, db) && OneRecord(db)
    requires Rootless(db.tickets, c.tenant, c.messageId)
    ensures var r := S.CreateComment(db, c, now);
            OneRecord(r.db) && Grows(db, r.db) && SameRoots(db.tickets, r.db.tickets) &&
            SameStatuses(db.tickets, r.db.tickets) &&
            r.db.attachments == db.attachments &&
            (r.out == S.Done && c.messageId != "" ==> Recorded(r.db, c.tenant, c.messageId, c.ticket)) &&
            (r.out == S.Done ==> c.id !in db.comments && c.id in r.db.comments &&
                                 r.db.comments[c.id] == S.Written(c, now) &&
                                 c.ticket in r.db.tickets && r.db.tickets[c.ticket].tenant == c.tenant) &&
            (r.out != S.Done ==> r.db == db) && r.db.tickets.Keys == db.tickets.Keys &&
            (r.out == S.Done ==> r.db.comments == db.comments[c.id := S.Written(c, now)]) &&
            S.Written(c, now).messageId == c.messageId
  {
    hide V.Valid, S.MessageTaken, OneRecord, Grows, SameRoots, Rootless;
    var r := S.CreateComment(db, c, now);
    SameRootsSame(db.tickets);
    GrowsSame(db);
    if r.out == S.Done {
      RootNamed(cs, db, c.ticket);
      var mid := db.(tickets := r.db.tickets);
      RowRewritten(db, c.ticket, r.db.tickets[c.ticket], mid);
      StaysRootless(db.tickets, mid.tickets, c.tenant, c.messageId);
      CommentAdded(mid, c.id, S.Written(c, now), r.db);
      GrowsTwice(db, mid, r.db);
      assert CommentIs(r.db.comments, c.id, c.tenant, c.messageId) || c.messageId == "";
    }
  }

  lemma CommentAdded(db: S.Db, id: string, c: Comment, r: S.Db)
    requires OneRecord(db) && Rootless(db.tickets, c.tenant, c.messageId) && id !in db.comments
    requires r.tickets == db.tickets && r.comments == db.comments[id := c]
    ensures OneRecord(r) && Grows(db, r)
  {
    forall j, k | j in r.tickets && k in r.comments ensures Separate(r.tickets[j], r.comments[k]) {
      if k == id {
        assert !RootIs(db.tickets, j, c.tenant, c.messageId) || c.messageId == "";
      } else {
        assert Separate(db.tickets[j], db.comments[k]);
      }
    }
  }

  ghost predicate FreeComment(db: S.Db, c: Comment) {
    S.HasTicket(db, c.tenant, c.ticket) && c.id !in db.comments &&
    (c.messageId == "" || Unsaid(db.comments, c.tenant, c.messageId))
  }

  lemma ReplyFree(db: S.Db, m: Mail, ticket: string, id: string)
    requires m.messageId == "" || Unsaid(db.comments, m.tenant, m.messageId)
    ensures S.HasTicket(db, m.tenant, ticket) && id !in db.comments ==> FreeComment(db, NewReply(m, ticket, id))
  {
  }

  ghost predicate FreeTicket(db: S.Db, t: Ticket) {
    t.id !in db.tickets && Rootless(db.tickets, t.tenant, t.externalId) &&
    (t.mailbox == "" || S.MailboxKnown(db.mailboxes, t.tenant, t.mailbox))
  }

  lemma TicketFree(db: S.Db, m: Mail, id: string)
    requires Rootless(db.tickets, m.tenant, m.messageId)
    ensures id !in db.tickets && Housed(db.mailboxes, m) ==> FreeTicket(db, NewTicket(m, id))
  {
  }

  /** A comment is refused only without its ticket, or when its id or Message-ID is taken. */
  lemma CommentTaken(db: S.Db, c: Comment, now: Time)
    requires FreeComment(db, c)
    ensures S.CreateComment(db, c, now).out == S.Done
  {
    assert forall k :: CommentIs(db.comments, k, c.tenant, c.messageId) <==>
                       k in db.comments && db.comments[k].tenant == c.tenant && db.comments[k].messageId == c.messageId;
  }

  /** A ticket is refused only when its id or external id is taken, or its mailbox is not the tenant's. */
  lemma RootTaken(db: S.Db, t: Ticket, now: Time)
    requires FreeTicket(db, t)
    ensures S.CreateTicket(db, t, now).out == S.Done
  {
    assert forall k :: RootIs(db.tickets, k, t.tenant, t.externalId) <==>
                       k in db.tickets && db.tickets[k].tenant == t.tenant && db.tickets[k].externalId == t.externalId;
  }

  lemma RootWritten(db: S.Db, t: Ticket, now: Time)
    requires OneRecord(db) && (t.externalId == "" || FindComment(db, t.tenant, t.externalId).None?)
    ensures var r := S.CreateTicket(db, t, now);
            OneRecord(r.db) && Grows(db, r.db) && r.db.attachments == db.attachments &&
            (r.out == S.Done && t.externalId != "" ==> Recorded(r.db, t.tenant, t.externalId, t.id)) &&
            (r.out != S.Done ==> r.db == db)
  {
    var r := S.CreateTicket(db, t, now);
    if r.out == S.Done {
      forall j, k | j in r.db.tickets && k in r.db.comments ensures Separate(r.db.tickets[j], r.db.comments[k]) {
        if j == t.id {
          assert !CommentIs(db.comments, k, t.tenant, t.externalId) || t.externalId == "";
        } else {
          assert Separate(db.tickets[j], db.comments[k]);
        }
      }
    }
  }

  // ---------------------------------------------------------------------------- the handler

  function DrawnIds(draw: nat -> string, n: nat): set<string> { set i: nat | i < n :: draw(i) }

  lemma NextIsNew(draw: nat -> string, n: nat)
    requires GoodDraw(draw)
    ensures draw(n) !in DrawnIds(draw, n) && |draw(n)| == 36
    ensures DrawnIds(draw, n + 1) == DrawnIds(draw, n) + {draw(n)}
  {
  }

  predicate Housed(mailboxes: map<string, Mailbox>, m: Mail) {
    m.mailbox == "" || S.MailboxKnown(mailboxes, m.tenant, m.mailbox)
  }

  class Handler {
    const mem: Mem
    const desk: T.Service
    const rules: Applier
    const draw: nat -> string
    const blobFails: nat -> bool
    var drawn: nat
    var calls: nat
    var objects: set<string>
    var leaked: set<string>

    constructor (mem: Mem, draw: nat -> string, blobFails: nat -> bool)
      ensures this.mem == mem && desk.st == mem && rules.mem == mem && rules.desk == desk && this.draw == draw &&
              this.blobFails == blobFails
      ensures drawn == 0 && calls == 0 && objects == {} && leaked == {}
    {
      this.mem, this.draw, this.blobFails := mem, draw, blobFails;
      var service := new T.Service(mem);
      desk := service;
      rules := new Applier(mem, service);
      drawn, calls, objects, leaked := 0, 0, {}, {};
    }

    /** The objects are those of the rows, of failed removals and the ones held here. */
    ghost predicate Holding(held: set<string>)
      reads this, mem
    {
      desk.st == mem && rules.mem == mem && rules.desk == desk && GoodDraw(draw) && V.Valid(mem.cs, mem.State()) &&
      Shaped(objects, DrawnIds(draw, drawn)) &&
      mem.attachments.Keys <= DrawnIds(draw, drawn) && Balanced(RowKeys(mem.attachments), leaked, [held], objects)
    }

    /** Staged attachments whose rows can still be written. */
    ghost predicate Pending(staged: seq<Attachment>)
      reads this, mem
    {
      Distinct(staged) && DistinctIds(staged) &&
      forall i :: 0 <= i < |staged| ==> staged[i].id in DrawnIds(draw, drawn) && staged[i].id !in mem.attachments
    }

    /** Ids not drawn yet name no ticket and no comment. */
    ghost predicate FutureFree()
      reads this, mem
    {
      Undrawn(draw, drawn, TakenIds())
    }

    ghost function TakenIds(): set<string>
      reads mem
    {
      mem.tickets.Keys + mem.comments.Keys + mem.tags.Keys
    }

    /** Nothing fails. */
    ghost predicate Steady()
      reads this, mem
    {
      mem.failNext == {} && Reliable() && FutureFree()
    }

    /** Nothing fails and the mailbox is the tenant's. */
    ghost predicate Calm(m: Mail)
      reads this, mem
    {
      Steady() && Housed(mem.mailboxes, m)
    }

    /** No object call fails. */
    ghost predicate Reliable() { forall n: nat :: !blobFails(n) }

    method NewId() returns (id: string)
      modifies this`drawn
      ensures drawn == old(drawn) + 1 && id == draw(old(drawn))
    {
      id := draw(drawn);
      drawn := drawn + 1;
    }

    /** A new id; what is held stays held. */
    method Draw(ghost held: set<string>) returns (id: string)
      requires Holding(held)
      modifies this`drawn
      ensures Holding(held) && |id| == 36 && DrawnIds(draw, old(drawn)) <= DrawnIds(draw, drawn)
      ensures id == draw(old(drawn)) && drawn == old(drawn) + 1
    {
      hide V.Valid, Balanced, Shaped, DrawnIds;
      MoreIds(objects, draw, drawn);
      NextIsNew(draw, drawn);
      id := NewId();
    }

    method Put(key: string) returns (ok: bool)
      modifies this`objects, this`calls
      ensures ok == !blobFails(old(calls)) && calls == old(calls) + 1
      ensures objects == if ok then old(objects) + {key} else old(objects)
    {
      ok := !blobFails(calls);
      calls := calls + 1;
      if ok { objects := objects + {key}; }
    }

    /** Removing an object; one that could not be removed is left behind. */
    method Delete(key: string)
      modifies this`objects, this`leaked, this`calls
      ensures calls == old(calls) + 1
      ensures objects == if blobFails(old(calls)) then old(objects) else old(objects) - {key}
      ensures leaked == if blobFails(old(calls)) then old(leaked) + {key} else old(leaked)
    {
      if blobFails(calls) { leaked := leaked + {key}; } else { objects := objects - {key}; }
      calls := calls + 1;
    }

    /** Stores every attachment object; when one fails the stored ones are removed again. */
    method Upload(m: Mail, ticket: string) returns (staged: seq<Attachment>, ok: bool)
      requires Holding({})
      modifies this`drawn, this`objects, this`leaked, this`calls
      ensures Pending(staged) && Holding(StagedKeys(staged)) && (!ok ==> staged == [])
      ensures ok ==> FilesStaged(m, ticket, staged, |m.files|)
      ensures Reliable() ==> ok && leaked == old(leaked)
      ensures old(drawn) <= drawn
    {
      hide V.Valid, Balanced, Shaped, GoodDraw, DrawnIds, StagedKeys, Distinct, DistinctIds;
      staged := [];
      NothingStaged();
      var i := 0;
      while i < |m.files|
        invariant 0 <= i <= |m.files| && Pending(staged) && Holding(StagedKeys(staged)) &&
                  FilesStaged(m, ticket, staged, i)
        invariant (Reliable() ==> leaked == old(leaked)) && old(drawn) <= drawn
        modifies this`drawn, this`objects, this`leaked, this`calls
      {
        ghost var objects0, minted0 := objects, DrawnIds(draw, drawn);
        NextIsNew(draw, drawn);
        var id := NewId();
        var a := Staged(m, ticket, m.files[i], id);
        NewKey(objects, minted0, m.tenant, ticket, id);
        var stored := Put(a.storageKey);
        if !stored {
          WiderShaped(objects, minted0, id);
          Discard(staged);
          NothingStaged();
          staged, ok := [], false;
          return;
        }
        Uploaded(RowKeys(mem.attachments), leaked, staged, a, objects0);
        MoreIdsStaged(staged, a, minted0);
        staged := staged + [a];
        i := i + 1;
      }
      ok := true;
    }

    /** Removes staged objects, as far as possible. */
    method Discard(staged: seq<Attachment>)
      requires Distinct(staged) && Holding(StagedKeys(staged))
      modifies this`objects, this`leaked, this`calls
      ensures Holding({}) && (Reliable() ==> leaked == old(leaked))
    {
      hide V.Valid, Balanced, Shaped, GoodDraw, DrawnIds, StagedKeys, Distinct;
      var rest := staged;
      while rest != []
        invariant Distinct(rest) && Holding(StagedKeys(rest)) && (Reliable() ==> leaked == old(leaked))
        decreases |rest|
        modifies this`objects, this`leaked, this`calls
      {
        DiscardFirst(rest);
        rest := rest[1..];
      }
      NothingStaged();
    }

    method DiscardFirst(staged: seq<Attachment>)
      requires staged != [] && Distinct(staged) && Holding(StagedKeys(staged))
      modifies this`objects, this`leaked, this`calls
      ensures Distinct(staged[1..]) && Holding(StagedKeys(staged[1..])) && (Reliable() ==> leaked == old(leaked))
    {
      hide V.Valid, Shaped, GoodDraw, DrawnIds, StagedKeys, Distinct, Balanced;
      var key := staged[0].storageKey;
      FirstStaged(staged);
      ghost var objects0, leaked0, rows := objects, leaked, RowKeys(mem.attachments);
      Delete(key);
      LetGo(rows, leaked0, StagedKeys(staged), StagedKeys(staged[1..]), key, objects0, leaked, objects);
      SmallerShaped(objects0, objects, DrawnIds(draw, drawn));
    }

    /** Writes the attachment rows; a row that cannot be written takes its object with it. */
    method Record(staged: seq<Attachment>, tenant: string, ticket: string, comment: string, now: Time)
      requires Pending(staged) && Holding(StagedKeys(staged)) && StagedOn(staged, tenant, ticket)
      modifies this`objects, this`leaked, this`calls, mem`attachments, mem`failNext
      ensures Holding({}) && mem.failNext <= old(mem.failNext) && (Reliable() ==> leaked == old(leaked))
      ensures Touches(old(mem.State()), mem.State(), tenant, ticket)
      ensures "CreateAttachment" !in old(mem.failNext) && Welcome(mem.tickets, mem.comments, staged, comment) ==>
                AllFiled(mem.attachments, staged, comment, now)
    {
      hide V.Valid, Balanced, Shaped, GoodDraw, DrawnIds, StagedKeys, Distinct, DistinctIds, Welcome, AllFiled,
        Touches;
      TouchesNothing(mem.State(), tenant, ticket);
      ghost var clean := "CreateAttachment" !in mem.failNext && Welcome(mem.tickets, mem.comments, staged, comment);
      NoneFiled(mem.attachments, comment, now);
      var n := 0;
      assert staged[0..] == staged && staged[..0] == [];
      while n < |staged|
        invariant 0 <= n <= |staged| && Pending(staged[n..]) && Holding(StagedKeys(staged[n..]))
        invariant mem.failNext <= old(mem.failNext) && (Reliable() ==> leaked == old(leaked))
        invariant clean ==> AllFiled(mem.attachments, staged[..n], comment, now)
        invariant Touches(old(mem.State()), mem.State(), tenant, ticket)
        modifies this`objects, this`leaked, this`calls, mem`attachments, mem`failNext
      {
        ghost var db := mem.State();
        ghost var rows := db.attachments;
        assert staged[n..][0] == staged[n] && staged[n..][1..] == staged[n + 1..] &&
               staged[..n + 1] == staged[..n] + [staged[n]];
        if clean { WelcomeOne(mem.tickets, mem.comments, staged, comment, n); }
        RecordFirst(staged[n..], comment, now);
        TouchesTwice(old(mem.State()), db, mem.State(), tenant, ticket);
        if clean { OneMoreFiled(rows, mem.attachments, staged[..n], staged[n], comment, now); }
        n := n + 1;
      }
      assert staged[n..] == [] && staged[..n] == staged;
      NothingStaged();
    }

    method RecordFirst(staged: seq<Attachment>, comment: string, now: Time)
      requires staged != [] && Pending(staged) && Holding(StagedKeys(staged))
      modifies this`objects, this`leaked, this`calls, mem`attachments, mem`failNext
      ensures Pending(staged[1..]) && Holding(StagedKeys(staged[1..])) && mem.failNext <= old(mem.failNext)
      ensures Touches(old(mem.State()), mem.State(), staged[0].tenant, staged[0].ticket)
      ensures Reliable() ==> leaked == old(leaked)
      ensures forall k :: k in old(mem.attachments) ==>
                k in mem.attachments && mem.attachments[k] == old(mem.attachments)[k]
      ensures "CreateAttachment" !in old(mem.failNext) && Accepts(mem.tickets, mem.comments, staged[0], comment) ==>
                FiledAs(mem.attachments, staged[0], comment, now)
    {
      hide V.Valid, Shaped, GoodDraw, DrawnIds, StagedKeys, Distinct, Balanced, RowKeys, S.CreateAttachment,
        Touches;
      var a := staged[0].(comment := comment);
      ghost var db := mem.State();
      FirstStaged(staged);
      FirstFree(RowKeys(db.attachments), leaked, StagedKeys(staged), a.storageKey, objects);
      CreatesFile(db, a, now);
      FileTouches(db, a, now);
      TouchesNothing(db, a.tenant, a.ticket);
      var out := mem.CreateAttachment(a, now);
      if out == S.Done {
        FileAdded(db, a, now);
        V.ApplyKeepsValid(mem.cs, db, S.OpCreateAttachment(a, now));
        Filed(RowKeys(db.attachments), leaked, StagedKeys(staged), StagedKeys(staged[1..]), a.storageKey, objects);
      } else {
        DiscardFirst(staged);
      }
    }

    // -- rows

    /** Writing a comment: it keeps one record per Message-ID unless a root already has the id. */
    method Say(c: Comment, now: Time, ghost held: set<string>) returns (out: S.Outcome)
      requires Holding(held) && OneRecord(mem.State()) && c.id != ""
      requires Rootless(mem.tickets, c.tenant, c.messageId)
      modifies mem`comments, mem`tickets, mem`failNext
      ensures Holding(held) && OneRecord(mem.State()) && Grows(old(mem.State()), mem.State())
      ensures SameRoots(old(mem.tickets), mem.tickets) && SameStatuses(old(mem.tickets), mem.tickets)
      ensures out == S.Done && c.messageId != "" ==> Recorded(mem.State(), c.tenant, c.messageId, c.ticket)
      ensures out == S.Done ==>
                c.id !in old(mem.comments) && c.id in mem.comments && mem.comments[c.id] == S.Written(c, now)
      ensures out == S.Done ==> c.ticket in mem.tickets && mem.tickets[c.ticket].tenant == c.tenant
      ensures "CreateComment" !in old(mem.failNext) && FreeComment(old(mem.State()), c) ==> out == S.Done
      ensures out != S.Done ==> mem.State() == old(mem.State())
      ensures mem.failNext <= old(mem.failNext)
      ensures mem.tickets.Keys == old(mem.tickets.Keys) && mem.comments.Keys <= old(mem.comments.Keys) + {c.id}
      ensures c.messageId == "" ==> Unnamed(old(mem.comments), mem.comments)
      ensures Touches(old(mem.State()), mem.State(), c.tenant, c.ticket)
    {
      hide V.Valid, Balanced, Shaped, GoodDraw, DrawnIds, S.CreateComment, OneRecord, Recorded, Grows, SameRoots,
        SameStatuses, Rootless, FreeComment, Unnamed, S.Written, Touches;
      ghost var db := mem.State();
      TouchesNothing(db, c.tenant, c.ticket);
      if c.ticket in db.tickets { RootNamed(mem.cs, db, c.ticket); }
      CommentTouches(db, c, now);
      SameRootsSame(db.tickets);
      SameStatusesSame(db.tickets);
      OneNamed(db.comments, c.id, S.Written(c, now));
      CommentWritten(mem.cs, db, c, now);
      if FreeComment(db, c) { CommentTaken(db, c, now); }
      V.ApplyKeepsValid(mem.cs, db, S.OpCreateComment(c, now));
      GrowsSame(db);
      out := mem.CreateComment(c, now);
    }

    method Open(t: Ticket, now: Time, ghost held: set<string>) returns (out: S.Outcome)
      requires Holding(held) && OneRecord(mem.State()) && t.commentCount == 0
      requires t.externalId == "" || FindComment(mem.State(), t.tenant, t.externalId).None?
      modifies mem`tickets, mem`failNext
      ensures Holding(held) && OneRecord(mem.State()) && Grows(old(mem.State()), mem.State())
      ensures out == S.Done ==> S.Step(mem.State(), out) == S.CreateTicket(old(mem.State()), t, now)
      ensures "CreateTicket" !in old(mem.failNext) && FreeTicket(old(mem.State()), t) ==> out == S.Done
      ensures out == S.Done && t.externalId != "" ==> Recorded(mem.State(), t.tenant, t.externalId, t.id)
      ensures out != S.Done ==> mem.State() == old(mem.State())
      ensures mem.failNext <= old(mem.failNext) && Touches(old(mem.State()), mem.State(), t.tenant, t.id)
    {
      hide V.Valid, Balanced, Shaped, GoodDraw, DrawnIds, S.CreateTicket, OneRecord, Recorded, Touches, Grows;
      ghost var db := mem.State();
      TouchesNothing(db, t.tenant, t.id);
      NewTicketTouches(db, t, now);
      RootWritten(db, t, now);
      if FreeTicket(db, t) { RootTaken(db, t, now); }
      V.ApplyKeepsValid(mem.cs, db, S.OpCreateTicket(t, now));
      GrowsSame(db);
      out := mem.CreateTicket(t, now);
    }

    /** The duplicate check: None when the Message-ID is recorded nowhere in the tenant. */
    method FindDuplicate(m: Mail) returns (a: Option<Answer>)
      requires V.Valid(mem.cs, mem.State()) && OneRecord(mem.State())
      modifies mem`failNext
      ensures mem.failNext <= old(mem.failNext)
      ensures a.None? ==> Unrecorded(mem.State(), m.tenant, m.messageId)
      ensures old(mem.failNext) == {} ==> a != Some(Failed)
      ensures a.Some? ==>
                a.value == Failed ||
                (a.value.Duplicate? && Recorded(mem.State(), m.tenant, m.messageId, a.value.ticket))
      ensures forall t :: Recorded(mem.State(), m.tenant, m.messageId, t) ==>
                a == Some(Failed) || a == Some(Duplicate(t))
    {
      hide V.Valid, OneRecord;
      if m.messageId == "" { return None; }
      ghost var db := mem.State();
      forall t | Recorded(db, m.tenant, m.messageId, t)
        ensures var c, r := FindComment(db, m.tenant, m.messageId), FindRoot(db, m.tenant, m.messageId);
                if c.Some? then c.value.ticket == t else r.Some? && r.value.id == t
      {
        RecordedIsFound(mem.cs, db, m.tenant, m.messageId, t);
      }
      var out, c := mem.FindCommentByMessageID(m.tenant, m.messageId);
      if out == S.Fault { return Some(Failed); }
      if out == S.Done {
        ghost var k :| k in mem.comments && mem.comments[k] == c.value &&
                       c.value.tenant == m.tenant && c.value.messageId == m.messageId;
        CommentFound(mem.cs, db, m.tenant, m.messageId, k);
        assert CommentIs(db.comments, k, m.tenant, m.messageId);
        return Some(Duplicate(c.value.ticket));
      }
      NoSuchComment(db, m.tenant, m.messageId);
      var out', t := mem.FindTicketByExternalID(m.tenant, m.messageId);
      if out' == S.Fault { return Some(Failed); }
      if out' == S.Done {
        ghost var k :| k in mem.tickets && mem.tickets[k] == t.value &&
                       t.value.tenant == m.tenant && t.value.externalId == m.messageId;
        RootFound(mem.cs, db, m.tenant, m.messageId, k);
        RootNamed(mem.cs, db, k);
        return Some(Duplicate(t.value.id));
      }
      NoSuchRoot(db, m.tenant, m.messageId);
      a := None;
    }

    /** A threaded reply; None when the ticket has gone. */
    method Reply(m: Mail, ticket: string, note: string, now: Time) returns (a: Option<Answer>)
      requires Holding({}) && OneRecord(mem.State()) && Unrecorded(mem.State(), m.tenant, m.messageId)
      modifies this`drawn, this`objects, this`leaked, this`calls
      modifies mem`comments, mem`tickets, mem`attachments, mem`history, mem`failNext
      ensures Holding({}) && OneRecord(mem.State()) && Grows(old(mem.State()), mem.State())
      ensures SameRoots(old(mem.tickets), mem.tickets) && (old(FutureFree()) ==> FutureFree())
      ensures Touches(old(mem.State()), mem.State(), m.tenant, ticket)
      ensures old(Calm(m)) && S.HasTicket(old(mem.State()), m.tenant, ticket) ==>
                OpenAgain(old(mem.State()), mem.State(), m.tenant, ticket)
      ensures a.None? || !Kept(a.value) ==> mem.State() == old(mem.State())
      ensures old(Calm(m)) && S.HasTicket(old(mem.State()), m.tenant, ticket) ==> a == Some(Threaded(ticket))
      ensures a.Some? && Kept(a.value) ==> a.value == Threaded(ticket) && HasReply(mem.comments, m, ticket, now)
      ensures a.Some? && Kept(a.value) && "CreateAttachment" !in old(mem.failNext) ==>
                ReplyKept(mem.comments, mem.attachments, m, ticket, now)
      ensures mem.failNext <= old(mem.failNext) && (Reliable() ==> leaked == old(leaked))
      ensures a.Some? && Kept(a.value) && m.messageId != "" ==> Recorded(mem.State(), m.tenant, m.messageId, ticket)
      ensures old(Calm(m)) && S.HasTicket(old(mem.State()), m.tenant, ticket) && note != "" ==>
                HasNote(mem.comments, m.tenant, ticket, note, now)
    {
      hide V.Valid, Balanced, Shaped, GoodDraw, DrawnIds, Grows, OneRecord, Recorded, StagedKeys, Distinct,
        DistinctIds, FilesStaged, FilesKept;
      hide Undrawn, SameRoots, SameStatuses, OpenAgain, HasReply, HasNote, ReplyKept, Unrecorded, Touches;
      GrowsSame(mem.State());
      TouchesNothing(mem.State(), m.tenant, ticket);
      SameRootsSame(mem.tickets);
      var staged, ok := Upload(m, ticket);
      if old(FutureFree()) { UndrawnLater(draw, old(drawn), drawn, TakenIds()); }
      if !ok {
        NothingStaged();
        return Some(Failed);
      }
      var id, out := SayReply(m, ticket, staged, now);
      if out != S.Done {
        Discard(staged);
        return if out == S.Conflict then Some(Duplicate(ticket)) else if out == S.NotFound then None else Some(Failed);
      }
      ghost var db := mem.State();
      FinishReply(m, staged, id, ticket, note, now);
      GrowsTwice(old(mem.State()), db, mem.State());
      TouchesTwice(old(mem.State()), db, mem.State(), m.tenant, ticket);
      SameRootsTwice(old(mem.tickets), db.tickets, mem.tickets);
      if old(Calm(m)) && S.HasTicket(old(mem.State()), m.tenant, ticket) {
        OpenAgainLater(old(mem.State()), db, mem.State(), m.tenant, ticket);
      }
      KeepsReply(db, mem.State(), m, ticket, id, now);
      if "CreateAttachment" !in old(mem.failNext) { KeepsReplyFiles(db, mem.State(), m, ticket, id, now); }
      if m.messageId != "" { GrowsKeepsRecords(db, mem.State(), m.tenant, m.messageId, ticket); }
      a := Some(Threaded(ticket));
    }

    /** The reply's row, as a comment of the ticket. */
    method SayReply(m: Mail, ticket: string, staged: seq<Attachment>, now: Time) returns (id: string, out: S.Outcome)
      requires Pending(staged) && Holding(StagedKeys(staged)) && OneRecord(mem.State()) &&
               Unrecorded(mem.State(), m.tenant, m.messageId)
      modifies this`drawn, mem`comments, mem`tickets, mem`failNext
      ensures Pending(staged) && Holding(StagedKeys(staged)) && OneRecord(mem.State()) &&
              Grows(old(mem.State()), mem.State())
      ensures SameRoots(old(mem.tickets), mem.tickets) && SameStatuses(old(mem.tickets), mem.tickets)
      ensures out == S.Done ==> id in mem.comments && mem.comments[id] == S.Written(NewReply(m, ticket, id), now)
      ensures out == S.Done ==> ticket in mem.tickets && mem.tickets[ticket].tenant == m.tenant
      ensures out == S.Done && m.messageId != "" ==> Recorded(mem.State(), m.tenant, m.messageId, ticket)
      ensures out != S.Done ==> mem.State() == old(mem.State())
      ensures mem.failNext <= old(mem.failNext) && (old(FutureFree()) ==> FutureFree())
      ensures "CreateComment" !in old(mem.failNext) && old(FutureFree()) &&
              S.HasTicket(old(mem.State()), m.tenant, ticket) ==>
                out == S.Done
      ensures Touches(old(mem.State()), mem.State(), m.tenant, ticket)
    {
      hide V.Valid, Balanced, Shaped, GoodDraw, DrawnIds, Grows, OneRecord, Recorded, StagedKeys, Distinct,
        DistinctIds;
      hide Undrawn, Unsaid, SameRoots, SameStatuses, Rootless, Unnamed, FreeComment, Unrecorded, Touches;
      ghost var ids := TakenIds();
      if FutureFree() { NotUsed(draw, drawn, ids); }
      NoRootFound(mem.State(), m.tenant, m.messageId);
      NoCommentFound(mem.State(), m.tenant, m.messageId);
      id := Draw(StagedKeys(staged));
      ReplyFree(mem.State(), m, ticket, id);
      out := Say(NewReply(m, ticket, id), now, StagedKeys(staged));
      if old(FutureFree()) { UndrawnBut(draw, old(drawn), ids, TakenIds()); }
    }

    /** What follows a written reply: its attachment rows, the note, and the ticket open again. */
    method FinishReply(m: Mail, staged: seq<Attachment>, comment: string, ticket: string, note: string, now: Time)
      requires Pending(staged) && Holding(StagedKeys(staged)) && OneRecord(mem.State()) &&
               FilesStaged(m, ticket, staged, |m.files|)
      requires ticket in mem.tickets && mem.tickets[ticket].tenant == m.tenant
      requires comment in mem.comments && mem.comments[comment].tenant == m.tenant &&
               mem.comments[comment].ticket == ticket
      modifies this`drawn, this`objects, this`leaked, this`calls
      modifies mem`comments, mem`tickets, mem`attachments, mem`history, mem`failNext
      ensures Holding({}) && OneRecord(mem.State()) && Grows(old(mem.State()), mem.State())
      ensures SameRoots(old(mem.tickets), mem.tickets) && mem.failNext <= old(mem.failNext)
      ensures Reliable() ==> leaked == old(leaked)
      ensures "CreateAttachment" !in old(mem.failNext) ==> FilesKept(mem.attachments, m, ticket, comment)
      ensures old(FutureFree()) ==> FutureFree()
      ensures old(mem.failNext) == {} ==> OpenAgain(old(mem.State()), mem.State(), m.tenant, ticket)
      ensures Touches(old(mem.State()), mem.State(), m.tenant, ticket)
      ensures note != "" && old(mem.failNext) == {} && old(FutureFree()) ==>
                HasNote(mem.comments, m.tenant, ticket, note, now)
    {
      hide V.Valid, Balanced, Shaped, GoodDraw, DrawnIds, Grows, OneRecord, StagedKeys, Distinct, DistinctIds,
        FilesStaged, FilesKept, Undrawn, Unnamed, SameStatuses, SameRoots, OpenAgain, Touches, HasNote;
      Finish(m, staged, comment, ticket, note, now);
      ghost var db := mem.State();
      GrowsKeepsTicket(old(mem.State()), db, ticket);
      Reopen(m.tenant, ticket, now);
      if HasNote(db.comments, m.tenant, ticket, note, now) { GrowsNote(db, mem.State(), m.tenant, ticket, note, now); }
      GrowsTwice(old(mem.State()), db, mem.State());
      TouchesTwice(old(mem.State()), db, mem.State(), m.tenant, ticket);
      SameRootsTwice(old(mem.tickets), db.tickets, mem.tickets);
      if old(mem.failNext) == {} { OpenAgainLater(old(mem.State()), db, mem.State(), m.tenant, ticket); }
    }

    /** The attachment rows and the note, once the row they belong to is written. */
    method Finish(m: Mail, staged: seq<Attachment>, comment: string, ticket: string, note: string, now: Time)
      requires Pending(staged) && Holding(StagedKeys(staged)) && OneRecord(mem.State()) &&
               FilesStaged(m, ticket, staged, |m.files|)
      requires ticket in mem.tickets && mem.tickets[ticket].tenant == m.tenant
      requires comment == "" ||
               (comment in mem.comments && mem.comments[comment].tenant == m.tenant &&
                mem.comments[comment].ticket == ticket)
      modifies this`drawn, this`objects, this`leaked, this`calls
      modifies mem`comments, mem`tickets, mem`attachments, mem`failNext
      ensures Holding({}) && OneRecord(mem.State()) && Grows(old(mem.State()), mem.State())
      ensures SameRoots(old(mem.tickets), mem.tickets) && mem.failNext <= old(mem.failNext)
      ensures Reliable() ==> leaked == old(leaked)
      ensures "CreateAttachment" !in old(mem.failNext) ==> FilesKept(mem.attachments, m, ticket, comment)
      ensures SameStatuses(old(mem.tickets), mem.tickets) && Touches(old(mem.State()), mem.State(), m.tenant, ticket)
      ensures Unnamed(old(mem.comments), mem.comments) && (old(FutureFree()) ==> FutureFree())
      ensures note != "" && old(mem.failNext) == {} && old(FutureFree()) ==>
                HasNote(mem.comments, m.tenant, ticket, note, now)
    {
      hide V.Valid, Balanced, Shaped, GoodDraw, DrawnIds, Grows, OneRecord, StagedKeys, Distinct, DistinctIds,
        FilesStaged, FilesKept, Welcome, AllFiled, Undrawn, Unnamed, SameStatuses, SameRoots, Touches, StagedOn,
        HasNote;
      WelcomeFiles(mem.tickets, mem.comments, m, ticket, staged, comment);
      FilesOn(m, ticket, staged);
      Record(staged, m.tenant, ticket, comment, now);
      if "CreateAttachment" !in old(mem.failNext) { FiledKeeps(mem.attachments, m, ticket, staged, comment, now); }
      ghost var db := mem.State();
      SameRecords(old(mem.State()), db);
      Note(m.tenant, ticket, note, now);
      GrowsTwice(old(mem.State()), db, mem.State());
      TouchesTwice(old(mem.State()), db, mem.State(), m.tenant, ticket);
    }

    /** An internal comment about attachments that were not stored. */
    method Note(tenant: string, ticket: string, note: string, now: Time)
      requires Holding({}) && OneRecord(mem.State())
      modifies this`drawn, mem`comments, mem`tickets, mem`failNext
      ensures Holding({}) && OneRecord(mem.State()) && Grows(old(mem.State()), mem.State())
      ensures SameRoots(old(mem.tickets), mem.tickets) && mem.failNext <= old(mem.failNext)
      ensures SameStatuses(old(mem.tickets), mem.tickets) && Touches(old(mem.State()), mem.State(), tenant, ticket)
      ensures Unnamed(old(mem.comments), mem.comments) && (old(FutureFree()) ==> FutureFree())
      ensures note != "" && "CreateComment" !in old(mem.failNext) && old(FutureFree()) &&
              S.HasTicket(old(mem.State()), tenant, ticket) ==>
                HasNote(mem.comments, tenant, ticket, note, now)
    {
      hide V.Valid, Balanced, Shaped, GoodDraw, DrawnIds, OneRecord, Undrawn, Grows, Touches;
      GrowsSame(mem.State());
      TouchesNothing(mem.State(), tenant, ticket);
      if note == "" { return; }
      if FutureFree() { NotUsed(draw, drawn, TakenIds()); }
      var id := Draw({});
      var _ := Say(Comment(id, tenant, ticket, note, true, "system", "", "Inbound mail", "", "",
                           DELIVERY_NONE, ZERO_TIME), now, {});
      if old(FutureFree()) { UndrawnBut(draw, old(drawn), old(TakenIds()), TakenIds()); }
    }

    /** A reply re-opens a resolved or closed ticket, and the history says so. */
    method Reopen(tenant: string, ticket: string, now: Time)
      requires Holding({}) && OneRecord(mem.State())
      modifies this`drawn, mem`tickets, mem`history, mem`failNext
      ensures Holding({}) && OneRecord(mem.State()) && Grows(old(mem.State()), mem.State())
      ensures SameRoots(old(mem.tickets), mem.tickets) && mem.failNext <= old(mem.failNext)
      ensures (old(FutureFree()) ==> FutureFree()) && Touches(old(mem.State()), mem.State(), tenant, ticket)
      ensures old(mem.failNext) == {} && S.HasTicket(old(mem.State()), tenant, ticket) ==>
                OpenAgain(old(mem.State()), mem.State(), tenant, ticket)
    {
      hide V.Valid, Balanced, Shaped, GoodDraw, DrawnIds, OneRecord, Undrawn, Grows, Touches, Turned;
      ghost var db := mem.State();
      GrowsSame(db);
      TouchesNothing(db, tenant, ticket);
      var out, t := mem.GetTicket(tenant, ticket);
      if out == S.Done && Shut(t.value.status) {
        var id := Draw({});
        var c := T.Caller(tenant, ACTOR_INBOUND, INBOUND_ACTOR_ID, id, now);
        ghost var f := T.Faults("GetTicket" in mem.failNext, "SetStatus" in mem.failNext,
                                "AppendHistory" in mem.failNext);
        ReopenKeeps(db, c, ticket, f);
        StatusTurns(mem.cs, db, c, ticket, STATUS_OPEN, f);
        var _ := desk.SetStatus(c, ticket, STATUS_OPEN);
        if old(FutureFree()) { UndrawnLater(draw, old(drawn), drawn, old(TakenIds())); }
      }
    }

    /** A new ticket with its attachments, its note and its acknowledgement. */
    method Create(d: Delivery) returns (a: Answer)
      requires Holding({}) && OneRecord(mem.State()) && Unrecorded(mem.State(), d.mail.tenant, d.mail.messageId)
      requires Rootless(mem.tickets, d.mail.tenant, d.ackId) && (d.ackId != "" ==> d.ackId != d.mail.messageId)
      modifies this`drawn, this`objects, this`leaked, this`calls
      modifies mem`comments, mem`tickets, mem`attachments, mem`tags, mem`links, mem`history, mem`failNext
      ensures Holding({}) && OneRecord(mem.State()) && Grows(old(mem.State()), mem.State())
      ensures AddsRoot(old(mem.tickets), mem.tickets, d.mail.tenant, d.mail.messageId)
      ensures !Kept(a) ==> mem.State() == old(mem.State())
      ensures old(FutureFree()) ==> FutureFree()
      ensures old(Calm(d.mail)) ==> a.Created?
      ensures a.Created? ==>
                a.ticket in mem.tickets && Begun(S.Opened(NewTicket(d.mail, a.ticket), d.now), mem.tickets[a.ticket])
      ensures a.Created? ==> TicketTells(mem.tickets[a.ticket], d.mail, a.ticket, d.now)
      ensures old(Calm(d.mail)) ==> Planned(mem.cs, mem.State(), S.Opened(NewTicket(d.mail, a.ticket), d.now), d)
      ensures old(Calm(d.mail)) ==> Triaged(mem.cs, mem.State(), a.ticket, d)
      ensures old(Calm(d.mail)) && d.ackId != "" && Unsaid(old(mem.comments), d.mail.tenant, d.ackId) ==>
                HasAck(mem.comments, d, a.ticket) && Recorded(mem.State(), d.mail.tenant, d.ackId, a.ticket)
      ensures a.Created? && "CreateAttachment" !in old(mem.failNext) ==>
                FilesKept(mem.attachments, d.mail, a.ticket, "")
      ensures mem.failNext <= old(mem.failNext) && (Reliable() ==> leaked == old(leaked))
      ensures Kept(a) ==>
                a.Created? &&
                (d.mail.messageId != "" ==> Recorded(mem.State(), d.mail.tenant, d.mail.messageId, a.ticket))
      ensures a.Duplicate? ==> Recorded(mem.State(), d.mail.tenant, d.mail.messageId, a.ticket)
      ensures Kept(a) ==>
                a.ticket !in old(mem.tickets) && Touches(old(mem.State()), mem.State(), d.mail.tenant, a.ticket)
      ensures old(Calm(d.mail)) && d.note != "" ==> HasNote(mem.comments, d.mail.tenant, a.ticket, d.note, d.now)
    {
      hide V.Valid, Balanced, Shaped, GoodDraw, DrawnIds, Grows, OneRecord, Recorded, StagedKeys, Distinct,
        DistinctIds, Rootless;
      hide Unrecorded, AddsRoot, SameRoots, FilesStaged, FilesKept, SameTicket, S.Opened, Undrawn, Unsaid, HasAck,
        HasNote, Planned, Triaged, TicketTells, GrowsBut, Begun, Touches;
      var m := d.mail;
      GrowsSame(mem.State());
      var id, staged, out := Establish(d);
      if out != S.Done {
        Discard(staged);
        a := Refused(m, out);
        return;
      }
      ghost var db := mem.State();
      Settle(d, staged, id);
      AddsRootThen(old(mem.tickets), db.tickets, mem.tickets, m.tenant, m.messageId);
      GrowsThenBut(old(mem.State()), db, mem.State(), id);
      TouchesTwice(old(mem.State()), db, mem.State(), m.tenant, id);
      GrowsButKeepsTicket(db, mem.State(), id);
      BegunTells(m, id, mem.tickets[id], d.now);
      if m.messageId != "" { GrowsButKeepsRecords(db, mem.State(), id, m.tenant, m.messageId, id); }
      if old(Calm(d.mail)) { PlannedIsTriaged(mem.cs, mem.State(), id, d); }
      a := Created(id);
    }

    /** Uploads the attachments and writes the ticket's row. */
    method Establish(d: Delivery) returns (id: string, staged: seq<Attachment>, out: S.Outcome)
      requires Holding({}) && OneRecord(mem.State()) && Unrecorded(mem.State(), d.mail.tenant, d.mail.messageId)
      requires Rootless(mem.tickets, d.mail.tenant, d.ackId) && (d.ackId != "" ==> d.ackId != d.mail.messageId)
      modifies this`drawn, this`objects, this`leaked, this`calls
      modifies mem`tickets, mem`failNext
      ensures Pending(staged) && Holding(StagedKeys(staged)) && OneRecord(mem.State()) &&
              Grows(old(mem.State()), mem.State())
      ensures AddsRoot(old(mem.tickets), mem.tickets, d.mail.tenant, d.mail.messageId)
      ensures out != S.Done ==> mem.State() == old(mem.State())
      ensures mem.failNext <= old(mem.failNext) && (Reliable() ==> leaked == old(leaked)) &&
              (old(FutureFree()) ==> FutureFree())
      ensures old(Calm(d.mail)) ==> out == S.Done
      ensures out == S.Done ==>
                FilesStaged(d.mail, id, staged, |d.mail.files|) && Rootless(mem.tickets, d.mail.tenant, d.ackId)
      ensures out == S.Done ==>
                id !in old(mem.tickets) && id in mem.tickets && mem.tickets[id].tenant == d.mail.tenant &&
                                mem.tickets[id] == S.Opened(NewTicket(d.mail, id), d.now)
      ensures out == S.Done && d.mail.messageId != "" ==> Recorded(mem.State(), d.mail.tenant, d.mail.messageId, id)
      ensures Touches(old(mem.State()), mem.State(), d.mail.tenant, id)
    {
      hide V.Valid, Balanced, Shaped, GoodDraw, DrawnIds, Grows, OneRecord, Recorded, StagedKeys, Distinct,
        DistinctIds, Rootless, S.CreateTicket;
      hide Unrecorded, AddsRoot, SameRoots, FilesStaged, S.Opened, Undrawn, Unsaid, FreeTicket, Housed, Touches;
      var m := d.mail;
      ghost var ids := TakenIds();
      SameRootsSame(mem.tickets);
      SameAddsRoot(mem.tickets, mem.tickets, m.tenant, m.messageId);
      GrowsSame(mem.State());
      if FutureFree() { NotUsed(draw, drawn, ids); }
      id := Draw({});
      var ok;
      staged, ok := Upload(m, id);
      if old(FutureFree()) { UndrawnLater(draw, old(drawn), drawn, ids); }
      TouchesNothing(mem.State(), m.tenant, id);
      if !ok { return id, [], S.Fault; }
      out := OpenNew(d, id, StagedKeys(staged));
      if out == S.Done && old(FutureFree()) { UndrawnAmid(draw, old(drawn), drawn, ids, TakenIds()); }
    }

    /** The row of a new ticket under a new id. */
    method OpenNew(d: Delivery, id: string, ghost held: set<string>) returns (out: S.Outcome)
      requires Holding(held) && OneRecord(mem.State()) && Unrecorded(mem.State(), d.mail.tenant, d.mail.messageId)
      requires Rootless(mem.tickets, d.mail.tenant, d.ackId) && (d.ackId != "" ==> d.ackId != d.mail.messageId)
      modifies mem`tickets, mem`failNext
      ensures Holding(held) && OneRecord(mem.State()) && Grows(old(mem.State()), mem.State())
      ensures AddsRoot(old(mem.tickets), mem.tickets, d.mail.tenant, d.mail.messageId)
      ensures out != S.Done ==> mem.State() == old(mem.State())
      ensures mem.failNext <= old(mem.failNext) && mem.tickets.Keys <= old(mem.tickets.Keys) + {id}
      ensures "CreateTicket" !in old(mem.failNext) && id !in old(mem.tickets) && Housed(mem.mailboxes, d.mail) ==>
                out == S.Done
      ensures out == S.Done ==>
                id !in old(mem.tickets) && id in mem.tickets && mem.tickets[id].tenant == d.mail.tenant &&
                                mem.tickets[id] == S.Opened(NewTicket(d.mail, id), d.now)
      ensures out == S.Done ==> Rootless(mem.tickets, d.mail.tenant, d.ackId)
      ensures out == S.Done && d.mail.messageId != "" ==> Recorded(mem.State(), d.mail.tenant, d.mail.messageId, id)
      ensures Touches(old(mem.State()), mem.State(), d.mail.tenant, id)
    {
      hide V.Valid, Balanced, Shaped, GoodDraw, DrawnIds, Grows, OneRecord, Recorded, Rootless, S.CreateTicket;
      hide Unrecorded, AddsRoot, SameRoots, S.Opened, Unsaid, FreeTicket, Housed, Touches;
      var m := d.mail;
      SameRootsSame(mem.tickets);
      SameAddsRoot(mem.tickets, mem.tickets, m.tenant, m.messageId);
      NoCommentFound(mem.State(), m.tenant, m.messageId);
      NoRootFound(mem.State(), m.tenant, m.messageId);
      TicketFree(mem.State(), m, id);
      OtherRoots(mem.State(), NewTicket(m, id), d.now, d.ackId);
      RootAdded(mem.State(), NewTicket(m, id), d.now);
      RootRow(mem.State(), NewTicket(m, id), d.now);
      out := Open(NewTicket(m, id), d.now, held);
    }

    /** The ticket could not be written: a conflict on the Message-ID is a concurrent duplicate. */
    method Refused(m: Mail, out: S.Outcome) returns (a: Answer)
      requires V.Valid(mem.cs, mem.State())
      modifies mem`failNext
      ensures a == Failed || (a.Duplicate? && Recorded(mem.State(), m.tenant, m.messageId, a.ticket))
      ensures mem.failNext <= old(mem.failNext)
    {
      hide V.Valid, Recorded;
      a := Failed;
      if out == S.Conflict && m.messageId != "" {
        var found, t := mem.FindTicketByExternalID(m.tenant, m.messageId);
        if found == S.Done {
          RootIsRecord(mem.cs, mem.State(), m.tenant, m.messageId, t.value);
          a := Duplicate(t.value.id);
        }
      }
    }

    /** What follows a new ticket: its attachment rows and note, what triage decided, and the acknowledgement. */
    method Settle(d: Delivery, staged: seq<Attachment>, ticket: string)
      requires Pending(staged) && Holding(StagedKeys(staged)) && OneRecord(mem.State())
      requires Rootless(mem.tickets, d.mail.tenant, d.ackId) && FilesStaged(d.mail, ticket, staged, |d.mail.files|)
      requires ticket in mem.tickets && mem.tickets[ticket].tenant == d.mail.tenant
      modifies this`drawn, this`objects, this`leaked, this`calls
      modifies mem`comments, mem`tickets, mem`attachments, mem`tags, mem`links, mem`history, mem`failNext
      ensures Holding({}) && OneRecord(mem.State()) && GrowsBut(old(mem.State()), mem.State(), ticket)
      ensures SameRoots(old(mem.tickets), mem.tickets) && mem.failNext <= old(mem.failNext)
      ensures Reliable() ==> leaked == old(leaked)
      ensures "CreateAttachment" !in old(mem.failNext) ==> FilesKept(mem.attachments, d.mail, ticket, "")
      ensures old(FutureFree()) ==> FutureFree()
      ensures old(mem.failNext) == {} && old(FutureFree()) ==> Planned(mem.cs, mem.State(), old(mem.tickets[ticket]), d)
      ensures old(mem.failNext) == {} && old(FutureFree()) && d.ackId != "" &&
              Unsaid(old(mem.comments), d.mail.tenant, d.ackId) ==>
                HasAck(mem.comments, d, ticket) && Recorded(mem.State(), d.mail.tenant, d.ackId, ticket)
      ensures Touches(old(mem.State()), mem.State(), d.mail.tenant, ticket)
      ensures d.note != "" && old(mem.failNext) == {} && old(FutureFree()) ==>
                HasNote(mem.comments, d.mail.tenant, ticket, d.note, d.now)
    {
      hide V.Valid, Balanced, Shaped, GoodDraw, DrawnIds, Grows, GrowsBut, OneRecord, StagedKeys, Distinct,
        DistinctIds, SameRoots, Rootless, FilesStaged, FilesKept, Undrawn, Unnamed, Unsaid, SameStatuses, Planned,
        HasAck, HasNote, Recorded, SameTicket, Touches;
      Furnish(d, staged, ticket);
      ghost var db := mem.State();
      if d.ackId != "" && Unsaid(old(mem.comments), d.mail.tenant, d.ackId) {
        StaysUnsaid(old(mem.comments), mem.comments, d.mail.tenant, d.ackId);
      }
      StaysRootless(old(mem.tickets), mem.tickets, d.mail.tenant, d.ackId);
      Acknowledge(d, ticket);
      if HasNote(db.comments, d.mail.tenant, ticket, d.note, d.now) {
        GrowsNote(db, mem.State(), d.mail.tenant, ticket, d.note, d.now);
      }
      if old(mem.failNext) == {} && old(FutureFree()) {
        PlannedLater(mem.cs, db, mem.State(), old(mem.tickets[ticket]), d);
      }
      GrowsGrowsBut(db, mem.State(), ticket);
      GrowsButTwice(old(mem.State()), db, mem.State(), ticket);
      TouchesTwice(old(mem.State()), db, mem.State(), d.mail.tenant, ticket);
      SameRootsTwice(old(mem.tickets), db.tickets, mem.tickets);
    }

    /** The attachment rows and the note of a new ticket, and what triage decided. */
    method Furnish(d: Delivery, staged: seq<Attachment>, ticket: string)
      requires Pending(staged) && Holding(StagedKeys(staged)) && OneRecord(mem.State())
      requires FilesStaged(d.mail, ticket, staged, |d.mail.files|)
      requires ticket in mem.tickets && mem.tickets[ticket].tenant == d.mail.tenant
      modifies this`drawn, this`objects, this`leaked, this`calls
      modifies mem`comments, mem`tickets, mem`attachments, mem`tags, mem`links, mem`history, mem`failNext
      ensures Holding({}) && OneRecord(mem.State()) && GrowsBut(old(mem.State()), mem.State(), ticket)
      ensures SameRoots(old(mem.tickets), mem.tickets) && mem.failNext <= old(mem.failNext)
      ensures S.HasTicket(mem.State(), d.mail.tenant, ticket) && Unnamed(old(mem.comments), mem.comments)
      ensures Reliable() ==> leaked == old(leaked)
      ensures "CreateAttachment" !in old(mem.failNext) ==> FilesKept(mem.attachments, d.mail, ticket, "")
      ensures old(FutureFree()) ==> FutureFree()
      ensures old(mem.failNext) == {} && old(FutureFree()) ==> Planned(mem.cs, mem.State(), old(mem.tickets[ticket]), d)
      ensures Touches(old(mem.State()), mem.State(), d.mail.tenant, ticket)
      ensures d.note != "" && old(mem.failNext) == {} && old(FutureFree()) ==>
                HasNote(mem.comments, d.mail.tenant, ticket, d.note, d.now)
    {
      hide V.Valid, Balanced, Shaped, GoodDraw, DrawnIds, Grows, GrowsBut, OneRecord, StagedKeys, Distinct,
        DistinctIds, SameRoots, FilesStaged, FilesKept, Undrawn, Unnamed, SameStatuses, Planned, Touches,
        HasNote;
      Finish(d.mail, staged, "", ticket, d.note, d.now);
      ghost var db := mem.State();
      GrowsGrowsBut(old(mem.State()), db, ticket);
      GrowsKeepsTicket(old(mem.State()), db, ticket);
      SameStatus(old(mem.tickets), db.tickets, ticket);
      Apply(d, ticket);
      if HasNote(db.comments, d.mail.tenant, ticket, d.note, d.now) {
        GrowsButNote(db, mem.State(), ticket, d.mail.tenant, ticket, d.note, d.now);
      }
      if old(mem.failNext) == {} && old(FutureFree()) {
        PlannedSince(mem.cs, mem.State(), db.tickets[ticket], old(mem.tickets[ticket]), d);
      }
      GrowsButTwice(old(mem.State()), db, mem.State(), ticket);
      TouchesTwice(old(mem.State()), db, mem.State(), d.mail.tenant, ticket);
      SameRootsTwice(old(mem.tickets), db.tickets, mem.tickets);
    }

    /** Applies what triage decided to the new ticket. */
    method Apply(d: Delivery, ticket: string)
      requires Holding({}) && OneRecord(mem.State()) && S.HasTicket(mem.State(), d.mail.tenant, ticket)
      modifies this`drawn, mem`tickets, mem`tags, mem`links, mem`history, mem`failNext
      ensures Holding({}) && OneRecord(mem.State()) && GrowsBut(old(mem.State()), mem.State(), ticket)
      ensures SameRoots(old(mem.tickets), mem.tickets) && S.HasTicket(mem.State(), d.mail.tenant, ticket)
      ensures mem.failNext <= old(mem.failNext) && (old(FutureFree()) ==> FutureFree())
      ensures old(mem.failNext) == {} && old(FutureFree()) ==> Planned(mem.cs, mem.State(), old(mem.tickets[ticket]), d)
      ensures Touches(old(mem.State()), mem.State(), d.mail.tenant, ticket)
    {
      hide V.Valid, Balanced, Shaped, GoodDraw, DrawnIds, OneRecord, Undrawn, AllTagged, Turned, GrowsBut,
        SameRoots, Decided, Touches;
      ghost var db := mem.State();
      RootNamed(mem.cs, db, ticket);
      var next := rules.Apply(d.mail.tenant, ticket, d.plan, d.agent, draw, drawn, d.now,
                              mem.tickets.Keys + mem.comments.Keys);
      TurnedKeeps(db, mem.State(), ticket);
      StillThere(db, mem.State(), ticket);
      MoreDrawn(objects, mem.attachments.Keys, draw, drawn, next);
      drawn := next;
    }

    /**
     * One delivery: a Message-ID already on record answers with its ticket (or fails, when a look-up fails) and
     * changes nothing; an accepted message is on record afterwards; nothing but an accepted message writes a row.
     */
    method Ingest(d: Delivery) returns (a: Answer)
      requires Holding({}) && OneRecord(mem.State()) && d.mail.tenant != ""
      requires Rootless(mem.tickets, d.mail.tenant, d.ackId) && (d.ackId != "" ==> d.ackId != d.mail.messageId)
      modifies this`drawn, this`objects, this`leaked, this`calls
      modifies mem`comments, mem`tickets, mem`attachments, mem`tags, mem`links, mem`history, mem`failNext
      ensures Holding({}) && OneRecord(mem.State()) && Grows(old(mem.State()), mem.State())
      ensures AddsRoot(old(mem.tickets), mem.tickets, d.mail.tenant, d.mail.messageId)
      ensures !Kept(a) ==> mem.State() == old(mem.State())
      ensures Kept(a) && d.mail.messageId != "" ==> Recorded(mem.State(), d.mail.tenant, d.mail.messageId, a.ticket)
      ensures forall t :: Recorded(old(mem.State()), d.mail.tenant, d.mail.messageId, t) ==>
                a == Failed || a == Duplicate(t)
      ensures Kept(a) ==> Unrecorded(old(mem.State()), d.mail.tenant, d.mail.messageId)
      ensures mem.failNext <= old(mem.failNext)
      ensures old(mem.failNext) == {} ==>
                forall t :: Recorded(old(mem.State()), d.mail.tenant, d.mail.messageId, t) ==> a == Duplicate(t)
      ensures old(FutureFree()) ==> FutureFree()
      ensures a.Created? ==>
                a.ticket in mem.tickets && Begun(S.Opened(NewTicket(d.mail, a.ticket), d.now), mem.tickets[a.ticket])
      ensures a.Created? ==> TicketTells(mem.tickets[a.ticket], d.mail, a.ticket, d.now)
      ensures old(Calm(d.mail)) && a.Created? ==>
                Planned(mem.cs, mem.State(), S.Opened(NewTicket(d.mail, a.ticket), d.now), d)
      ensures old(Calm(d.mail)) && a.Created? ==> Triaged(mem.cs, mem.State(), a.ticket, d)
      ensures old(Calm(d.mail)) && a.Created? && d.ackId != "" && Unsaid(old(mem.comments), d.mail.tenant, d.ackId) ==>
                HasAck(mem.comments, d, a.ticket) && Recorded(mem.State(), d.mail.tenant, d.ackId, a.ticket)
      ensures old(Calm(d.mail)) && a.Threaded? && a.ticket in old(mem.tickets) ==>
                OpenAgain(old(mem.State()), mem.State(), d.mail.tenant, a.ticket)
      ensures a.Threaded? ==> HasReply(mem.comments, d.mail, a.ticket, d.now)
      ensures a.Threaded? && "CreateAttachment" !in old(mem.failNext) ==>
                ReplyKept(mem.comments, mem.attachments, d.mail, a.ticket, d.now)
      ensures old(Calm(d.mail)) ==> Answered(old(mem.State()), d, a)
      ensures a.Created? && "CreateAttachment" !in old(mem.failNext) ==>
                FilesKept(mem.attachments, d.mail, a.ticket, "")
      ensures Reliable() ==> leaked == old(leaked)
      ensures Stepped(old(mem.State()), mem.State(), d, a)
      ensures forall other :: other != d.mail.tenant ==> I.Of(mem.State(), other) == I.Of(old(mem.State()), other)
      ensures old(Calm(d.mail)) && Kept(a) && d.note != "" ==>
                HasNote(mem.comments, d.mail.tenant, a.ticket, d.note, d.now)
    {
      hide V.Valid, Balanced, Shaped, GoodDraw, DrawnIds, Grows, OneRecord, Recorded, Matches, Unrecorded, Rootless,
        AddsRoot, SameRoots, FilesKept, HasReply, ReplyKept, SameTicket, S.Opened, Undrawn, Unsaid, HasAck, Planned,
        HasNote, Begun, Triaged, TicketTells, OpenAgain, Answered, Touches, I.Of;
      var m := d.mail;
      DuplicatesAnswered(mem.State(), d);
      SameRootsSame(mem.tickets);
      SameAddsRoot(mem.tickets, mem.tickets, m.tenant, m.messageId);
      GrowsSame(mem.State());
      var dup := FindDuplicate(m);
      if dup.Some? { return dup.value; }
      NotRecorded(mem.State(), m.tenant, m.messageId);
      var r := Resolve(mem, m.tenant, d.threadIds, m.text, m.subject);
      if !r.Resolved? { return Failed; }
      ghost var calm := Calm(m);
      assert old(Calm(m)) ==> calm;
      ghost var db := mem.State();
      FoundExists(mem.cs, db, m.tenant, d.threadIds, m.text, m.subject, r.found);
      AnsweredBy(db, d, r.found);
      if r.found != NoMatch {
        var reply := Reply(m, r.found.ticket, d.note, d.now);
        SameAddsRoot(old(mem.tickets), mem.tickets, m.tenant, m.messageId);
        NoneNotices(old(mem.State()), mem.State(), m.tenant, r.found.ticket);
        if reply.Some? { return reply.value; }
      }
      if d.plan.drop { return Dropped; }
      a := Create(d);
      if Kept(a) { NoneNotices(old(mem.State()), mem.State(), m.tenant, a.ticket); }
    }

    /**
     * Any sequence of deliveries: one record per Message-ID, and a redelivery of an accepted one is a duplicate of it.
     * When nothing fails, every delivery is answered as declared of the store it meets; dbs are the stores between.
     */
    method IngestAll(ds: seq<Delivery>) returns (answers: seq<Answer>, ghost dbs: seq<S.Db>)
      requires Holding({}) && OneRecord(mem.State()) && AcksNew(mem.tickets, ds, 0)
      requires forall i :: 0 <= i < |ds| ==> ds[i].mail.tenant != ""
      modifies this`drawn, this`objects, this`leaked, this`calls
      modifies mem`comments, mem`tickets, mem`attachments, mem`tags, mem`links, mem`history, mem`failNext
      ensures Holding({}) && OneRecord(mem.State()) && |answers| == |ds|
      ensures Between(dbs, old(mem.State()), mem.State(), ds, answers)
      ensures forall i, j :: 0 <= i < j < |ds| ==>
                Redelivered(ds[i].mail, answers[i], ds[j].mail, answers[j], old(mem.failNext) == {})
      ensures old(Steady()) ==> AllAnswered(mem.mailboxes, ds, dbs, answers)
    {
      hide V.Valid, Balanced, Shaped, GoodDraw, DrawnIds, Grows, OneRecord, Recorded, Unrecorded, Rootless,
        AddsRoot, AcksNew, Undrawn, Answered, OnFile, Redelivered, Between, AllAnswered, Stepped;
      answers, dbs := [], [mem.State()];
      BetweenOne(mem.State());
      NoneAnswered(mem.mailboxes, ds[..0], dbs, answers);
      var n := 0;
      while n < |ds|
        invariant 0 <= n <= |ds| && |answers| == n && Holding({}) && OneRecord(mem.State()) &&
                  AcksNew(mem.tickets, ds, n)
        invariant forall i :: 0 <= i < n ==> OnFile(mem.State(), ds[i].mail, answers[i])
        invariant mem.failNext <= old(mem.failNext) && (old(Steady()) ==> Steady())
        invariant Between(dbs, old(mem.State()), mem.State(), ds[..n], answers)
        invariant forall i, j :: 0 <= i < j < n ==>
                    Redelivered(ds[i].mail, answers[i], ds[j].mail, answers[j], old(mem.failNext) == {})
        invariant old(Steady()) ==> AllAnswered(mem.mailboxes, ds[..n], dbs, answers)
        modifies this`drawn, this`objects, this`leaked, this`calls
        modifies mem`comments, mem`tickets, mem`attachments, mem`tags, mem`links, mem`history, mem`failNext
      {
        ghost var db := mem.State();
        AckIsNew(mem.tickets, ds, n);
        var a := Ingest(ds[n]);
        AcksStayNew(db.tickets, mem.tickets, ds, n);
        forall i | 0 <= i < n
          ensures OnFile(mem.State(), ds[i].mail, answers[i]) &&
                  Redelivered(ds[i].mail, answers[i], ds[n].mail, a, old(mem.failNext) == {})
        {
          StaysOnFile(db, mem.State(), ds[i].mail, answers[i]);
          RedeliveredNow(db, ds[i].mail, answers[i], ds[n].mail, a, old(mem.failNext) == {});
        }
        FiledNow(mem.State(), ds[n].mail, a);
        assert ds[..n + 1] == ds[..n] + [ds[n]];
        BetweenMore(dbs, old(mem.State()), db, mem.State(), ds[..n], answers, ds[n], a);
        if old(Steady()) { AnsweredMore(mem.mailboxes, ds[..n], dbs, answers, ds[n], mem.State(), a); }
        answers, dbs := answers + [a], dbs + [mem.State()];
        n := n + 1;
      }
      assert ds[..n] == ds;
    }

    /** The acknowledgement is recorded as a public comment with its own Message-ID before it is sent. */
    method Acknowledge(d: Delivery, ticket: string)
      requires Holding({}) && OneRecord(mem.State())
      requires Rootless(mem.tickets, d.mail.tenant, d.ackId)
      modifies this`drawn, mem`comments, mem`tickets, mem`failNext
      ensures Holding({}) && OneRecord(mem.State()) && Grows(old(mem.State()), mem.State())
      ensures SameRoots(old(mem.tickets), mem.tickets) && SameStatuses(old(mem.tickets), mem.tickets)
      ensures mem.failNext <= old(mem.failNext) && (old(FutureFree()) ==> FutureFree())
      ensures d.ackId != "" && "CreateComment" !in old(mem.failNext) && old(FutureFree()) &&
              S.HasTicket(old(mem.State()), d.mail.tenant, ticket) &&
              Unsaid(old(mem.comments), d.mail.tenant, d.ackId) ==>
                Recorded(mem.State(), d.mail.tenant, d.ackId, ticket) &&
                ("SetCommentDelivery" !in old(mem.failNext) ==> HasAck(mem.comments, d, ticket))
      ensures Touches(old(mem.State()), mem.State(), d.mail.tenant, ticket)
    {
      hide V.Valid, Balanced, Shaped, GoodDraw, DrawnIds, OneRecord, Undrawn, Grows, Unsaid, Recorded, SameRoots,
        SameStatuses, Rootless, Touches;
      TouchesNothing(mem.State(), d.mail.tenant, ticket);
      GrowsSame(mem.State());
      SameRootsSame(mem.tickets);
      SameStatusesSame(mem.tickets);
      if d.ackId == "" { return; }
      ghost var ids := TakenIds();
      if FutureFree() { NotUsed(draw, drawn, ids); }
      var id := Draw({});
      var out := Say(NewAck(d, ticket, id), d.now, {});
      if old(FutureFree()) { UndrawnBut(draw, old(drawn), ids, TakenIds()); }
      if out == S.Done { Deliver(d, ticket, id, old(mem.State())); }
    }

    /** The mail was sent, or not: its comment, new since some earlier state, says so. */
    method Deliver(d: Delivery, ticket: string, id: string, ghost db: S.Db)
      requires Holding({}) && OneRecord(mem.State()) && Grows(db, mem.State())
      requires Touches(db, mem.State(), d.mail.tenant, ticket) && id !in db.comments
      requires id in mem.comments && mem.comments[id] == S.Written(NewAck(d, ticket, id), d.now)
      modifies mem`comments, mem`failNext
      ensures Holding({}) && OneRecord(mem.State()) && Grows(db, mem.State())
      ensures Touches(db, mem.State(), d.mail.tenant, ticket)
      ensures mem.failNext <= old(mem.failNext) && mem.comments.Keys == old(mem.comments.Keys)
      ensures d.ackId != "" ==> Recorded(mem.State(), d.mail.tenant, d.ackId, ticket)
      ensures "SetCommentDelivery" !in old(mem.failNext) ==> HasAck(mem.comments, d, ticket)
    {
      hide V.Valid, Balanced, Shaped, GoodDraw, DrawnIds, OneRecord, Grows, Recorded, Touches, HasAck;
      var tenant := d.mail.tenant;
      AckNamed(mem.State(), d, ticket, id);
      DeliveryNoted(db, mem.State(), d, ticket, id);
      DeliveryTouches(db, mem.State(), tenant, ticket, id, AckState(d));
      V.SetDeliveryKeepsValid(mem.cs, mem.State(), tenant, id, AckState(d));
      var _ := mem.SetCommentDelivery(tenant, id, AckState(d));
    }
  }

  lemma AckNamed(s: S.Db, d: Delivery, ticket: string, id: string)
    requires id in s.comments && s.comments[id] == S.Written(NewAck(d, ticket, id), d.now)
    ensures d.ackId != "" ==> Recorded(s, d.mail.tenant, d.ackId, ticket)
  {
    assert CommentIs(s.comments, id, d.mail.tenant, d.ackId);
  }

  lemma DeliveryNoted(db: S.Db, s: S.Db, d: Delivery, ticket: string, id: string)
    requires OneRecord(s) && Grows(db, s) && id !in db.comments
    requires id in s.comments && s.comments[id] == S.Written(NewAck(d, ticket, id), d.now)
    ensures var e := S.SetDelivery(s, d.mail.tenant, id, AckState(d)).db;
            e == s.(comments := e.comments) && e.comments.Keys == s.comments.Keys && OneRecord(e) && Grows(db, e) &&
            HasAck(e.comments, d, ticket) && (d.ackId != "" ==> Recorded(e, d.mail.tenant, d.ackId, ticket))
  {
    var e := S.SetDelivery(s, d.mail.tenant, id, AckState(d)).db;
    assert CommentIs(e.comments, id, d.mail.tenant, d.ackId);
    forall j, k | j in e.tickets && k in e.comments ensures Separate(e.tickets[j], e.comments[k]) {
      assert Separate(s.tickets[j], s.comments[k]);
    }
    assert AckTells(e.comments[id], d.mail.tenant, ticket, d.ackBody, d.ackId, d.ackSent, d.now);
  }

  lemma NoneNotices(a: S.Db, b: S.Db, tenant: string, ticket: string)
    requires Touches(a, b, tenant, ticket)
    ensures forall other :: other != tenant ==> I.Of(b, other) == I.Of(a, other)
  {
    hide Touches, I.Of;
    forall other | other != tenant
      ensures I.Of(b, other) == I.Of(a, other)
    {
      TouchesIsolates(a, b, tenant, ticket, other);
    }
  }

  /**
   * What one delivery changes: an accepted one touches the ticket it is answered with and no other, the rest
   * nothing. A new ticket, or a new comment of the ticket, says what the message says.
   */
  ghost predicate Stepped(a: S.Db, b: S.Db, d: Delivery, answer: Answer) {
    if !Kept(answer) then b == a
    else
      Touches(a, b, d.mail.tenant, answer.ticket) && (answer.Created? <==> answer.ticket !in a.tickets) &&
      (answer.Created? ==>
         answer.ticket in b.tickets && TicketTells(b.tickets[answer.ticket], d.mail, answer.ticket, d.now)) &&
      (answer.Threaded? ==> HasReply(b.comments, d.mail, answer.ticket, d.now))
  }

  /** The stores met from one end of a run to the other: records are only added, each step within its frame. */
  ghost predicate Between(dbs: seq<S.Db>, a: S.Db, b: S.Db, ds: seq<Delivery>, answers: seq<Answer>) {
    |answers| == |ds| && |dbs| == |ds| + 1 && dbs[0] == a && dbs[|ds|] == b &&
    forall i :: 0 <= i < |ds| ==>
      Grows(dbs[i], dbs[i + 1]) && Stepped(dbs[i], dbs[i + 1], ds[i], answers[i])
  }

  /** However many messages are delivered, a tenant none of them is for sees nothing of it. */
  lemma {:induction false} OthersSeeNothing(dbs: seq<S.Db>, a: S.Db, b: S.Db, ds: seq<Delivery>, answers: seq<Answer>,
                                            other: string)
    requires Between(dbs, a, b, ds, answers) && forall i :: 0 <= i < |ds| ==> ds[i].mail.tenant != other
    ensures I.Of(b, other) == I.Of(a, other)
  {
    hide Grows, Touches, I.Of;
    if ds != [] {
      var n := |ds| - 1;
      assert Stepped(dbs[n], dbs[n + 1], ds[n], answers[n]);
      OthersSeeNothing(dbs[..n + 1], a, dbs[n], ds[..n], answers[..n], other);
      if Kept(answers[n]) { TouchesIsolates(dbs[n], b, ds[n].mail.tenant, answers[n].ticket, other); }
    }
  }

  /** Every delivery to a mailbox of its tenant is answered as declared of the store it meets. */
  ghost predicate AllAnswered(mailboxes: map<string, Mailbox>, ds: seq<Delivery>, dbs: seq<S.Db>,
                              answers: seq<Answer>) {
    |answers| == |ds| && |dbs| == |ds| + 1 &&
    forall i :: 0 <= i < |ds| && Housed(mailboxes, ds[i].mail) ==> Answered(dbs[i], ds[i], answers[i])
  }

  lemma NoneAnswered(mailboxes: map<string, Mailbox>, ds: seq<Delivery>, dbs: seq<S.Db>, answers: seq<Answer>)
    requires ds == [] && answers == [] && |dbs| == 1
    ensures AllAnswered(mailboxes, ds, dbs, answers)
  {
  }

  lemma AnsweredMore(mailboxes: map<string, Mailbox>, ds: seq<Delivery>, dbs: seq<S.Db>, answers: seq<Answer>,
                     d: Delivery, db: S.Db, a: Answer)
    requires AllAnswered(mailboxes, ds, dbs, answers)
    requires Housed(mailboxes, d.mail) ==> Answered(dbs[|ds|], d, a)
    ensures AllAnswered(mailboxes, ds + [d], dbs + [db], answers + [a])
  {
    hide Answered;
  }

  lemma BetweenOne(db: S.Db)
    ensures Between([db], db, db, [], [])
  {
  }

  lemma BetweenMore(dbs: seq<S.Db>, a: S.Db, b: S.Db, c: S.Db, ds: seq<Delivery>, answers: seq<Answer>, d: Delivery,
                    answer: Answer)
    requires Between(dbs, a, b, ds, answers) && Grows(b, c) && Stepped(b, c, d, answer)
    ensures Between(dbs + [c], a, c, ds + [d], answers + [answer]) && |dbs| == |ds| + 1 && dbs[|ds|] == b
  {
    hide Grows, Stepped;
    var dbs', ds', answers' := dbs + [c], ds + [d], answers + [answer];
    forall i | 0 <= i < |ds'|
      ensures Grows(dbs'[i], dbs'[i + 1]) && Stepped(dbs'[i], dbs'[i + 1], ds'[i], answers'[i])
    {
      if i < |ds| { assert Grows(dbs[i], dbs[i + 1]); }
    }
  }

  /** Each acknowledgement still to come carries an id of its own: no root's, and no message's delivered by then. */
  ghost predicate AcksNew(tickets: map<string, Ticket>, ds: seq<Delivery>, n: nat) {
    forall i :: n <= i < |ds| ==> AckNew(tickets, ds, i)
  }

  ghost predicate AckNew(tickets: map<string, Ticket>, ds: seq<Delivery>, i: nat)
    requires i < |ds|
  {
    ds[i].ackId != "" ==>
      Rootless(tickets, ds[i].mail.tenant, ds[i].ackId) &&
      forall j :: 0 <= j <= i && ds[j].mail.tenant == ds[i].mail.tenant ==> ds[j].mail.messageId != ds[i].ackId
  }

  lemma AckIsNew(tickets: map<string, Ticket>, ds: seq<Delivery>, n: nat)
    requires AcksNew(tickets, ds, n) && n < |ds|
    ensures Rootless(tickets, ds[n].mail.tenant, ds[n].ackId) &&
            (ds[n].ackId != "" ==> ds[n].ackId != ds[n].mail.messageId)
  {
    assert AckNew(tickets, ds, n);
  }

  lemma AcksStayNew(a: map<string, Ticket>, b: map<string, Ticket>, ds: seq<Delivery>, n: nat)
    requires AcksNew(a, ds, n) && n < |ds| && AddsRoot(a, b, ds[n].mail.tenant, ds[n].mail.messageId)
    ensures AcksNew(b, ds, n + 1)
  {
    hide Rootless, AddsRoot;
    forall i | n + 1 <= i < |ds| ensures AckNew(b, ds, i) {
      assert AckNew(a, ds, i);
      if ds[i].ackId != "" {
        RootlessAfter(a, b, ds[n].mail.tenant, ds[n].mail.messageId, ds[i].mail.tenant, ds[i].ackId);
      }
    }
  }

  ghost predicate OnFile(db: S.Db, m: Mail, a: Answer) {
    Kept(a) && m.messageId != "" ==> Recorded(db, m.tenant, m.messageId, a.ticket)
  }

  lemma StaysOnFile(a: S.Db, b: S.Db, m: Mail, answer: Answer)
    requires Grows(a, b) && OnFile(a, m, answer)
    ensures OnFile(b, m, answer)
  {
    if Kept(answer) && m.messageId != "" { GrowsKeepsRecords(a, b, m.tenant, m.messageId, answer.ticket); }
  }

  /** A message with the Message-ID of an accepted earlier one is its duplicate, unless a failing look-up refuses it. */
  predicate Redelivered(m: Mail, a: Answer, m': Mail, a': Answer, faultless: bool) {
    Kept(a) && m.messageId != "" && m'.messageId == m.messageId && m'.tenant == m.tenant ==>
      a' == Duplicate(a.ticket) || (!faultless && a' == Failed)
  }

  lemma RedeliveredNow(db: S.Db, m: Mail, a: Answer, m': Mail, a': Answer, faultless: bool)
    requires OnFile(db, m, a)
    requires forall t :: Recorded(db, m'.tenant, m'.messageId, t) ==> a' == Duplicate(t) || (!faultless && a' == Failed)
    ensures Redelivered(m, a, m', a', faultless)
  {
    hide Recorded;
  }

  lemma FiledNow(db: S.Db, m: Mail, a: Answer)
    requires Kept(a) && m.messageId != "" ==> Recorded(db, m.tenant, m.messageId, a.ticket)
    ensures OnFile(db, m, a)
  {
    hide Recorded;
  }

  /** The declared answer: a duplicate of its record, else threaded where it matches, else dropped or a new ticket. */
  ghost predicate Answered(db: S.Db, d: Delivery, a: Answer) {
    (a.Duplicate? && Recorded(db, d.mail.tenant, d.mail.messageId, a.ticket)) ||
    (Unrecorded(db, d.mail.tenant, d.mail.messageId) &&
     exists f: Found ::
       Matches(db, d.mail.tenant, d.threadIds, d.mail.text, d.mail.subject, f) && Leads(f, d.plan.drop, a))
  }

  predicate Leads(f: Found, drop: bool, a: Answer) {
    if f.Found? then a == Threaded(f.ticket) else if drop then a == Dropped else a.Created?
  }

  lemma DuplicatesAnswered(db: S.Db, d: Delivery)
    ensures forall t :: Recorded(db, d.mail.tenant, d.mail.messageId, t) ==> Answered(db, d, Duplicate(t))
  {
    hide Recorded, Unrecorded, Matches;
  }

  lemma AnsweredBy(db: S.Db, d: Delivery, f: Found)
    requires Unrecorded(db, d.mail.tenant, d.mail.messageId)
    requires Matches(db, d.mail.tenant, d.threadIds, d.mail.text, d.mail.subject, f)
    ensures forall a :: Leads(f, d.plan.drop, a) ==> Answered(db, d, a)
  {
    hide Recorded, Unrecorded, Matches;
  }

  /** A message only ever matches a ticket of its tenant. */
  lemma FoundExists(cs: Casing, db: S.Db, tenant: string, ids: seq<string>, text: string, subject: string, f: Found)
    requires V.Valid(cs, db) && Matches(db, tenant, ids, text, subject, f)
    ensures f.Found? ==> S.HasTicket(db, tenant, f.ticket)
  {
    hide V.Uniqueness, V.Counted, V.TicketRefs, V.AttachmentRefs, V.LinkRefs, V.HistoryRefs;
    assert V.CommentRefs(db.comments, db.tickets) && V.KeysMatch(db);
  }

  /** The new ticket as triage decided it: the decided values, and every decided tag. */
  ghost predicate Planned(cs: Casing, b: S.Db, t: Ticket, d: Delivery) {
    t.id in b.tickets && Decided(t, b.tickets[t.id], d.plan, d.agent) &&
    AllTagged(cs, b.tags, S.Linked(b.links, t.id), t.tenant, d.plan.tags)
  }

  /** The values a new ticket has: those triage decided where they are valid, and the defaults where not. */
  ghost predicate Triaged(cs: Casing, b: S.Db, ticket: string, d: Delivery) {
    ticket in b.tickets &&
    var taken := d.plan.assignee != "" && d.agent.Some?;
    var t := b.tickets[ticket];
    t.status == (if d.plan.status in STATUSES then d.plan.status else "open") &&
    t.priority == (if d.plan.priority in PRIORITIES then d.plan.priority else "normal") &&
    t.assignee == (if taken then d.plan.assignee else "") &&
    t.assigneeName == (if taken then d.agent.value else "") &&
    AllTagged(cs, b.tags, S.Linked(b.links, ticket), d.mail.tenant, d.plan.tags)
  }

  lemma PlannedIsTriaged(cs: Casing, b: S.Db, ticket: string, d: Delivery)
    requires Planned(cs, b, S.Opened(NewTicket(d.mail, ticket), d.now), d)
    ensures Triaged(cs, b, ticket, d)
  {
    hide AllTagged, STATUSES, PRIORITIES;
    NewTicketTells(d.mail, ticket, d.now);
  }

  lemma PlannedLater(cs: Casing, b: S.Db, c: S.Db, t: Ticket, d: Delivery)
    requires Planned(cs, b, t, d) && Grows(b, c) && SameStatuses(b.tickets, c.tickets) && c.tags == b.tags &&
             c.links == b.links
    ensures Planned(cs, c, t, d)
  {
    hide AllTagged;
    assert SameTicket(b.tickets[t.id], c.tickets[t.id]);
  }

  lemma PlannedSince(cs: Casing, b: S.Db, t: Ticket, t': Ticket, d: Delivery)
    requires Planned(cs, b, t, d) && SameTicket(t', t) && t'.status == t.status
    ensures Planned(cs, b, t', d)
  {
    hide AllTagged;
  }

  /** The acknowledgement: a public system comment with a Message-ID of its own. */
  function NewAck(d: Delivery, ticket: string, id: string): Comment {
    Comment(id, d.mail.tenant, ticket, d.ackBody, false, "system", INBOUND_ACTOR_ID, "Auto-acknowledgement", "",
            d.ackId, DELIVERY_NONE, ZERO_TIME)
  }

  /** What the acknowledgement's comment says once the mail was handed over, or could not be. */
  function AckState(d: Delivery): string { if d.ackSent then DELIVERY_SENT else DELIVERY_FAILED }

  ghost predicate HasAck(comments: map<string, Comment>, d: Delivery, ticket: string) {
    exists k :: k in comments &&
                AckTells(comments[k], d.mail.tenant, ticket, d.ackBody, d.ackId, d.ackSent, d.now)
  }

  /** The reply is a comment of the ticket, as the message says it. */
  ghost predicate HasReply(comments: map<string, Comment>, m: Mail, ticket: string, now: Time) {
    exists k :: k in comments && ReplyTells(comments[k], m, ticket, now)
  }

  /** What was not stored is noted on the ticket. */
  ghost predicate HasNote(comments: map<string, Comment>, tenant: string, ticket: string, note: string, now: Time) {
    exists k :: k in comments && NoteTells(comments[k], tenant, ticket, note, now)
  }

  lemma GrowsNote(a: S.Db, b: S.Db, tenant: string, ticket: string, note: string, now: Time)
    requires HasNote(a.comments, tenant, ticket, note, now) && Grows(a, b)
    ensures HasNote(b.comments, tenant, ticket, note, now)
  {
    KeepsNote(a, b, tenant, ticket, note, now);
  }

  lemma GrowsButNote(a: S.Db, b: S.Db, id: string, tenant: string, ticket: string, note: string, now: Time)
    requires HasNote(a.comments, tenant, ticket, note, now) && GrowsBut(a, b, id)
    ensures HasNote(b.comments, tenant, ticket, note, now)
  {
    KeepsNote(a, b, tenant, ticket, note, now);
  }

  lemma KeepsNote(a: S.Db, b: S.Db, tenant: string, ticket: string, note: string, now: Time)
    requires HasNote(a.comments, tenant, ticket, note, now)
    requires forall k :: k in a.comments ==> k in b.comments && b.comments[k] == a.comments[k]
    ensures HasNote(b.comments, tenant, ticket, note, now)
  {
    var k :| k in a.comments && NoteTells(a.comments[k], tenant, ticket, note, now);
    assert k in b.comments;
  }

  lemma KeepsReply(a: S.Db, b: S.Db, m: Mail, ticket: string, id: string, now: Time)
    requires Grows(a, b) && id in a.comments && a.comments[id] == S.Written(NewReply(m, ticket, id), now)
    ensures HasReply(b.comments, m, ticket, now)
  {
    assert id in b.comments && b.comments[id] == a.comments[id];
    NewReplyTells(m, ticket, id, now);
  }

  lemma GrowsKeepsTicket(a: S.Db, b: S.Db, id: string)
    requires Grows(a, b) && id in a.tickets
    ensures id in b.tickets && SameTicket(a.tickets[id], b.tickets[id])
  {
  }

  /** What a new ticket says stays said. */
  lemma BegunTells(m: Mail, id: string, t: Ticket, now: Time)
    requires Begun(S.Opened(NewTicket(m, id), now), t)
    ensures TicketTells(t, m, id, now)
  {
    NewTicketTells(m, id, now);
  }

  lemma GrowsButKeepsTicket(a: S.Db, b: S.Db, id: string)
    requires GrowsBut(a, b, id) && id in a.tickets
    ensures id in b.tickets && Begun(a.tickets[id], b.tickets[id])
  {
  }

  lemma RootRow(db: S.Db, t: Ticket, now: Time)
    ensures var r := S.CreateTicket(db, t, now);
            r.out == S.Done ==> t.id !in db.tickets && r.db.tickets == db.tickets[t.id := S.Opened(t, now)] &&
                                S.Opened(t, now).tenant == t.tenant && S.Opened(t, now).id == t.id
  {
    hide S.ExternalTaken, S.MailboxKnown;
  }

  lemma SameRootsSame(a: map<string, Ticket>)
    ensures SameRoots(a, a)
  {
  }

  lemma SameRootsTwice(a: map<string, Ticket>, b: map<string, Ticket>, c: map<string, Ticket>)
    requires SameRoots(a, b) && SameRoots(b, c)
    ensures SameRoots(a, c)
  {
  }

  lemma SameStatusesSame(a: map<string, Ticket>)
    ensures SameStatuses(a, a)
  {
  }

  lemma SameStatus(a: map<string, Ticket>, b: map<string, Ticket>, k: string)
    requires SameStatuses(a, b) && k in b
    ensures k in a && b[k].status == a[k].status
  {
  }

  lemma StillThere(a: S.Db, b: S.Db, id: string)
    requires Turned(a, b, id) && id in a.tickets
    ensures b.tickets.Keys == a.tickets.Keys && Worked(a.tickets[id], b.tickets[id])
  {
  }

  lemma RootAdded(db: S.Db, t: Ticket, now: Time)
    ensures AddsRoot(db.tickets, S.CreateTicket(db, t, now).db.tickets, t.tenant, t.externalId)
  {
    hide S.ExternalTaken, S.MailboxKnown;
  }

  lemma NotRecorded(db: S.Db, tenant: string, id: string)
    requires Unrecorded(db, tenant, id)
    ensures forall t :: !Recorded(db, tenant, id, t)
  {
    forall t ensures !Recorded(db, tenant, id, t) {
      if id != "" {
        assert forall k :: !CommentIs(db.comments, k, tenant, id);
        assert forall k :: !RootIs(db.tickets, k, tenant, id);
      }
    }
  }

  lemma NoCommentFound(db: S.Db, tenant: string, id: string)
    requires Unrecorded(db, tenant, id)
    ensures id == "" || (FindComment(db, tenant, id).None? && Unsaid(db.comments, tenant, id))
  {
  }

  lemma NoRootFound(db: S.Db, tenant: string, id: string)
    requires Unrecorded(db, tenant, id)
    ensures Rootless(db.tickets, tenant, id)
  {
  }

  lemma GrowsSame(db: S.Db)
    ensures Grows(db, db)
  {
  }

  lemma MoreIds(objects: set<string>, draw: nat -> string, n: nat)
    requires Shaped(objects, DrawnIds(draw, n))
    ensures Shaped(objects, DrawnIds(draw, n + 1))
  {
    assert DrawnIds(draw, n) <= DrawnIds(draw, n + 1);
  }

  /** An id drawn some time ago is used. */
  lemma UndrawnAmid(draw: nat -> string, n: nat, n': nat, ids: set<string>, ids': set<string>)
    requires GoodDraw(draw) && Undrawn(draw, n, ids) && n < n' && ids' <= ids + {draw(n)}
    ensures Undrawn(draw, n', ids')
  {
  }

  lemma MoreDrawn(objects: set<string>, rows: set<string>, draw: nat -> string, n: nat, n': nat)
    requires Shaped(objects, DrawnIds(draw, n)) && rows <= DrawnIds(draw, n) && n <= n'
    ensures Shaped(objects, DrawnIds(draw, n')) && rows <= DrawnIds(draw, n')
  {
    assert DrawnIds(draw, n) <= DrawnIds(draw, n');
  }

  lemma SameRecords(a: S.Db, b: S.Db)
    requires OneRecord(a) && b.tickets == a.tickets && b.comments == a.comments
    ensures OneRecord(b) && Grows(a, b)
    ensures SameRoots(a.tickets, b.tickets)
  {
  }

  lemma RootIsRecord(cs: Casing, db: S.Db, tenant: string, messageId: string, t: Ticket)
    requires V.Valid(cs, db) && messageId != "" && t.tenant == tenant && t.externalId == messageId
    requires exists k :: k in db.tickets && db.tickets[k] == t
    ensures Recorded(db, tenant, messageId, t.id)
  {
    hide V.Valid;
    var k :| k in db.tickets && db.tickets[k] == t;
    RootNamed(cs, db, k);
  }

  /** Opening a ticket makes no other Message-ID a root. */
  lemma OtherRoots(db: S.Db, t: Ticket, now: Time, id: string)
    requires Rootless(db.tickets, t.tenant, id) && (id != "" ==> id != t.externalId)
    ensures Rootless(S.CreateTicket(db, t, now).db.tickets, t.tenant, id)
  {
    forall k ensures RootIs(S.CreateTicket(db, t, now).db.tickets, k, t.tenant, id) ==>
                       RootIs(db.tickets, k, t.tenant, id) || id == t.externalId
    {
    }
  }

  // ------------------------------------------------------------------ moves between accounts

  lemma NothingStaged()
    ensures StagedKeys([]) == {} && Distinct([]) && DistinctIds([])
  {
  }

  /**
   * What writing an attachment row does; it is refused only without its ticket or comment, or when its id or key
   * is taken.
   */
  lemma CreatesFile(db: S.Db, a: Attachment, now: Time)
    ensures var r := S.CreateAttachment(db, a, now);
            (r.out != S.Done ==> r.db == db) &&
            (r.out == S.Done ==>
              r.db.attachments == db.attachments[a.id := a.(createdAt := OrNow(a.createdAt, now))]) &&
            (r.out == S.Done ==> a.id !in db.attachments) &&
            (r.out == S.Done <== S.HasTicket(db, a.tenant, a.ticket) &&
                                 (a.comment == "" || S.CommentMatches(db.comments, a)) &&
                                 a.id !in db.attachments && a.storageKey !in RowKeys(db.attachments))
  {
    hide S.HasTicket, S.CommentMatches;
  }

  lemma FirstFree(rows: set<string>, leaked: set<string>, mine: set<string>, key: string, objects: set<string>)
    requires Balanced(rows, leaked, [mine], objects) && key in mine
    ensures key !in rows
  {
    assert [mine][0] !! rows;
  }

  predicate DistinctIds(staged: seq<Attachment>) {
    forall i, j :: 0 <= i < j < |staged| ==> staged[i].id != staged[j].id
  }

  predicate StagedOn(staged: seq<Attachment>, tenant: string, ticket: string) {
    forall i :: 0 <= i < |staged| ==> staged[i].tenant == tenant && staged[i].ticket == ticket
  }

  lemma FilesOn(m: Mail, ticket: string, staged: seq<Attachment>)
    requires FilesStaged(m, ticket, staged, |m.files|)
    ensures StagedOn(staged, m.tenant, ticket)
  {
  }

  /** The first n files of a message, staged in order. */
  predicate FilesStaged(m: Mail, ticket: string, staged: seq<Attachment>, n: int) {
    n == |staged| <= |m.files| && forall i :: 0 <= i < n ==> staged[i] == Staged(m, ticket, m.files[i], staged[i].id)
  }

  /** A row the store accepts: its ticket is there, and its comment if it names one. */
  predicate Accepts(tickets: map<string, Ticket>, comments: map<string, Comment>, a: Attachment, comment: string) {
    a.ticket in tickets && tickets[a.ticket].tenant == a.tenant &&
    (comment == "" || S.CommentMatches(comments, a.(comment := comment)))
  }

  predicate Welcome(tickets: map<string, Ticket>, comments: map<string, Comment>, staged: seq<Attachment>,
                    comment: string) {
    forall i :: 0 <= i < |staged| ==> Accepts(tickets, comments, staged[i], comment)
  }

  predicate FiledAs(rows: map<string, Attachment>, a: Attachment, comment: string, now: Time) {
    a.id in rows && rows[a.id] == a.(comment := comment, createdAt := OrNow(a.createdAt, now))
  }

  predicate AllFiled(rows: map<string, Attachment>, staged: seq<Attachment>, comment: string, now: Time) {
    forall i :: 0 <= i < |staged| ==> FiledAs(rows, staged[i], comment, now)
  }

  lemma NoneFiled(rows: map<string, Attachment>, comment: string, now: Time)
    ensures AllFiled(rows, [], comment, now)
  {
  }

  lemma WelcomeOne(tickets: map<string, Ticket>, comments: map<string, Comment>, staged: seq<Attachment>,
                   comment: string, n: nat)
    requires Welcome(tickets, comments, staged, comment) && n < |staged|
    ensures Accepts(tickets, comments, staged[n], comment)
  {
  }

  /** Staged files of one message are accepted together. */
  lemma WelcomeFiles(tickets: map<string, Ticket>, comments: map<string, Comment>, m: Mail, ticket: string,
                     staged: seq<Attachment>, comment: string)
    requires FilesStaged(m, ticket, staged, |m.files|) && ticket in tickets && tickets[ticket].tenant == m.tenant
    requires comment == "" ||
             (comment in comments && comments[comment].tenant == m.tenant && comments[comment].ticket == ticket)
    ensures Welcome(tickets, comments, staged, comment)
  {
  }

  /** Every file of the message has its row on the ticket, or on one of its comments. */
  ghost predicate FilesKept(rows: map<string, Attachment>, m: Mail, ticket: string, comment: string) {
    forall i :: 0 <= i < |m.files| ==> HasFile(rows, m.tenant, ticket, comment, m.files[i])
  }

  ghost predicate HasFile(rows: map<string, Attachment>, tenant: string, ticket: string, comment: string, f: File) {
    exists k :: k in rows && FileTells(rows[k], k, tenant, ticket, comment, f)
  }

  /** The reply's comment has every file of the message. */
  ghost predicate ReplyKept(comments: map<string, Comment>, rows: map<string, Attachment>, m: Mail, ticket: string,
                            now: Time) {
    exists k :: k in comments && ReplyTells(comments[k], m, ticket, now) && FilesKept(rows, m, ticket, k)
  }

  lemma FiledKeeps(rows: map<string, Attachment>, m: Mail, ticket: string, staged: seq<Attachment>, comment: string,
                   now: Time)
    requires FilesStaged(m, ticket, staged, |m.files|) && AllFiled(rows, staged, comment, now)
    ensures FilesKept(rows, m, ticket, comment)
  {
    forall i | 0 <= i < |m.files| ensures HasFile(rows, m.tenant, ticket, comment, m.files[i]) {
      assert FiledAs(rows, staged[i], comment, now);
      assert FileTells(rows[staged[i].id], staged[i].id, m.tenant, ticket, comment, m.files[i]);
    }
  }

  lemma KeepsReplyFiles(a: S.Db, b: S.Db, m: Mail, ticket: string, id: string, now: Time)
    requires Grows(a, b) && id in a.comments && a.comments[id] == S.Written(NewReply(m, ticket, id), now)
    requires FilesKept(b.attachments, m, ticket, id)
    ensures ReplyKept(b.comments, b.attachments, m, ticket, now)
  {
    hide FilesKept;
    assert id in b.comments && b.comments[id] == a.comments[id];
    NewReplyTells(m, ticket, id, now);
  }

  lemma OneMoreFiled(rows: map<string, Attachment>, rows': map<string, Attachment>, staged: seq<Attachment>,
                     a: Attachment, comment: string, now: Time)
    requires AllFiled(rows, staged, comment, now) && FiledAs(rows', a, comment, now)
    requires forall k :: k in rows ==> k in rows' && rows'[k] == rows[k]
    ensures AllFiled(rows', staged + [a], comment, now)
  {
  }

  lemma MoreIdsStaged(staged: seq<Attachment>, a: Attachment, minted: set<string>)
    requires DistinctIds(staged) && a.id !in minted && forall i :: 0 <= i < |staged| ==> staged[i].id in minted
    ensures DistinctIds(staged + [a])
  {
  }

  lemma WiderShaped(objects: set<string>, minted: set<string>, id: string)
    requires Shaped(objects, minted)
    ensures Shaped(objects, minted + {id})
  {
  }

  lemma SmallerShaped(objects: set<string>, objects': set<string>, minted: set<string>)
    requires Shaped(objects, minted) && objects' <= objects
    ensures Shaped(objects', minted)
  {
  }

  lemma One(a: set<string>, b: set<string>)
    ensures [a][0 := b] == [b]
  {
  }

  lemma Uploaded(rows: set<string>, leaked: set<string>, staged: seq<Attachment>, a: Attachment, objects: set<string>)
    requires Balanced(rows, leaked, [StagedKeys(staged)], objects) && Distinct(staged) && a.storageKey !in objects
    ensures Balanced(rows, leaked, [StagedKeys(staged + [a])], objects + {a.storageKey})
    ensures Distinct(staged + [a])
  {
    hide StagedKeys, Distinct;
    var mine := StagedKeys(staged);
    assert [mine][0] <= objects;
    MoreStaged(staged, a);
    One(mine, mine + {a.storageKey});
    assert [mine][0] !! rows && [mine][0] !! leaked;
    Transfer(rows, leaked, [mine], objects, rows, leaked, 0, mine + {a.storageKey}, objects + {a.storageKey},
             {a.storageKey}, {});
  }

  lemma LetGo(rows: set<string>, leaked: set<string>, mine: set<string>, rest: set<string>, key: string,
              objects: set<string>, leaked': set<string>, objects': set<string>)
    requires Balanced(rows, leaked, [mine], objects) && mine == rest + {key} && key !in rest
    requires (leaked' == leaked && objects' == objects - {key}) || (leaked' == leaked + {key} && objects' == objects)
    ensures Balanced(rows, leaked', [rest], objects') && objects' <= objects
  {
    One(mine, rest);
    assert [mine][0] !! rows && [mine][0] !! leaked;
    var gone := if objects' == objects then {} else {key};
    assert key in [mine][0] && key in objects;
    Transfer(rows, leaked, [mine], objects, rows, leaked', 0, rest, objects', {}, gone);
  }

  lemma Filed(rows: set<string>, leaked: set<string>, mine: set<string>, rest: set<string>, key: string,
              objects: set<string>)
    requires Balanced(rows, leaked, [mine], objects) && mine == rest + {key} && key !in rest
    ensures Balanced(rows + {key}, leaked, [rest], objects)
  {
    One(mine, rest);
    assert [mine][0] !! rows && [mine][0] !! leaked;
    Transfer(rows, leaked, [mine], objects, rows + {key}, leaked, 0, rest, objects, {}, {});
  }
}
