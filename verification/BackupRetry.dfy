/**
 * Repeating an import that a failing call stopped (internal/backup/backup.go): history is restored only for tickets
 * the running import inserted, so what the stopped import had not restored of its own tickets is not restored later.
 */
module BackupRetry {
  import opened Rows
  import opened Store
  import opened Backup
  import opened BackupCut
  import opened BackupRepeat
  import T = Tickets

  /** No ticket is lost or changes hands. */
  predicate Stays(a: map<string, Ticket>, b: map<string, Ticket>) {
    TicketKeys(b) && TicketsGrew(a, b)
  }

  /** So with tickets filed under their ids, and the history is the same. */
  predicate Keeps(a: Db, b: Db) { b.history == a.history && (TicketKeys(a.tickets) ==> Stays(a.tickets, b.tickets)) }

  lemma RowStays(a: map<string, Ticket>, id: string, t: Ticket)
    requires id in a && t.tenant == a[id].tenant && t.id == a[id].id && t.externalId == a[id].externalId
    ensures TicketKeys(a) ==> Stays(a, a[id := t])
  {
  }

  lemma RowAdded(a: map<string, Ticket>, t: Ticket)
    ensures TicketKeys(a) && t.id !in a ==> Stays(a, a[t.id := t])
  {
  }

  lemma NothingMoves(a: Db)
    ensures Keeps(a, a)
  {
  }

  lemma KeepsTwice(a: Db, b: Db, c: Db)
    requires Keeps(a, b) && Keeps(b, c)
    ensures Keeps(a, c)
  {
  }

  lemma {:induction false} TagsKeep(j: Job, s: Db, rows: seq<Tag>)
    ensures Keeps(s, Tags(j, s, rows).db)
  {
    if rows != [] { TagsKeep(j, s, rows[..|rows| - 1]); }
  }

  lemma {:induction false} MailboxesKeep(j: Job, s: Db, rows: seq<Mailbox>)
    ensures Keeps(s, Mailboxes(j, s, rows).db)
  {
    hide NormAddr;
    if rows != [] { MailboxesKeep(j, s, rows[..|rows| - 1]); }
  }

  lemma {:induction false} RulesKeep(j: Job, s: Db, rows: seq<Rule>)
    ensures Keeps(s, Rules(j, s, rows).db)
  {
    if rows != [] { RulesKeep(j, s, rows[..|rows| - 1]); }
  }

  /** The tickets an import inserted were not there before and are there afterwards. */
  predicate Inserted(s: Db, l: Load, tenant: string) {
    Keeps(s, l.db) &&
    (TicketKeys(s.tickets) ==> forall t :: t in l.created ==> t !in s.tickets && HasTicket(l.db, tenant, t))
  }

  lemma UpdateKeeps(s: Db, tenant: string, id: string, p: Patch, at: Time, now: Time)
    ensures Keeps(s, UpdateTicket(s, tenant, id, p, at, now).db)
  {
    NothingMoves(s);
    hide TicketKeys, Stays;
    if HasTicket(s, tenant, id) { RowStays(s.tickets, id, Patched(s.tickets[id], p, OrNow(at, now))); }
  }

  lemma StatusKeeps(s: Db, tenant: string, id: string, status: string, at: Time, now: Time)
    ensures Keeps(s, SetStatus(s, tenant, id, status, at, now).db)
  {
    NothingMoves(s);
    hide TicketKeys, Stays;
    if HasTicket(s, tenant, id) { RowStays(s.tickets, id, Moved(s.tickets[id], status, OrNow(at, now))); }
  }

  lemma AssigneeKeeps(s: Db, tenant: string, id: string, assignee: string, name: string, at: Time, now: Time)
    ensures Keeps(s, SetAssignee(s, tenant, id, assignee, name, at, now).db)
  {
    NothingMoves(s);
    hide TicketKeys, Stays;
    if HasTicket(s, tenant, id) {
      RowStays(s.tickets, id, SetAssignee(s, tenant, id, assignee, name, at, now).db.tickets[id]);
    }
  }

  lemma OverwriteKeeps(s: Db, t: Ticket, now: Time)
    ensures Keeps(s, OverwriteTicket(s, t, now).db)
  {
    hide UpdateTicket, SetStatus, SetAssignee, Keeps;
    var at := OrNow(t.updatedAt, now);
    var p := PatchOf(t);
    var a := UpdateTicket(s, t.tenant, t.id, p, at, now);
    var b := if t.status != "" then SetStatus(a.db, t.tenant, t.id, t.status, at, now) else a;
    UpdateKeeps(s, t.tenant, t.id, p, at, now);
    if t.status != "" {
      StatusKeeps(a.db, t.tenant, t.id, t.status, at, now);
      KeepsTwice(s, a.db, b.db);
    }
    AssigneeKeeps(b.db, t.tenant, t.id, t.assignee, t.assigneeName, at, now);
    KeepsTwice(s, b.db, SetAssignee(b.db, t.tenant, t.id, t.assignee, t.assigneeName, at, now).db);
  }

  lemma CreateKeeps(s: Db, t: Ticket, now: Time)
    ensures var r := CreateTicket(s, t, now);
            Keeps(s, r.db) && (r.out == Done ==> t.id !in s.tickets && HasTicket(r.db, t.tenant, t.id))
  {
    NothingMoves(s);
    RowAdded(s.tickets, Opened(t, now));
    hide ExternalTaken, MailboxKnown, TicketKeys, Stays;
  }

  lemma TicketRowInserts(j: Job, s: Db, l: Load, known: set<string>, i: nat, t: Ticket)
    requires Inserted(s, l, j.target)
    ensures Inserted(s, TicketRow(j, l, known, i, t), j.target) && l.created <= TicketRow(j, l, known, i, t).created
  {
    hide OverwriteTicket, CreateTicket, TicketKeys;
    var p := Prepared(t, j.target, known);
    assert p.tenant == j.target;
    hide Prepared;
    NothingMoves(l.db);
    OverwriteKeeps(l.db, p, j.clock(CTickets, i));
    CreateKeeps(l.db, p, j.clock(CTickets, i));
    KeepsTwice(s, l.db, TicketRow(j, l, known, i, t).db);
  }

  lemma {:induction false} TicketsInsert(j: Job, s: Db, known: set<string>, rows: seq<Ticket>)
    ensures Inserted(s, TicketRows(j, s, known, rows), j.target)
  {
    hide TicketRow;
    if rows != [] {
      var n := |rows| - 1;
      TicketsInsert(j, s, known, rows[..n]);
      TicketRowInserts(j, s, TicketRows(j, s, known, rows[..n]), known, n, rows[n]);
    }
  }

  /** More rows insert more. */
  lemma {:induction false} MoreInserted(j: Job, s: Db, known: set<string>, rows: seq<Ticket>, k: nat)
    requires k <= |rows|
    ensures TicketRows(j, s, known, rows[..k]).created <= TicketRows(j, s, known, rows).created
    decreases |rows|
  {
    hide TicketRow;
    if k == |rows| {
      assert rows[..k] == rows;
    } else {
      var n := |rows| - 1;
      assert rows[..n][..k] == rows[..k];
      MoreInserted(j, s, known, rows[..n], k);
      TicketsInsert(j, s, known, rows[..n]);
      TicketRowInserts(j, s, TicketRows(j, s, known, rows[..n]), known, n, rows[n]);
    }
  }

  lemma {:induction false} LinksKeep(target: string, s: Db, rows: seq<TagLink>, ids: seq<string>)
    ensures Keeps(s, LinkRows(target, s, rows, ids).db)
  {
    if ids != [] { LinksKeep(target, s, rows, ids[..|ids| - 1]); }
  }

  lemma CommentKeeps(s: Db, c: Comment, now: Time)
    ensures Keeps(s, CreateComment(s, c, now).db)
  {
    NothingMoves(s);
    if HasTicket(s, c.tenant, c.ticket) {
      assert TicketKeys(s.tickets) ==> s.tickets[c.ticket].id == c.ticket;
      hide TicketKeys, Stays;
      RowStays(s.tickets, c.ticket, Commented(s.tickets[c.ticket], Written(c, now)));
    }
  }

  lemma {:induction false} CommentsKeep(j: Job, s: Db, rows: seq<Comment>)
    ensures Keeps(s, Comments(j, s, rows).db)
  {
    if rows != [] {
      var n := |rows| - 1;
      CommentsKeep(j, s, rows[..n]);
      CommentKeeps(Comments(j, s, rows[..n]).db, rows[n].(tenant := j.target), j.clock(CComments, n));
      hide CreateComment;
    }
  }

  lemma {:induction false} AttachmentsKeep(j: Job, s: Db, rows: seq<Attachment>)
    ensures Keeps(s, Attachments(j, s, rows).db)
  {
    hide OwnKey;
    if rows != [] { AttachmentsKeep(j, s, rows[..|rows| - 1]); }
  }

  /** The history rows of a document that are for a ticket. */
  function Named(rows: seq<History>, ticket: string): nat {
    if rows == [] then 0
    else Named(rows[..|rows| - 1], ticket) + if rows[|rows| - 1].ticket == ticket then 1 else 0
  }

  /** A ticket the import inserted gets all its rows, any other none. */
  lemma {:induction false} HistoriesRestore(j: Job, s: Db, created: set<string>, rows: seq<History>, t: string)
    requires forall x :: x in created ==> HasTicket(s, j.target, x)
    ensures var l := Histories(j, s, created, rows);
            l.db.tickets == s.tickets &&
            if t in created then |T.Of(l.db.history, j.target, t)| == |T.Of(s.history, j.target, t)| + Named(rows, t)
            else T.Of(l.db.history, j.target, t) == T.Of(s.history, j.target, t)
  {
    if rows != [] {
      var n := |rows| - 1;
      HistoriesRestore(j, s, created, rows[..n], t);
      var a, b := Histories(j, s, created, rows[..n]).db.history, Histories(j, s, created, rows).db.history;
      if b != a { assert b[..|a|] == a && |b| == |a| + 1; }
    }
  }

  /** An import restores the history of exactly the tickets it inserts. */
  predicate Restores(s: Db, r: Report, tenant: string, rows: seq<History>, t: string) {
    var e := Result(r);
    Stays(s.tickets, e.tickets) && (t in r.tickets.created ==> t !in s.tickets && HasTicket(e, tenant, t)) &&
    if t in r.tickets.created then |T.Of(e.history, tenant, t)| == |T.Of(s.history, tenant, t)| + Named(rows, t)
    else T.Of(e.history, tenant, t) == T.Of(s.history, tenant, t)
  }

  lemma BeforeTickets(j: Job, s: Db, d: Doc)
    ensures Keeps(s, Import(j, s, d).rules.db)
  {
    hide Tags, Mailboxes, Rules, TicketRows, LinkRows, Comments, Histories, Attachments, Keeps, Order;
    var r := Import(j, s, d);
    TagsKeep(j, s, d.tags);
    MailboxesKeep(j, r.tags.db, d.mailboxes);
    RulesKeep(j, r.mailboxes.db, d.rules);
    KeepsTwice(s, r.tags.db, r.mailboxes.db);
    KeepsTwice(s, r.mailboxes.db, r.rules.db);
  }

  lemma AfterTickets(j: Job, s: Db, d: Doc)
    ensures var r := Import(j, s, d); Keeps(r.tickets.db, r.comments.db) && Keeps(r.history.db, Result(r))
  {
    hide Tags, Mailboxes, Rules, TicketRows, LinkRows, Comments, Histories, Attachments, Keeps, Order;
    var r := Import(j, s, d);
    LinksKeep(j.target, r.tickets.db, d.links, Order(d.links));
    CommentsKeep(j, r.links.db, d.comments);
    KeepsTwice(r.tickets.db, r.links.db, r.comments.db);
    AttachmentsKeep(j, r.history.db, d.attachments);
  }

  lemma ImportRestores(j: Job, s: Db, d: Doc, t: string)
    requires TicketKeys(s.tickets)
    ensures Restores(s, Import(j, s, d), j.target, d.history, t)
  {
    hide Tags, Mailboxes, Rules, TicketRows, LinkRows, Comments, Histories, Attachments, KnownMailboxes, Order,
      T.Of, Named, TicketKeys;
    var r := Import(j, s, d);
    BeforeTickets(j, s, d);
    TicketsInsert(j, r.rules.db, KnownMailboxes(r.rules.db.mailboxes, j.target), d.tickets);
    AfterTickets(j, s, d);
    HistoriesRestore(j, r.comments.db, r.tickets.created, d.history, t);
  }

  /** What was inserted before the stop is inserted by the whole import too. */
  lemma InsertedWhole(j: Job, s: Db, d: Doc, at: Collection, k: nat)
    ensures Import(j, s, Cut(d, at, k)).tickets.created <= Import(j, s, d).tickets.created
  {
    hide Tags, Mailboxes, Rules, TicketRows, Links, Comments, Histories, Attachments, KnownMailboxes, Order,
      LinksOf;
    var r, whole := Import(j, s, Cut(d, at, k)), Import(j, s, d);
    if Rank(at) < Rank(CTickets) {
      NoRows(j, r.rules.db, {});
    } else {
      var known := KnownMailboxes(whole.rules.db.mailboxes, j.target);
      MoreInserted(j, whole.rules.db, known, d.tickets, if k <= |d.tickets| then k else |d.tickets|);
    }
  }

  /**
   * A ticket inserted by an import that stopped keeps, through any later import of the document, the history it had
   * at the stop. So it ends with the rows of an uninterrupted import if and only if none of them was behind the stop.
   */
  lemma RetryRestoresExactly(j: Job, again: Job, s: Db, d: Doc, at: Collection, k: nat, t: string)
    requires again.target == j.target && TicketKeys(s.tickets) && t in Import(j, s, Cut(d, at, k)).tickets.created
    ensures var once := Result(Import(j, s, Cut(d, at, k)));
            var retried := Result(Import(again, once, d));
            T.Of(retried.history, j.target, t) == T.Of(once.history, j.target, t) &&
            (|T.Of(retried.history, j.target, t)| == |T.Of(Result(Import(j, s, d)).history, j.target, t)| <==>
             Named(Cut(d, at, k).history, t) == Named(d.history, t))
  {
    hide Import, Cut, T.Of, Named, TicketKeys;
    var once := Result(Import(j, s, Cut(d, at, k)));
    ImportRestores(j, s, Cut(d, at, k), t);
    InsertedWhole(j, s, d, at, k);
    ImportRestores(j, s, d, t);
    ImportRestores(again, once, d, t);
  }
}
