/**
 * Loading a backup document into one tenant: collection by collection in foreign-key order, each row
 * created, overwritten or skipped. The functions here say what a whole import does to the store and to
 * its counters; Importer.dfy holds the loops and is proved against them.
 */
module Backup {
  import opened Rows
  import opened Text
  import opened Store

  /** An export document. A ticket row carries its HTML body, an attachment row its object key. */
  datatype Doc = Doc(
    tenant: string, tags: seq<Tag>, mailboxes: seq<Mailbox>, rules: seq<Rule>, tickets: seq<Ticket>,
    links: seq<TagLink>, comments: seq<Comment>, history: seq<History>, attachments: seq<Attachment>)

  datatype Collection = CTags | CMailboxes | CRules | CTickets | CTagLinks | CComments | CHistory | CAttachments

  /** How one import runs; clock(c, i) is the store's clock when row i of collection c is written. */
  datatype Job = Job(cs: Casing, clock: (Collection, nat) -> Time, target: string, overwrite: bool)

  /** The store and the counters of the collection being loaded; created holds the tickets inserted. */
  datatype Load = Load(db: Db, imported: nat, skipped: nat, created: set<string>)

  function Start(s: Db): Load { Load(s, 0, 0, {}) }

  /** A write that succeeds counts as imported; one that conflicts or lacks its parent is skipped. */
  function Put(l: Load, r: Step): Load {
    if r.out == Done then l.(db := r.db, imported := l.imported + 1) else l.(skipped := l.skipped + 1)
  }

  function Skip(l: Load): Load { l.(skipped := l.skipped + 1) }

  function Upsert(l: Load, present: bool, overwrite: bool, create: Step, update: Step): Load {
    if !present then Put(l, create) else if overwrite then Put(l, update) else Skip(l)
  }

  /** Children are append-only: an existing row is always kept. */
  function Child(l: Load, present: bool, create: Step): Load {
    if present then Skip(l) else Put(l, create)
  }

  // ------------------------------------------------------ tags, mailboxes, rules

  function TagRow(j: Job, l: Load, i: nat, t: Tag): Load {
    var t := t.(tenant := j.target);
    Upsert(l, HasTag(l.db, j.target, t.id), j.overwrite,
           CreateTag(j.cs, l.db, t, j.clock(CTags, i)), UpdateTag(j.cs, l.db, t))
  }

  function Tags(j: Job, s: Db, rows: seq<Tag>): Load {
    if rows == [] then Start(s)
    else TagRow(j, Tags(j, s, rows[..|rows| - 1]), |rows| - 1, rows[|rows| - 1])
  }

  function MailboxRow(j: Job, l: Load, i: nat, m: Mailbox): Load {
    var m := m.(tenant := j.target, address := NormAddr(j.cs, m.address));
    Upsert(l, MailboxKnown(l.db.mailboxes, j.target, m.id), j.overwrite,
           CreateMailbox(j.cs, l.db, m, j.clock(CMailboxes, i)), UpdateMailbox(j.cs, l.db, m, j.clock(CMailboxes, i)))
  }

  function Mailboxes(j: Job, s: Db, rows: seq<Mailbox>): Load {
    if rows == [] then Start(s)
    else MailboxRow(j, Mailboxes(j, s, rows[..|rows| - 1]), |rows| - 1, rows[|rows| - 1])
  }

  function RuleRow(j: Job, l: Load, i: nat, r: Rule): Load {
    var r := r.(tenant := j.target);
    Upsert(l, HasRule(l.db, j.target, r.id), j.overwrite,
           CreateRule(l.db, r, j.clock(CRules, i)), UpdateRule(l.db, r, j.clock(CRules, i)))
  }

  function Rules(j: Job, s: Db, rows: seq<Rule>): Load {
    if rows == [] then Start(s)
    else RuleRow(j, Rules(j, s, rows[..|rows| - 1]), |rows| - 1, rows[|rows| - 1])
  }

  // ------------------------------------------------------------------- tickets

  predicate Blank(s: string) { TrimSpace(s) == "" }

  function KnownMailboxes(mailboxes: map<string, Mailbox>, tenant: string): set<string> {
    set k | k in mailboxes && mailboxes[k].tenant == tenant :: mailboxes[k].id
  }

  /** The row as it is loaded: an unknown mailbox is dropped, the counters start over. */
  function Prepared(t: Ticket, target: string, known: set<string>): Ticket {
    t.(tenant := target, mailbox := if t.mailbox in known then t.mailbox else "",
       subject := if Blank(t.subject) then NO_SUBJECT else t.subject, commentCount := 0, lastMessage := "")
  }

  function PatchOf(t: Ticket): Patch {
    Patch(Some(t.subject), Some(t.description), if t.priority != "" then Some(t.priority) else None)
  }

  /** The mutable fields of an existing ticket, rewritten one store call after the other. */
  function OverwriteTicket(s: Db, t: Ticket, now: Time): Step {
    var at := OrNow(t.updatedAt, now);
    var p := PatchOf(t);
    var a := UpdateTicket(s, t.tenant, t.id, p, at, now);
    if a.out != Done then a else
    var b := if t.status != "" then SetStatus(a.db, t.tenant, t.id, t.status, at, now) else a;
    if b.out != Done then b else
    SetAssignee(b.db, t.tenant, t.id, t.assignee, t.assigneeName, at, now)
  }

  function TicketRow(j: Job, l: Load, known: set<string>, i: nat, t: Ticket): Load {
    var t := Prepared(t, j.target, known);
    var present := HasTicket(l.db, j.target, t.id);
    var create := CreateTicket(l.db, t, j.clock(CTickets, i));
    var l' := Upsert(l, present, j.overwrite, create, OverwriteTicket(l.db, t, j.clock(CTickets, i)));
    if !present && create.out == Done then l'.(created := l.created + {t.id}) else l'
  }

  function TicketRows(j: Job, s: Db, known: set<string>, rows: seq<Ticket>): Load {
    if rows == [] then Start(s)
    else TicketRow(j, TicketRows(j, s, known, rows[..|rows| - 1]), known, |rows| - 1, rows[|rows| - 1])
  }

  function Tickets(j: Job, s: Db, rows: seq<Ticket>): Load {
    TicketRows(j, s, KnownMailboxes(s.mailboxes, j.target), rows)
  }

  // --------------------------------------------------------------------- links

  /** The tickets a document links, in order of first mention. */
  function Order(rows: seq<TagLink>): seq<string> {
    if rows == [] then []
    else
      var before, t := Order(rows[..|rows| - 1]), rows[|rows| - 1].ticket;
      if t in before then before else before + [t]
  }

  function TagsFor(rows: seq<TagLink>, ticket: string): seq<string> {
    if rows == [] then []
    else if rows[|rows| - 1].ticket == ticket then TagsFor(rows[..|rows| - 1], ticket) + [rows[|rows| - 1].tag]
    else TagsFor(rows[..|rows| - 1], ticket)
  }

  /** The tags not linked yet, each once. */
  function Unlinked(linked: set<string>, tags: seq<string>): seq<string> {
    if tags == [] then []
    else
      var before, g := Unlinked(linked, tags[..|tags| - 1]), tags[|tags| - 1];
      if g in linked || g in before then before else before + [g]
  }

  function LinkRow(target: string, l: Load, ticket: string, tags: seq<string>): Load {
    var add := Unlinked(TagsOf(l.db, target, ticket), tags);
    var r := AddTicketTags(l.db, target, ticket, add);
    if add != [] && r.out == Done then
      UnlinkedShorter(TagsOf(l.db, target, ticket), tags);
      l.(db := r.db, imported := l.imported + |add|, skipped := l.skipped + (|tags| - |add|))
    else l.(skipped := l.skipped + |tags|)
  }

  lemma {:induction false} UnlinkedShorter(linked: set<string>, tags: seq<string>)
    ensures |Unlinked(linked, tags)| <= |tags|
  {
    if tags != [] { UnlinkedShorter(linked, tags[..|tags| - 1]); }
  }

  function LinkRows(target: string, s: Db, rows: seq<TagLink>, ids: seq<string>): Load {
    if ids == [] then Start(s)
    else LinkRow(target, LinkRows(target, s, rows, ids[..|ids| - 1]), ids[|ids| - 1], TagsFor(rows, ids[|ids| - 1]))
  }

  function Links(j: Job, s: Db, rows: seq<TagLink>): Load { LinkRows(j.target, s, rows, Order(rows)) }

  // ------------------------------------------------------------------ children

  function CommentRow(j: Job, l: Load, i: nat, c: Comment): Load {
    var c := c.(tenant := j.target);
    Child(l, HasComment(l.db, j.target, c.id), CreateComment(l.db, c, j.clock(CComments, i)))
  }

  function Comments(j: Job, s: Db, rows: seq<Comment>): Load {
    if rows == [] then Start(s)
    else CommentRow(j, Comments(j, s, rows[..|rows| - 1]), |rows| - 1, rows[|rows| - 1])
  }

  /** History returns only with a ticket this import created, so repeating an import never doubles it. */
  function HistoryRow(j: Job, l: Load, created: set<string>, i: nat, h: History): Load {
    if h.ticket !in created then Skip(l)
    else Put(l, AppendHistory(l.db, h.(tenant := j.target), j.clock(CHistory, i)))
  }

  function Histories(j: Job, s: Db, created: set<string>, rows: seq<History>): Load {
    if rows == [] then Start(s)
    else HistoryRow(j, Histories(j, s, created, rows[..|rows| - 1]), created, |rows| - 1, rows[|rows| - 1])
  }

  /** Object bytes are never exported: only the owner's objects can be linked again. */
  predicate OwnKey(target: string, key: string) {
    "tenants/" + target + "/" <= key && !Contains(key, "..")
  }

  function AttachmentRow(j: Job, l: Load, i: nat, a: Attachment): Load {
    if !OwnKey(j.target, a.storageKey) then Skip(l)
    else
      var a := a.(tenant := j.target);
      Child(l, HasAttachment(l.db, j.target, a.ticket, a.id), CreateAttachment(l.db, a, j.clock(CAttachments, i)))
  }

  function Attachments(j: Job, s: Db, rows: seq<Attachment>): Load {
    if rows == [] then Start(s)
    else AttachmentRow(j, Attachments(j, s, rows[..|rows| - 1]), |rows| - 1, rows[|rows| - 1])
  }

  // --------------------------------------------------------------- whole import

  datatype Report = Report(
    tags: Load, mailboxes: Load, rules: Load, tickets: Load, links: Load, comments: Load, history: Load,
    attachments: Load)

  function Import(j: Job, s: Db, d: Doc): Report {
    var tags := Tags(j, s, d.tags);
    var mailboxes := Mailboxes(j, tags.db, d.mailboxes);
    var rules := Rules(j, mailboxes.db, d.rules);
    var tickets := Tickets(j, rules.db, d.tickets);
    var links := Links(j, tickets.db, d.links);
    var comments := Comments(j, links.db, d.comments);
    var history := Histories(j, comments.db, tickets.created, d.history);
    Report(tags, mailboxes, rules, tickets, links, comments, history, Attachments(j, history.db, d.attachments))
  }

  function Result(r: Report): Db { r.attachments.db }

  function Imported(r: Report): nat {
    r.tags.imported + r.mailboxes.imported + r.rules.imported + r.tickets.imported + r.links.imported +
    r.comments.imported + r.history.imported + r.attachments.imported
  }
}
