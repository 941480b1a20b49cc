/**
 * Repeating an import. In skip mode the store only grows, so a row that was refused once, for a conflict
 * or a missing parent, is refused again: the second import of a document changes nothing.
 */
module BackupRepeat {
  import opened Rows
  import opened Text
  import opened Store
  import opened Backup

  predicate TicketKeys(tickets: map<string, Ticket>) { forall k :: k in tickets ==> tickets[k].id == k }

  // A row is settled when loading it again would change nothing. Settled rows stay settled while the
  // table grows.

  predicate TagSettled(cs: Casing, tags: map<string, Tag>, tgt: string, t: Tag) {
    t.id in tags || NameTaken(cs, tags, t.(tenant := tgt, kind := if t.kind == "" then KIND_TAG else t.kind))
  }

  predicate MailboxSettled(cs: Casing, mailboxes: map<string, Mailbox>, m: Mailbox) {
    m.id in mailboxes || AddressTaken(mailboxes, m.id, NormAddr(cs, NormAddr(cs, m.address)))
  }

  predicate TicketSettled(tickets: map<string, Ticket>, tgt: string, t: Ticket) {
    t.id in tickets || (t.externalId != "" && ExternalTaken(tickets, tgt, t.externalId))
  }

  predicate LinkSettled(s: Db, tgt: string, ticket: string, tags: seq<string>) {
    !HasTicket(s, tgt, ticket) || !TagsKnown(s, tgt, tags) || forall g :: g in tags ==> g in TagsOf(s, tgt, ticket)
  }

  predicate CommentSettled(s: Db, tgt: string, c: Comment) {
    c.id in s.comments || !HasTicket(s, tgt, c.ticket) ||
    (c.messageId != "" && MessageTaken(s.comments, tgt, c.messageId))
  }

  predicate AttachmentSettled(s: Db, tgt: string, a: Attachment) {
    !OwnKey(tgt, a.storageKey) || a.id in s.attachments || !HasTicket(s, tgt, a.ticket) ||
    (a.comment != "" && !CommentMatches(s.comments, a.(tenant := tgt))) || KeyTaken(s.attachments, a.storageKey)
  }

  // ------------------------------------------------------------------- tags

  lemma {:induction false} TagsSettle(j: Job, s: Db, rows: seq<Tag>)
    requires !j.overwrite
    ensures var d := Tags(j, s, rows).db;
            d == s.(tags := d.tags) && forall i :: 0 <= i < |rows| ==> TagSettled(j.cs, d.tags, j.target, rows[i])
  {
    if rows != [] {
      var n := |rows| - 1;
      TagsSettle(j, s, rows[..n]);
      var a, b := Tags(j, s, rows[..n]).db, Tags(j, s, rows).db;
      forall i | 0 <= i < n ensures TagSettled(j.cs, b.tags, j.target, rows[i]) {
        assert rows[..n][i] == rows[i];
        TagStaysSettled(j.cs, a.tags, b.tags, j.target, rows[i]);
      }
    }
  }

  lemma TagStaysSettled(cs: Casing, a: map<string, Tag>, b: map<string, Tag>, tgt: string, t: Tag)
    requires TagSettled(cs, a, tgt, t) && forall k :: k in a ==> k in b && b[k] == a[k]
    ensures TagSettled(cs, b, tgt, t)
  {
  }

  lemma {:induction false} SettledTags(j: Job, s: Db, rows: seq<Tag>)
    requires !j.overwrite && forall i :: 0 <= i < |rows| ==> TagSettled(j.cs, s.tags, j.target, rows[i])
    ensures Tags(j, s, rows) == Load(s, 0, |rows|, {})
  {
    if rows != [] {
      SettledTags(j, s, rows[..|rows| - 1]);
      assert TagSettled(j.cs, s.tags, j.target, rows[|rows| - 1]);
    }
  }

  // -------------------------------------------------------------- mailboxes

  lemma {:induction false} MailboxesSettle(j: Job, s: Db, rows: seq<Mailbox>)
    requires !j.overwrite
    ensures var d := Mailboxes(j, s, rows).db;
            d == s.(mailboxes := d.mailboxes) && forall i :: 0 <= i < |rows| ==>
              MailboxSettled(j.cs, d.mailboxes, rows[i])
  {
    hide NormAddr;
    if rows != [] {
      var n := |rows| - 1;
      MailboxesSettle(j, s, rows[..n]);
      var a, b := Mailboxes(j, s, rows[..n]).db, Mailboxes(j, s, rows).db;
      assert MailboxSettled(j.cs, b.mailboxes, rows[n]);
      hide MailboxSettled;
      forall i | 0 <= i < n ensures MailboxSettled(j.cs, b.mailboxes, rows[i]) {
        assert rows[..n][i] == rows[i];
        MailboxStaysSettled(j.cs, a.mailboxes, b.mailboxes, rows[i]);
      }
    }
  }

  lemma MailboxStaysSettled(cs: Casing, a: map<string, Mailbox>, b: map<string, Mailbox>, m: Mailbox)
    requires MailboxSettled(cs, a, m) && forall k :: k in a ==> k in b && b[k] == a[k]
    ensures MailboxSettled(cs, b, m)
  {
  }

  lemma {:induction false} SettledMailboxes(j: Job, s: Db, rows: seq<Mailbox>)
    requires !j.overwrite && forall i :: 0 <= i < |rows| ==> MailboxSettled(j.cs, s.mailboxes, rows[i])
    ensures Mailboxes(j, s, rows) == Load(s, 0, |rows|, {})
  {
    if rows != [] {
      SettledMailboxes(j, s, rows[..|rows| - 1]);
      assert MailboxSettled(j.cs, s.mailboxes, rows[|rows| - 1]);
    }
  }

  // ------------------------------------------------------------------ rules

  lemma {:induction false} RulesSettle(j: Job, s: Db, rows: seq<Rule>)
    requires !j.overwrite
    ensures var d := Rules(j, s, rows).db;
            d == s.(rules := d.rules) && forall i :: 0 <= i < |rows| ==> rows[i].id in d.rules
  {
    if rows != [] {
      RulesSettle(j, s, rows[..|rows| - 1]);
    }
  }

  lemma {:induction false} SettledRules(j: Job, s: Db, rows: seq<Rule>)
    requires !j.overwrite && forall i :: 0 <= i < |rows| ==> rows[i].id in s.rules
    ensures Rules(j, s, rows) == Load(s, 0, |rows|, {})
  {
    if rows != [] {
      SettledRules(j, s, rows[..|rows| - 1]);
      assert rows[|rows| - 1].id in s.rules;
    }
  }

  // ---------------------------------------------------------------- tickets

  /** What growth and the rebuilding of counters keep of the ticket table. */
  predicate TicketsGrew(a: map<string, Ticket>, b: map<string, Ticket>) {
    forall k :: k in a ==> k in b && b[k].tenant == a[k].tenant && b[k].externalId == a[k].externalId
  }

  lemma TicketStaysSettled(a: map<string, Ticket>, b: map<string, Ticket>, tgt: string, t: Ticket)
    requires TicketSettled(a, tgt, t) && TicketsGrew(a, b)
    ensures TicketSettled(b, tgt, t)
  {
    if t.id !in a {
      var k :| k in a && a[k].tenant == tgt && a[k].externalId == t.externalId;
      assert b[k].externalId == t.externalId;
    }
  }

  lemma {:induction false} TicketsSettle(j: Job, s: Db, known: set<string>, rows: seq<Ticket>)
    requires !j.overwrite && known <= KnownMailboxes(s.mailboxes, j.target) && TicketKeys(s.tickets)
    requires forall k :: k in s.mailboxes ==> s.mailboxes[k].id == k
    ensures var d := TicketRows(j, s, known, rows).db;
            d == s.(tickets := d.tickets) && TicketKeys(d.tickets) &&
            forall i :: 0 <= i < |rows| ==> TicketSettled(d.tickets, j.target, rows[i])
  {
    hide TicketSettled, TicketRow, KnownMailboxes, TicketKeys;
    if rows != [] {
      var n := |rows| - 1;
      TicketsSettle(j, s, known, rows[..n]);
      var a, b := TicketRows(j, s, known, rows[..n]).db, TicketRows(j, s, known, rows).db;
      TicketRowSettles(j, TicketRows(j, s, known, rows[..n]), known, n, rows[n]);
      forall i | 0 <= i < n ensures TicketSettled(b.tickets, j.target, rows[i]) {
        assert rows[..n][i] == rows[i];
        TicketStaysSettled(a.tickets, b.tickets, j.target, rows[i]);
      }
    }
  }

  lemma TicketRowSettles(j: Job, l: Load, known: set<string>, i: nat, t: Ticket)
    requires !j.overwrite && known <= KnownMailboxes(l.db.mailboxes, j.target) && TicketKeys(l.db.tickets)
    requires forall k :: k in l.db.mailboxes ==> l.db.mailboxes[k].id == k
    ensures var d := TicketRow(j, l, known, i, t).db;
            d == l.db.(tickets := d.tickets) && TicketKeys(d.tickets) && TicketsGrew(l.db.tickets, d.tickets) &&
            TicketSettled(d.tickets, j.target, t)
  {
    hide Blank;
    var d := TicketRow(j, l, known, i, t).db;
    if d != l.db {
      assert d == CreateTicket(l.db, Prepared(t, j.target, known), j.clock(CTickets, i)).db;
      assert d.tickets == l.db.tickets[t.id := d.tickets[t.id]];
    }
  }

  lemma {:induction false} SettledTickets(j: Job, s: Db, known: set<string>, rows: seq<Ticket>)
    requires !j.overwrite && forall i :: 0 <= i < |rows| ==> TicketSettled(s.tickets, j.target, rows[i])
    ensures TicketRows(j, s, known, rows) == Load(s, 0, |rows|, {})
  {
    if rows != [] {
      SettledTickets(j, s, known, rows[..|rows| - 1]);
      assert TicketSettled(s.tickets, j.target, rows[|rows| - 1]);
    }
  }

  // ------------------------------------------------------------------ links

  lemma {:induction false} UnlinkedIs(linked: set<string>, tags: seq<string>)
    ensures forall g :: g in Unlinked(linked, tags) <==> g in tags && g !in linked
    ensures (forall g :: g in tags ==> g in linked) ==> Unlinked(linked, tags) == []
  {
    if tags != [] {
      UnlinkedIs(linked, tags[..|tags| - 1]);
      assert tags == tags[..|tags| - 1] + [tags[|tags| - 1]];
    }
  }

  predicate Distinct(ids: seq<string>) { forall i, j :: 0 <= i < j < |ids| ==> ids[i] != ids[j] }

  lemma {:induction false} OrderDistinct(rows: seq<TagLink>)
    ensures Distinct(Order(rows)) && forall i :: 0 <= i < |rows| ==> rows[i].ticket in Order(rows)
  {
    if rows != [] {
      var n := |rows| - 1;
      OrderDistinct(rows[..n]);
      var before := Order(rows[..n]);
      assert Order(rows) == if rows[n].ticket in before then before else before + [rows[n].ticket];
      hide Order;
      forall i | 0 <= i < |rows| ensures rows[i].ticket in Order(rows) {
        if i < n { assert rows[..n][i] == rows[i]; }
      }
    }
  }

  lemma LinkRowSettles(tgt: string, l: Load, ticket: string, tags: seq<string>)
    ensures var d := LinkRow(tgt, l, ticket, tags).db;
            d == l.db.(links := d.links) && LinkSettled(d, tgt, ticket, tags) &&
            forall t :: t != ticket ==> Linked(d.links, t) == Linked(l.db.links, t)
  {
    UnlinkedIs(TagsOf(l.db, tgt, ticket), tags);
    if Unlinked(TagsOf(l.db, tgt, ticket), tags) == [] {
      forall g | g in tags ensures g in TagsOf(l.db, tgt, ticket) {
        assert g !in Unlinked(TagsOf(l.db, tgt, ticket), tags);
      }
    }
  }

  lemma {:induction false} LinksSettle(tgt: string, s: Db, rows: seq<TagLink>, ids: seq<string>)
    requires Distinct(ids)
    ensures var d := LinkRows(tgt, s, rows, ids).db;
            d == s.(links := d.links) &&
            forall i :: 0 <= i < |ids| ==> LinkSettled(d, tgt, ids[i], TagsFor(rows, ids[i]))
  {
    if ids != [] {
      var n := |ids| - 1;
      LinksSettle(tgt, s, rows, ids[..n]);
      var l := LinkRows(tgt, s, rows, ids[..n]);
      LinkRowSettles(tgt, l, ids[n], TagsFor(rows, ids[n]));
      var d := LinkRows(tgt, s, rows, ids).db;
      forall i | 0 <= i < n ensures LinkSettled(d, tgt, ids[i], TagsFor(rows, ids[i])) {
        assert ids[..n][i] == ids[i];
        assert TagsOf(d, tgt, ids[i]) == TagsOf(l.db, tgt, ids[i]);
      }
    }
  }

  lemma SettledLinkRow(tgt: string, l: Load, ticket: string, tags: seq<string>)
    requires LinkSettled(l.db, tgt, ticket, tags)
    ensures LinkRow(tgt, l, ticket, tags) == l.(skipped := l.skipped + |tags|)
  {
    var linked := TagsOf(l.db, tgt, ticket);
    UnlinkedIs(linked, tags);
    var add := Unlinked(linked, tags);
    if HasTicket(l.db, tgt, ticket) && !TagsKnown(l.db, tgt, tags) {
      var g :| g in tags && !HasTag(l.db, tgt, g);
      assert g in add;
    }
  }

  lemma {:induction false} SettledLinks(tgt: string, s: Db, rows: seq<TagLink>, ids: seq<string>)
    requires forall i :: 0 <= i < |ids| ==> LinkSettled(s, tgt, ids[i], TagsFor(rows, ids[i]))
    ensures LinkRows(tgt, s, rows, ids) == Load(s, 0, Mentions(rows, ids), {})
  {
    if ids != [] {
      var n := |ids| - 1;
      SettledLinks(tgt, s, rows, ids[..n]);
      assert LinkSettled(s, tgt, ids[n], TagsFor(rows, ids[n]));
      SettledLinkRow(tgt, LinkRows(tgt, s, rows, ids[..n]), ids[n], TagsFor(rows, ids[n]));
    }
  }

  /** How many rows name one of the tickets. */
  function Mentions(rows: seq<TagLink>, ids: seq<string>): nat {
    if ids == [] then 0 else Mentions(rows, ids[..|ids| - 1]) + |TagsFor(rows, ids[|ids| - 1])|
  }

  // --------------------------------------------------------------- comments

  lemma CommentRowSettles(j: Job, l: Load, i: nat, c: Comment)
    requires TicketKeys(l.db.tickets)
    ensures var d := CommentRow(j, l, i, c).db;
            d == l.db.(comments := d.comments, tickets := d.tickets) && TicketKeys(d.tickets) &&
            TicketsGrew(l.db.tickets, d.tickets) && d.tickets.Keys == l.db.tickets.Keys &&
            CommentSettled(d, j.target, c) &&
            forall k :: k in l.db.comments ==> k in d.comments && d.comments[k] == l.db.comments[k]
  {
    var d := CommentRow(j, l, i, c).db;
    if d != l.db {
      assert d.comments == l.db.comments[c.id := d.comments[c.id]];
      assert d.tickets == l.db.tickets[c.ticket := d.tickets[c.ticket]];
      hide MessageTaken;
    }
  }

  lemma CommentStaysSettled(a: Db, b: Db, tgt: string, c: Comment)
    requires CommentSettled(a, tgt, c)
    requires TicketsGrew(a.tickets, b.tickets) && a.tickets.Keys == b.tickets.Keys
    requires forall k :: k in a.comments ==> k in b.comments && b.comments[k] == a.comments[k]
    ensures CommentSettled(b, tgt, c)
  {
  }

  lemma {:induction false} CommentsSettle(j: Job, s: Db, rows: seq<Comment>)
    requires TicketKeys(s.tickets)
    ensures var d := Comments(j, s, rows).db;
            d == s.(comments := d.comments, tickets := d.tickets) && TicketKeys(d.tickets) &&
            TicketsGrew(s.tickets, d.tickets) && d.tickets.Keys == s.tickets.Keys &&
            forall i :: 0 <= i < |rows| ==> CommentSettled(d, j.target, rows[i])
  {
    hide CommentSettled;
    if rows != [] {
      var n := |rows| - 1;
      CommentsSettle(j, s, rows[..n]);
      var l, d := Comments(j, s, rows[..n]), Comments(j, s, rows).db;
      CommentRowSettles(j, l, n, rows[n]);
      forall i | 0 <= i < n ensures CommentSettled(d, j.target, rows[i]) {
        assert rows[..n][i] == rows[i];
        CommentStaysSettled(l.db, d, j.target, rows[i]);
      }
    }
  }

  lemma {:induction false} SettledComments(j: Job, s: Db, rows: seq<Comment>)
    requires forall i :: 0 <= i < |rows| ==> CommentSettled(s, j.target, rows[i])
    ensures Comments(j, s, rows) == Load(s, 0, |rows|, {})
  {
    if rows != [] {
      SettledComments(j, s, rows[..|rows| - 1]);
      assert CommentSettled(s, j.target, rows[|rows| - 1]);
    }
  }

  // ---------------------------------------------------------------- history

  lemma {:induction false} HistoriesOnlyAppend(j: Job, s: Db, created: set<string>, rows: seq<History>)
    ensures var l := Histories(j, s, created, rows);
            l.db == s.(history := l.db.history) && (created == {} ==> l == Load(s, 0, |rows|, {}))
  {
    if rows != [] { HistoriesOnlyAppend(j, s, created, rows[..|rows| - 1]); }
  }

  // ------------------------------------------------------------ attachments

  lemma AttachmentStaysSettled(a: Db, b: Db, tgt: string, x: Attachment)
    requires AttachmentSettled(a, tgt, x) && b == a.(attachments := b.attachments)
    requires forall k :: k in a.attachments ==> k in b.attachments && b.attachments[k] == a.attachments[k]
    ensures AttachmentSettled(b, tgt, x)
  {
    hide OwnKey, CommentMatches;
  }

  lemma AttachmentRowSettles(j: Job, l: Load, i: nat, a: Attachment)
    ensures var d := AttachmentRow(j, l, i, a).db;
            d == l.db.(attachments := d.attachments) && AttachmentSettled(d, j.target, a) &&
            forall k :: k in l.db.attachments ==> k in d.attachments && d.attachments[k] == l.db.attachments[k]
  {
    hide OwnKey;
  }

  lemma {:induction false} AttachmentsSettle(j: Job, s: Db, rows: seq<Attachment>)
    ensures var d := Attachments(j, s, rows).db;
            d == s.(attachments := d.attachments) &&
            forall i :: 0 <= i < |rows| ==> AttachmentSettled(d, j.target, rows[i])
  {
    hide AttachmentSettled;
    if rows != [] {
      var n := |rows| - 1;
      AttachmentsSettle(j, s, rows[..n]);
      var l, d := Attachments(j, s, rows[..n]), Attachments(j, s, rows).db;
      AttachmentRowSettles(j, l, n, rows[n]);
      forall i | 0 <= i < n ensures AttachmentSettled(d, j.target, rows[i]) {
        assert rows[..n][i] == rows[i];
        AttachmentStaysSettled(l.db, d, j.target, rows[i]);
      }
    }
  }

  lemma {:induction false} SettledAttachments(j: Job, s: Db, rows: seq<Attachment>)
    requires forall i :: 0 <= i < |rows| ==> AttachmentSettled(s, j.target, rows[i])
    ensures Attachments(j, s, rows) == Load(s, 0, |rows|, {})
  {
    hide OwnKey;
    if rows != [] {
      SettledAttachments(j, s, rows[..|rows| - 1]);
      assert AttachmentSettled(s, j.target, rows[|rows| - 1]);
    }
  }

  // ----------------------------------------------------------- whole imports

  predicate Keyed(s: Db) {
    TicketKeys(s.tickets) && forall k :: k in s.mailboxes ==> s.mailboxes[k].id == k
  }

  /** Every row of the document is settled. */
  predicate Settled(cs: Casing, s: Db, tgt: string, d: Doc) {
    && (forall i :: 0 <= i < |d.tags| ==> TagSettled(cs, s.tags, tgt, d.tags[i]))
    && (forall i :: 0 <= i < |d.mailboxes| ==> MailboxSettled(cs, s.mailboxes, d.mailboxes[i]))
    && (forall i :: 0 <= i < |d.rules| ==> d.rules[i].id in s.rules)
    && (forall i :: 0 <= i < |d.tickets| ==> TicketSettled(s.tickets, tgt, d.tickets[i]))
    && (forall i :: 0 <= i < |Order(d.links)| ==>
          LinkSettled(s, tgt, Order(d.links)[i], TagsFor(d.links, Order(d.links)[i])))
    && (forall i :: 0 <= i < |d.comments| ==> CommentSettled(s, tgt, d.comments[i]))
    && (forall i :: 0 <= i < |d.attachments| ==> AttachmentSettled(s, tgt, d.attachments[i]))
  }

  lemma LinkStaysSettled(a: Db, b: Db, tgt: string, ticket: string, tags: seq<string>)
    requires LinkSettled(a, tgt, ticket, tags) && a.links == b.links && a.tags == b.tags
    requires TicketsGrew(a.tickets, b.tickets) && a.tickets.Keys == b.tickets.Keys
    ensures LinkSettled(b, tgt, ticket, tags)
  {
    assert TagsOf(b, tgt, ticket) == TagsOf(a, tgt, ticket);
  }

  /** An import settles its document. */
  lemma ImportSettles(j: Job, s: Db, d: Doc)
    requires !j.overwrite && Keyed(s)
    ensures Settled(j.cs, Result(Import(j, s, d)), j.target, d)
  {
    hide TagSettled, MailboxSettled, TicketSettled, LinkSettled, CommentSettled, AttachmentSettled, Tags, Mailboxes,
      Rules, TicketRows, LinkRows, Comments, Histories, Attachments, Order, TagsFor, KnownMailboxes, TicketKeys;
    var r, e := Import(j, s, d), Result(Import(j, s, d));
    TagsSettle(j, s, d.tags);
    MailboxesSettle(j, r.tags.db, d.mailboxes);
    MailboxesKeyed(j, r.tags.db, d.mailboxes);
    RulesSettle(j, r.mailboxes.db, d.rules);
    TicketsSettle(j, r.rules.db, KnownMailboxes(r.rules.db.mailboxes, j.target), d.tickets);
    OrderDistinct(d.links);
    LinksSettle(j.target, r.tickets.db, d.links, Order(d.links));
    CommentsSettle(j, r.links.db, d.comments);
    HistoriesOnlyAppend(j, r.comments.db, r.tickets.created, d.history);
    AttachmentsSettle(j, r.history.db, d.attachments);
    forall i | 0 <= i < |d.tickets| ensures TicketSettled(e.tickets, j.target, d.tickets[i]) {
      TicketStaysSettled(r.tickets.db.tickets, e.tickets, j.target, d.tickets[i]);
    }
    forall i | 0 <= i < |Order(d.links)|
      ensures LinkSettled(e, j.target, Order(d.links)[i], TagsFor(d.links, Order(d.links)[i]))
    {
      LinkStaysSettled(r.links.db, e, j.target, Order(d.links)[i], TagsFor(d.links, Order(d.links)[i]));
    }
    forall i | 0 <= i < |d.comments| ensures CommentSettled(e, j.target, d.comments[i]) {
      CommentStaysSettled(r.comments.db, e, j.target, d.comments[i]);
    }
  }

  lemma {:induction false} MailboxesKeyed(j: Job, s: Db, rows: seq<Mailbox>)
    requires forall k :: k in s.mailboxes ==> s.mailboxes[k].id == k
    ensures forall k :: k in Mailboxes(j, s, rows).db.mailboxes ==> Mailboxes(j, s, rows).db.mailboxes[k].id == k
  {
    hide NormAddr;
    if rows != [] {
      MailboxesKeyed(j, s, rows[..|rows| - 1]);
      var a, b, id := Mailboxes(j, s, rows[..|rows| - 1]).db.mailboxes, Mailboxes(j, s, rows).db.mailboxes,
                      rows[|rows| - 1].id;
      assert b == a || (id in b && b == a[id := b[id]] && b[id].id == id);
    }
  }

  /** Every row of every collection counts as skipped. */
  predicate AllSkipped(r: Report, d: Doc) {
    r.tags.skipped == |d.tags| && r.mailboxes.skipped == |d.mailboxes| && r.rules.skipped == |d.rules| &&
    r.tickets.skipped == |d.tickets| && r.links.skipped == |d.links| && r.comments.skipped == |d.comments| &&
    r.history.skipped == |d.history| && r.attachments.skipped == |d.attachments|
  }

  /** Importing a settled document does nothing but count. */
  lemma SettledImport(j: Job, s: Db, d: Doc)
    requires !j.overwrite && Settled(j.cs, s, j.target, d)
    ensures Result(Import(j, s, d)) == s && Imported(Import(j, s, d)) == 0 && AllSkipped(Import(j, s, d), d)
  {
    ImportCounts(j, s, d);
    hide TagSettled, MailboxSettled, TicketSettled, LinkSettled, CommentSettled, AttachmentSettled, Tags, Mailboxes,
      Rules, TicketRows, LinkRows, Comments, Histories, Attachments, Order, TagsFor, KnownMailboxes;
    SettledTags(j, s, d.tags);
    SettledMailboxes(j, s, d.mailboxes);
    SettledRules(j, s, d.rules);
    SettledTickets(j, s, KnownMailboxes(s.mailboxes, j.target), d.tickets);
    SettledLinks(j.target, s, d.links, Order(d.links));
    SettledComments(j, s, d.comments);
    HistoriesOnlyAppend(j, s, {}, d.history);
    SettledAttachments(j, s, d.attachments);
  }

  /**
   * Skip-mode import is idempotent, for every document and every starting store, whatever the clock does
   * between the two imports: the second one leaves the whole store as it is and imports no row.
   */
  lemma ImportTwice(j: Job, again: Job, s: Db, d: Doc)
    requires !j.overwrite && !again.overwrite && again.cs == j.cs && again.target == j.target && Keyed(s)
    ensures var once := Result(Import(j, s, d));
            Result(Import(again, once, d)) == once && Imported(Import(again, once, d)) == 0 &&
            AllSkipped(Import(again, once, d), d)
  {
    ImportSettles(j, s, d);
    SettledImport(again, Result(Import(j, s, d)), d);
  }

  // ------------------------------------------------------- counts are conserved

  lemma {:induction false} LinkCounts(tgt: string, s: Db, rows: seq<TagLink>, ids: seq<string>)
    ensures LinkRows(tgt, s, rows, ids).imported + LinkRows(tgt, s, rows, ids).skipped == Mentions(rows, ids)
  {
    if ids != [] {
      LinkCounts(tgt, s, rows, ids[..|ids| - 1]);
    }
  }

  lemma {:induction false} MentionsOneMore(rows: seq<TagLink>, ids: seq<string>)
    requires rows != [] && Distinct(ids)
    ensures Mentions(rows, ids) == Mentions(rows[..|rows| - 1], ids) + if rows[|rows| - 1].ticket in ids then 1 else 0
  {
    if ids != [] {
      var n := |ids| - 1;
      MentionsOneMore(rows, ids[..n]);
      assert ids == ids[..n] + [ids[n]];
    }
  }

  lemma {:induction false} TagsForUnmentioned(rows: seq<TagLink>, ticket: string)
    requires ticket !in Order(rows)
    ensures TagsFor(rows, ticket) == []
  {
    if rows != [] { TagsForUnmentioned(rows[..|rows| - 1], ticket); }
  }

  /** Grouping the links by ticket loses and repeats none. */
  lemma {:induction false} EveryLinkMentioned(rows: seq<TagLink>)
    ensures Mentions(rows, Order(rows)) == |rows|
  {
    if rows != [] {
      var before, t := rows[..|rows| - 1], rows[|rows| - 1].ticket;
      EveryLinkMentioned(before);
      OrderDistinct(before);
      MentionsOneMore(rows, Order(before));
      if t !in Order(before) {
        TagsForUnmentioned(before, t);
        assert Order(rows)[..|Order(rows)| - 1] == Order(before);
      }
    }
  }

  /** Every row of every collection is counted once, as imported or as skipped, in both modes. */
  lemma ImportCounts(j: Job, s: Db, d: Doc)
    ensures var r := Import(j, s, d);
            && r.tags.imported + r.tags.skipped == |d.tags|
            && r.mailboxes.imported + r.mailboxes.skipped == |d.mailboxes|
            && r.rules.imported + r.rules.skipped == |d.rules|
            && r.tickets.imported + r.tickets.skipped == |d.tickets|
            && r.links.imported + r.links.skipped == |d.links|
            && r.comments.imported + r.comments.skipped == |d.comments|
            && r.history.imported + r.history.skipped == |d.history|
            && r.attachments.imported + r.attachments.skipped == |d.attachments|
  {
    hide Tags, Mailboxes, Rules, TicketRows, LinkRows, Comments, Histories, Attachments, Order, TagsFor,
      KnownMailboxes;
    var r := Import(j, s, d);
    RowCounts(j, s, d.tags);
    MailboxCounts(j, r.tags.db, d.mailboxes);
    RuleCounts(j, r.mailboxes.db, d.rules);
    TicketCounts(j, r.rules.db, KnownMailboxes(r.rules.db.mailboxes, j.target), d.tickets);
    LinkCounts(j.target, r.tickets.db, d.links, Order(d.links));
    EveryLinkMentioned(d.links);
    CommentCounts(j, r.links.db, d.comments);
    HistoryCounts(j, r.comments.db, r.tickets.created, d.history);
    AttachmentCounts(j, r.history.db, d.attachments);
  }

  lemma {:induction false} RowCounts(j: Job, s: Db, rows: seq<Tag>)
    ensures Tags(j, s, rows).imported + Tags(j, s, rows).skipped == |rows|
  { if rows != [] { RowCounts(j, s, rows[..|rows| - 1]); } }

  lemma {:induction false} MailboxCounts(j: Job, s: Db, rows: seq<Mailbox>)
    ensures Mailboxes(j, s, rows).imported + Mailboxes(j, s, rows).skipped == |rows|
  { if rows != [] { MailboxCounts(j, s, rows[..|rows| - 1]); } }

  lemma {:induction false} RuleCounts(j: Job, s: Db, rows: seq<Rule>)
    ensures Rules(j, s, rows).imported + Rules(j, s, rows).skipped == |rows|
  { if rows != [] { RuleCounts(j, s, rows[..|rows| - 1]); } }

  lemma {:induction false} TicketCounts(j: Job, s: Db, known: set<string>, rows: seq<Ticket>)
    ensures TicketRows(j, s, known, rows).imported + TicketRows(j, s, known, rows).skipped == |rows|
  { if rows != [] { TicketCounts(j, s, known, rows[..|rows| - 1]); } }

  lemma {:induction false} CommentCounts(j: Job, s: Db, rows: seq<Comment>)
    ensures Comments(j, s, rows).imported + Comments(j, s, rows).skipped == |rows|
  { if rows != [] { CommentCounts(j, s, rows[..|rows| - 1]); } }

  lemma {:induction false} HistoryCounts(j: Job, s: Db, created: set<string>, rows: seq<History>)
    ensures Histories(j, s, created, rows).imported + Histories(j, s, created, rows).skipped == |rows|
  { if rows != [] { HistoryCounts(j, s, created, rows[..|rows| - 1]); } }

  lemma {:induction false} AttachmentCounts(j: Job, s: Db, rows: seq<Attachment>)
    ensures Attachments(j, s, rows).imported + Attachments(j, s, rows).skipped == |rows|
  { if rows != [] { AttachmentCounts(j, s, rows[..|rows| - 1]); } }
}
