/**
 * Restoring an export: loading the export of a tenant into a store that holds nothing of that tenant
 * gives the tenant back, and exporting again gives the same document.
 */
module BackupRestore {
  import opened Rows
  import opened Text
  import opened Listing
  import opened Store
  import opened StoreValid
  import opened StoreIsolation
  import opened Backup
  import opened BackupRepeat
  import opened BackupScope

  // ------------------------------------------------------------------ exports

  ghost function LinkSet(links: map<string, set<string>>, tickets: map<string, Ticket>, b: string): set<TagLink> {
    set k, g | k in links && k in tickets && tickets[k].tenant == b && g in links[k] :: TagLink(b, k, g)
  }

  /** d is the export of tenant b: every collection complete and in its listing order. */
  ghost predicate Exports(cs: Casing, s: Db, b: string, d: Doc) {
    && d.tenant == b
    && Lists(d.tags, Mine(s.tags, TagOwner, b).Values, TagKey(cs))
    && Lists(d.mailboxes, Mine(s.mailboxes, MailboxOwner, b).Values, MailboxKey)
    && Lists(d.rules, Mine(s.rules, RuleOwner, b).Values, RuleKey)
    && Lists(d.tickets, Mine(s.tickets, TicketOwner, b).Values, TicketKey)
    && Lists(d.links, LinkSet(s.links, s.tickets, b), LinkKey)
    && Lists(d.comments, Mine(s.comments, CommentOwner, b).Values, CommentKey)
    && d.history == SortBy(HistoryOf(s.history, b), HistoryKey)
    && Lists(d.attachments, Mine(s.attachments, AttachmentOwner, b).Values, AttachmentKeyOf)
  }

  // --------------------------------------------------------- tables from lists

  /** The table m with the rows written one after the other. */
  function Added<V>(m: map<string, V>, rows: seq<V>, id: V -> string): map<string, V> {
    if rows == [] then m else Added(m, rows[..|rows| - 1], id)[id(rows[|rows| - 1]) := rows[|rows| - 1]]
  }

  /** rows lists the table own: each row under its own id, none twice, none missing. */
  ghost predicate Indexed<V(!new)>(rows: seq<V>, own: map<string, V>, id: V -> string) {
    && (forall i :: 0 <= i < |rows| ==> id(rows[i]) in own && own[id(rows[i])] == rows[i])
    && (forall i, j :: 0 <= i < j < |rows| ==> id(rows[i]) != id(rows[j]))
    && (forall k :: k in own ==> own[k] in rows)
  }

  lemma ListsIndexes<V(!new)>(rows: seq<V>, own: map<string, V>, id: V -> string, key: V -> Key)
    requires Lists(rows, own.Values, key) && forall k :: k in own ==> id(own[k]) == k
    ensures Indexed(rows, own, id)
  {
    forall i | 0 <= i < |rows| ensures id(rows[i]) in own && own[id(rows[i])] == rows[i] {
      assert rows[i] in own.Values;
      var k :| k in own && own[k] == rows[i];
    }
    forall i, j | 0 <= i < j < |rows| ensures id(rows[i]) != id(rows[j]) {
      KeyLessIsStrict(key(rows[i]), key(rows[j]));
    }
    forall k | k in own ensures own[k] in rows {
      assert own[k] in own.Values;
    }
  }

  lemma {:induction false} AddedFrom<V>(m: map<string, V>, rows: seq<V>, id: V -> string)
    ensures forall k :: k in Added(m, rows, id) ==>
              (k in m && Added(m, rows, id)[k] == m[k]) ||
              exists i :: 0 <= i < |rows| && id(rows[i]) == k && Added(m, rows, id)[k] == rows[i]
    ensures forall k :: k in m ==> k in Added(m, rows, id)
    ensures forall i :: 0 <= i < |rows| ==> id(rows[i]) in Added(m, rows, id)
  {
    if rows != [] {
      var n := |rows| - 1;
      AddedFrom(m, rows[..n], id);
      forall k | k in Added(m, rows, id) && !(k in m && Added(m, rows, id)[k] == m[k])
        ensures exists i :: 0 <= i < |rows| && id(rows[i]) == k && Added(m, rows, id)[k] == rows[i]
      {
        if k == id(rows[n]) {
          assert Added(m, rows, id)[k] == rows[n];
        } else {
          var i :| 0 <= i < n && id(rows[..n][i]) == k && Added(m, rows[..n], id)[k] == rows[..n][i];
          assert rows[..n][i] == rows[i];
        }
      }
      forall i | 0 <= i < |rows| ensures id(rows[i]) in Added(m, rows, id) {
        if i < n { assert rows[..n][i] == rows[i]; }
      }
    }
  }

  lemma AddedIs<V(!new)>(m: map<string, V>, rows: seq<V>, own: map<string, V>, id: V -> string)
    requires Indexed(rows, own, id) && forall k :: k in own ==> k !in m && id(own[k]) == k
    ensures Added(m, rows, id) == m + own
  {
    AddedFrom(m, rows, id);
    forall k | k in own ensures k in Added(m, rows, id) {
      assert own[k] in rows;
    }
    forall k | k in Added(m, rows, id) ensures k in m + own && Added(m, rows, id)[k] == (m + own)[k] {}
  }

  /** Writing one tenant's table into a store without it leaves exactly that table as the tenant's. */
  lemma MineAdded<V(!new)>(m: map<string, V>, own: map<string, V>, owner: V -> string, b: string)
    requires forall k :: k in m ==> owner(m[k]) != b
    requires forall k :: k in own ==> owner(own[k]) == b && k !in m
    ensures Mine(m + own, owner, b) == own
  {
  }

  function TagId(t: Tag): string { t.id }
  function MailboxId(m: Mailbox): string { m.id }
  function RuleId(r: Rule): string { r.id }
  function TicketId(t: Ticket): string { t.id }
  function CommentId(c: Comment): string { c.id }
  function AttachmentId(a: Attachment): string { a.id }

  // ------------------------------------------------- rows that load unchanged

  predicate TagStamped(t: Tag) { t.kind != "" && t.createdAt != ZERO_TIME }

  predicate MailboxStamped(cs: Casing, m: Mailbox) {
    NormAddr(cs, NormAddr(cs, m.address)) == m.address && m.createdAt != ZERO_TIME && m.updatedAt != ZERO_TIME
  }

  predicate RuleStamped(r: Rule) {
    r.version > 0 && r.combine != "" && r.createdAt != ZERO_TIME && r.updatedAt != ZERO_TIME
  }

  predicate TicketStamped(t: Ticket) {
    !Blank(t.subject) && t.status != "" && t.priority != "" && t.source != "" && t.createdAt != ZERO_TIME
  }

  predicate CommentStamped(c: Comment) { c.delivery != "" && c.createdAt != ZERO_TIME }

  predicate AttachmentStamped(b: string, a: Attachment) { OwnKey(b, a.storageKey) && a.createdAt != ZERO_TIME }

  // -------------------------------------------------------------------- tags

  predicate TagsLoad(cs: Casing, m: map<string, Tag>, b: string, rows: seq<Tag>) {
    && (forall k :: k in m ==> m[k].tenant != b)
    && (forall i :: 0 <= i < |rows| ==> rows[i].tenant == b && TagStamped(rows[i]) && rows[i].id !in m)
    && (forall i, j :: 0 <= i < j < |rows| ==>
          rows[i].id != rows[j].id && (rows[i].kind == rows[j].kind ==> cs.fold(rows[i].name) != cs.fold(rows[j].name)))
  }

  lemma TagRowLoads(j: Job, l: Load, i: nat, t: Tag)
    requires t.tenant == j.target && TagStamped(t) && t.id !in l.db.tags && !NameTaken(j.cs, l.db.tags, t)
    ensures TagRow(j, l, i, t) == l.(db := l.db.(tags := l.db.tags[t.id := t]), imported := l.imported + 1)
  {
    hide NameTaken;
    assert t.(tenant := j.target) == t && t.(kind := t.kind) == t && t.(createdAt := t.createdAt) == t;
  }

  lemma NameFree(cs: Casing, m: map<string, Tag>, b: string, rows: seq<Tag>)
    requires TagsLoad(cs, m, b, rows) && rows != []
    ensures var tags := Added(m, rows[..|rows| - 1], TagId);
            rows[|rows| - 1].id !in tags && !NameTaken(cs, tags, rows[|rows| - 1])
  {
    AddedFrom(m, rows[..|rows| - 1], TagId);
    hide Added;
  }

  lemma {:induction false} TagsRestore(j: Job, s: Db, rows: seq<Tag>)
    requires TagsLoad(j.cs, s.tags, j.target, rows)
    ensures Tags(j, s, rows) == Load(s.(tags := Added(s.tags, rows, TagId)), |rows|, 0, {})
  {
    hide TagRow, NameTaken, TagStamped;
    if rows != [] {
      var n := |rows| - 1;
      TagsRestore(j, s, rows[..n]);
      NameFree(j.cs, s.tags, j.target, rows);
      TagRowLoads(j, Tags(j, s, rows[..n]), n, rows[n]);
    }
  }

  // --------------------------------------------------------------- mailboxes

  predicate MailboxesLoad(cs: Casing, m: map<string, Mailbox>, b: string, rows: seq<Mailbox>) {
    && (forall k :: k in m ==> m[k].tenant != b)
    && (forall i :: 0 <= i < |rows| ==> rows[i].tenant == b && MailboxStamped(cs, rows[i]) && rows[i].id !in m)
    && (forall i, k :: 0 <= i < |rows| && k in m ==> m[k].address != rows[i].address)
    && (forall i, j :: 0 <= i < j < |rows| ==> rows[i].id != rows[j].id && rows[i].address != rows[j].address)
  }

  lemma MailboxRowLoads(j: Job, l: Load, i: nat, m: Mailbox)
    requires m.tenant == j.target && MailboxStamped(j.cs, m) && m.id !in l.db.mailboxes
    requires !AddressTaken(l.db.mailboxes, m.id, m.address)
    ensures MailboxRow(j, l, i, m) ==
            l.(db := l.db.(mailboxes := l.db.mailboxes[m.id := m]), imported := l.imported + 1)
  {
    hide NormAddr, AddressTaken;
    var m' := m.(tenant := j.target, address := NormAddr(j.cs, m.address));
    assert m'.(address := NormAddr(j.cs, m'.address)) == m;
    assert m.(createdAt := m.createdAt, updatedAt := m.updatedAt) == m;
  }

  lemma AddressFree(cs: Casing, m: map<string, Mailbox>, b: string, rows: seq<Mailbox>)
    requires MailboxesLoad(cs, m, b, rows) && rows != []
    ensures var boxes := Added(m, rows[..|rows| - 1], MailboxId);
            rows[|rows| - 1].id !in boxes && !AddressTaken(boxes, rows[|rows| - 1].id, rows[|rows| - 1].address)
  {
    AddedFrom(m, rows[..|rows| - 1], MailboxId);
    hide Added, NormAddr;
  }

  lemma {:induction false} MailboxesRestore(j: Job, s: Db, rows: seq<Mailbox>)
    requires MailboxesLoad(j.cs, s.mailboxes, j.target, rows)
    ensures Mailboxes(j, s, rows) == Load(s.(mailboxes := Added(s.mailboxes, rows, MailboxId)), |rows|, 0, {})
  {
    hide MailboxRow, AddressTaken, MailboxStamped;
    if rows != [] {
      var n := |rows| - 1;
      MailboxesRestore(j, s, rows[..n]);
      AddressFree(j.cs, s.mailboxes, j.target, rows);
      MailboxRowLoads(j, Mailboxes(j, s, rows[..n]), n, rows[n]);
    }
  }

  // ------------------------------------------------------------------- rules

  predicate RulesLoad(m: map<string, Rule>, b: string, rows: seq<Rule>) {
    && (forall i :: 0 <= i < |rows| ==> rows[i].tenant == b && RuleStamped(rows[i]) && rows[i].id !in m)
    && (forall i, j :: 0 <= i < j < |rows| ==> rows[i].id != rows[j].id)
  }

  lemma RuleRowLoads(j: Job, l: Load, i: nat, r: Rule)
    requires r.tenant == j.target && RuleStamped(r) && r.id !in l.db.rules
    ensures RuleRow(j, l, i, r) == l.(db := l.db.(rules := l.db.rules[r.id := r]), imported := l.imported + 1)
  {
    assert r.(tenant := j.target) == r;
    assert r.(createdAt := r.createdAt, updatedAt := r.updatedAt, version := r.version, combine := r.combine) == r;
  }

  lemma {:induction false} RulesRestore(j: Job, s: Db, rows: seq<Rule>)
    requires RulesLoad(s.rules, j.target, rows)
    ensures Rules(j, s, rows) == Load(s.(rules := Added(s.rules, rows, RuleId)), |rows|, 0, {})
  {
    hide RuleRow, RuleStamped;
    if rows != [] {
      var n := |rows| - 1;
      RulesRestore(j, s, rows[..n]);
      AddedFrom(s.rules, rows[..n], RuleId);
      RuleRowLoads(j, Rules(j, s, rows[..n]), n, rows[n]);
    }
  }

  // ----------------------------------------------------------------- tickets

  /** A ticket as it stands before its comments are loaded. */
  function Bare(t: Ticket): Ticket {
    t.(commentCount := 0, lastMessage := "", updatedAt := OrNow(t.updatedAt, t.createdAt))
  }

  function Bares(rows: seq<Ticket>): seq<Ticket> {
    if rows == [] then [] else Bares(rows[..|rows| - 1]) + [Bare(rows[|rows| - 1])]
  }

  lemma {:induction false} BaresAre(rows: seq<Ticket>)
    ensures |Bares(rows)| == |rows| && forall i :: 0 <= i < |rows| ==> Bares(rows)[i] == Bare(rows[i])
  {
    if rows != [] { BaresAre(rows[..|rows| - 1]); }
  }

  predicate TicketsLoad(m: map<string, Ticket>, b: string, known: set<string>, boxes: map<string, Mailbox>,
                        rows: seq<Ticket>)
  {
    && (forall k :: k in m ==> m[k].tenant != b)
    && (forall i :: 0 <= i < |rows| ==>
          && rows[i].tenant == b && TicketStamped(rows[i]) && rows[i].id !in m
          && (rows[i].mailbox == "" || (rows[i].mailbox in known && MailboxKnown(boxes, b, rows[i].mailbox))))
    && (forall i, j :: 0 <= i < j < |rows| ==>
          rows[i].id != rows[j].id && (rows[i].externalId != "" ==> rows[i].externalId != rows[j].externalId))
  }

  lemma TicketRowLoads(j: Job, l: Load, known: set<string>, i: nat, t: Ticket)
    requires t.tenant == j.target && TicketStamped(t) && t.id !in l.db.tickets
    requires t.mailbox == "" || (t.mailbox in known && MailboxKnown(l.db.mailboxes, j.target, t.mailbox))
    requires t.externalId == "" || !ExternalTaken(l.db.tickets, j.target, t.externalId)
    ensures TicketRow(j, l, known, i, t) ==
            l.(db := l.db.(tickets := l.db.tickets[t.id := Bare(t)]), imported := l.imported + 1,
               created := l.created + {t.id})
  {
    hide Blank, ExternalTaken, OverwriteTicket;
    var p := Prepared(t, j.target, known);
    assert p == t.(commentCount := 0, lastMessage := "");
    assert Opened(p, j.clock(CTickets, i)) == Bare(t);
  }

  lemma ExternalFree(m: map<string, Ticket>, b: string, known: set<string>, boxes: map<string, Mailbox>,
                     rows: seq<Ticket>)
    requires TicketsLoad(m, b, known, boxes, rows) && rows != []
    ensures var t, tickets := rows[|rows| - 1], Added(m, Bares(rows[..|rows| - 1]), TicketId);
            t.id !in tickets && (t.externalId == "" || !ExternalTaken(tickets, b, t.externalId))
  {
    var n := |rows| - 1;
    BaresAre(rows[..n]);
    AddedFrom(m, Bares(rows[..n]), TicketId);
    hide Added, Bares, TicketStamped, MailboxKnown;
  }

  function TicketIds(rows: seq<Ticket>): set<string> {
    if rows == [] then {} else TicketIds(rows[..|rows| - 1]) + {rows[|rows| - 1].id}
  }

  lemma {:induction false} TicketIdsAre(rows: seq<Ticket>)
    ensures forall i :: 0 <= i < |rows| ==> rows[i].id in TicketIds(rows)
  {
    if rows != [] { TicketIdsAre(rows[..|rows| - 1]); }
  }

  lemma AddedBares(m: map<string, Ticket>, rows: seq<Ticket>)
    requires rows != []
    ensures var n := |rows| - 1;
            Added(m, Bares(rows), TicketId) == Added(m, Bares(rows[..n]), TicketId)[rows[n].id := Bare(rows[n])]
  {
    var n := |rows| - 1;
    assert Bares(rows)[..|Bares(rows)| - 1] == Bares(rows[..n]);
  }

  lemma {:induction false} TicketsRestore(j: Job, s: Db, known: set<string>, rows: seq<Ticket>)
    requires TicketsLoad(s.tickets, j.target, known, s.mailboxes, rows)
    ensures TicketRows(j, s, known, rows) ==
            Load(s.(tickets := Added(s.tickets, Bares(rows), TicketId)), |rows|, 0, TicketIds(rows))
  {
    hide TicketRow, ExternalTaken, TicketStamped, MailboxKnown, Bare;
    if rows != [] {
      var n := |rows| - 1;
      TicketsRestore(j, s, known, rows[..n]);
      ExternalFree(s.tickets, j.target, known, s.mailboxes, rows);
      AddedBares(s.tickets, rows);
      hide Added, Bares;
      TicketRowLoads(j, TicketRows(j, s, known, rows[..n]), known, n, rows[n]);
    }
  }

  // ------------------------------------------------------------------- links

  lemma {:induction false} TagsForIs(rows: seq<TagLink>, ticket: string)
    ensures forall g :: g in TagsFor(rows, ticket) <==>
              exists i :: 0 <= i < |rows| && rows[i].ticket == ticket && rows[i].tag == g
  {
    if rows != [] {
      var n := |rows| - 1;
      TagsForIs(rows[..n], ticket);
      forall g
        ensures g in TagsFor(rows, ticket) <==>
                  exists i :: 0 <= i < |rows| && rows[i].ticket == ticket && rows[i].tag == g
      {
        if i :| 0 <= i < |rows| && rows[i].ticket == ticket && rows[i].tag == g {
          if i < n { assert rows[..n][i] == rows[i]; }
        }
        if g in TagsFor(rows[..n], ticket) {
          var i :| 0 <= i < n && rows[..n][i].ticket == ticket && rows[..n][i].tag == g;
          assert rows[i].ticket == ticket;
        }
      }
    }
  }

  lemma {:induction false} OrderIs(rows: seq<TagLink>)
    ensures forall t :: t in Order(rows) <==> exists i :: 0 <= i < |rows| && rows[i].ticket == t
  {
    if rows != [] {
      var n := |rows| - 1;
      OrderIs(rows[..n]);
      forall t ensures t in Order(rows) <==> exists i :: 0 <= i < |rows| && rows[i].ticket == t {
        if i :| 0 <= i < |rows| && rows[i].ticket == t {
          if i < n { assert rows[..n][i] == rows[i]; }
        }
        if t in Order(rows[..n]) {
          var i :| 0 <= i < n && rows[..n][i].ticket == t;
          assert rows[i].ticket == t;
        }
      }
    }
  }

  lemma {:induction false} UnlinkedAll(tags: seq<string>)
    requires Distinct(tags)
    ensures Unlinked({}, tags) == tags
  {
    if tags != [] {
      var n := |tags| - 1;
      UnlinkedAll(tags[..n]);
      assert tags == tags[..n] + [tags[n]];
    }
  }

  lemma LinkRowLoads(tgt: string, l: Load, ticket: string, tags: seq<string>)
    requires HasTicket(l.db, tgt, ticket) && TagsKnown(l.db, tgt, tags) && tags != [] &&
             Linked(l.db.links, ticket) == {}
    ensures LinkRow(tgt, l, ticket, tags).db == l.db.(links := l.db.links[ticket := set g | g in tags])
    ensures Distinct(tags) ==> LinkRow(tgt, l, ticket, tags).skipped == l.skipped
  {
    if Distinct(tags) { UnlinkedAll(tags); }
    var add := Unlinked({}, tags);
    UnlinkedIs({}, tags);
    assert tags[0] in add;
    assert TagsOf(l.db, tgt, ticket) == {};
    assert (set g | g in add) == (set g | g in tags);
    assert Linked(l.db.links, ticket) + (set g | g in add) == (set g | g in tags);
  }

  predicate LinksLoad(s: Db, tgt: string, rows: seq<TagLink>, ids: seq<string>) {
    Distinct(ids) && forall i :: 0 <= i < |ids| ==>
      && HasTicket(s, tgt, ids[i]) && Linked(s.links, ids[i]) == {}
      && TagsFor(rows, ids[i]) != [] && TagsKnown(s, tgt, TagsFor(rows, ids[i]))
  }

  lemma {:induction false} LinksRestore(tgt: string, s: Db, rows: seq<TagLink>, ids: seq<string>)
    requires LinksLoad(s, tgt, rows, ids)
    ensures var d := LinkRows(tgt, s, rows, ids).db;
            && d == s.(links := d.links)
            && (forall k :: k !in ids ==>
                  (k in d.links <==> k in s.links) && (k in s.links ==> d.links[k] == s.links[k]))
            && (forall k :: k in ids ==> k in d.links && d.links[k] == set g | g in TagsFor(rows, k))
  {
    hide TagsFor, LinkRow;
    if ids != [] {
      var n := |ids| - 1;
      LinksRestore(tgt, s, rows, ids[..n]);
      var l := LinkRows(tgt, s, rows, ids[..n]);
      LinkRowLoads(tgt, l, ids[n], TagsFor(rows, ids[n]));
      assert ids == ids[..n] + [ids[n]];
    }
  }

  /** Links listed once each are all imported. */
  lemma {:induction false} LinksSkipNone(tgt: string, s: Db, rows: seq<TagLink>, ids: seq<string>)
    requires LinksLoad(s, tgt, rows, ids) && forall k :: k in ids ==> Distinct(TagsFor(rows, k))
    ensures LinkRows(tgt, s, rows, ids).skipped == 0
  {
    hide TagsFor, LinkRow;
    if ids != [] {
      var n := |ids| - 1;
      LinksRestore(tgt, s, rows, ids[..n]);
      LinksSkipNone(tgt, s, rows, ids[..n]);
      LinkRowLoads(tgt, LinkRows(tgt, s, rows, ids[..n]), ids[n], TagsFor(rows, ids[n]));
    }
  }

  // ---------------------------------------------------------------- comments

  /** Tickets that differ only in what their comments rebuild. */
  predicate Alike(t: Ticket, u: Ticket) {
    t.(commentCount := 0, lastMessage := "", updatedAt := 0) == u.(commentCount := 0, lastMessage := "", updatedAt := 0)
  }

  predicate AllAlike(a: map<string, Ticket>, b: map<string, Ticket>) {
    a.Keys == b.Keys && forall k :: k in a ==> Alike(a[k], b[k])
  }

  predicate CommentsLoad(s: Db, b: string, rows: seq<Comment>) {
    && TicketKeys(s.tickets)
    && (forall k :: k in s.comments ==> s.comments[k].tenant != b)
    && (forall i :: 0 <= i < |rows| ==>
          rows[i].tenant == b && CommentStamped(rows[i]) && rows[i].id !in s.comments &&
          HasTicket(s, b, rows[i].ticket))
    && (forall i, j :: 0 <= i < j < |rows| ==>
          rows[i].id != rows[j].id && (rows[i].messageId != "" ==> rows[i].messageId != rows[j].messageId))
  }

  lemma CommentRowLoads(j: Job, l: Load, i: nat, c: Comment)
    requires c.tenant == j.target && CommentStamped(c) && c.id !in l.db.comments && HasTicket(l.db, j.target, c.ticket)
    requires c.messageId == "" || !MessageTaken(l.db.comments, j.target, c.messageId)
    requires TicketKeys(l.db.tickets)
    ensures var l' := CommentRow(j, l, i, c);
            && l'.db == l.db.(comments := l.db.comments[c.id := c], tickets := l'.db.tickets)
            && l'.skipped == l.skipped && AllAlike(l.db.tickets, l'.db.tickets) && TicketKeys(l'.db.tickets)
  {
    hide MessageTaken;
    assert c.(tenant := j.target) == c && Written(c, j.clock(CComments, i)) == c;
    assert CommentRow(j, l, i, c) == Put(l, CreateComment(l.db, c, j.clock(CComments, i)));
    var t := Commented(l.db.tickets[c.ticket], c);
    assert CommentRow(j, l, i, c).db.tickets == l.db.tickets[c.ticket := t];
    assert Alike(l.db.tickets[c.ticket], t);
  }

  lemma MessageFree(s: Db, b: string, rows: seq<Comment>)
    requires CommentsLoad(s, b, rows) && rows != []
    ensures var c, comments := rows[|rows| - 1], Added(s.comments, rows[..|rows| - 1], CommentId);
            c.id !in comments && (c.messageId == "" || !MessageTaken(comments, b, c.messageId))
  {
    AddedFrom(s.comments, rows[..|rows| - 1], CommentId);
    hide Added, TicketKeys, HasTicket;
  }

  lemma {:induction false} CommentsRestore(j: Job, s: Db, rows: seq<Comment>)
    requires CommentsLoad(s, j.target, rows)
    ensures var l := Comments(j, s, rows);
            && l.db == s.(comments := Added(s.comments, rows, CommentId), tickets := l.db.tickets)
            && l.skipped == 0 && AllAlike(s.tickets, l.db.tickets) && TicketKeys(l.db.tickets)
  {
    hide CommentRow, MessageTaken, CommentStamped, TicketKeys, Alike;
    if rows == [] {
      forall k | k in s.tickets ensures Alike(s.tickets[k], s.tickets[k]) { AlikeItself(s.tickets[k]); }
    } else {
      var n := |rows| - 1;
      CommentsRestore(j, s, rows[..n]);
      MessageFree(s, j.target, rows);
      var l := Comments(j, s, rows[..n]);
      assert HasTicket(l.db, j.target, rows[n].ticket) by {
        AlikeOwner(s.tickets[rows[n].ticket], l.db.tickets[rows[n].ticket]);
      }
      CommentRowLoads(j, l, n, rows[n]);
      forall k | k in s.tickets ensures Alike(s.tickets[k], Comments(j, s, rows).db.tickets[k]) {
        AlikeTwice(s.tickets[k], l.db.tickets[k], Comments(j, s, rows).db.tickets[k]);
      }
    }
  }

  lemma AlikeItself(t: Ticket)
    ensures Alike(t, t)
  {
  }

  lemma AlikeOwner(t: Ticket, u: Ticket)
    requires Alike(t, u)
    ensures t.tenant == u.tenant && t.id == u.id
  {
  }

  lemma AlikeTwice(t: Ticket, u: Ticket, v: Ticket)
    requires Alike(t, u) && Alike(u, v)
    ensures Alike(t, v)
  {
  }

  // ----------------------------------------------------------------- history

  lemma {:induction false} HistoriesRestore(j: Job, s: Db, created: set<string>, rows: seq<History>)
    requires forall i :: 0 <= i < |rows| ==>
               rows[i].tenant == j.target && rows[i].createdAt != ZERO_TIME && rows[i].ticket in created &&
               HasTicket(s, j.target, rows[i].ticket)
    ensures Histories(j, s, created, rows) == Load(s.(history := s.history + rows), |rows|, 0, {})
  {
    if rows == [] {
      assert s.history + rows == s.history;
    } else {
      var n := |rows| - 1;
      HistoriesRestore(j, s, created, rows[..n]);
      assert rows[n].(tenant := j.target) == rows[n];
      assert rows[n].(createdAt := rows[n].createdAt) == rows[n];
      assert s.history + rows[..n] + [rows[n]] == s.history + rows;
    }
  }

  // ------------------------------------------------------------- attachments

  predicate AttachmentsLoad(s: Db, b: string, rows: seq<Attachment>) {
    && (forall i :: 0 <= i < |rows| ==>
          && rows[i].tenant == b && AttachmentStamped(b, rows[i]) && rows[i].id !in s.attachments
          && HasTicket(s, b, rows[i].ticket) && (rows[i].comment == "" || CommentMatches(s.comments, rows[i])))
    && (forall i, k :: 0 <= i < |rows| && k in s.attachments ==> s.attachments[k].storageKey != rows[i].storageKey)
    && (forall i, j :: 0 <= i < j < |rows| ==>
          rows[i].id != rows[j].id && rows[i].storageKey != rows[j].storageKey)
  }

  lemma AttachmentRowLoads(j: Job, l: Load, i: nat, a: Attachment)
    requires a.tenant == j.target && AttachmentStamped(j.target, a) && a.id !in l.db.attachments
    requires HasTicket(l.db, j.target, a.ticket) && (a.comment == "" || CommentMatches(l.db.comments, a))
    requires !KeyTaken(l.db.attachments, a.storageKey)
    ensures AttachmentRow(j, l, i, a) ==
            l.(db := l.db.(attachments := l.db.attachments[a.id := a]), imported := l.imported + 1)
  {
    hide OwnKey, KeyTaken, CommentMatches;
    assert a.(tenant := j.target) == a && a.(createdAt := a.createdAt) == a;
  }

  lemma KeyFree(s: Db, b: string, rows: seq<Attachment>)
    requires AttachmentsLoad(s, b, rows) && rows != []
    ensures var a, files := rows[|rows| - 1], Added(s.attachments, rows[..|rows| - 1], AttachmentId);
            a.id !in files && !KeyTaken(files, a.storageKey)
  {
    AddedFrom(s.attachments, rows[..|rows| - 1], AttachmentId);
    hide Added, OwnKey, CommentMatches, HasTicket;
  }

  lemma {:induction false} AttachmentsRestore(j: Job, s: Db, rows: seq<Attachment>)
    requires AttachmentsLoad(s, j.target, rows)
    ensures Attachments(j, s, rows) ==
            Load(s.(attachments := Added(s.attachments, rows, AttachmentId)), |rows|, 0, {})
  {
    hide AttachmentRow, AttachmentStamped, KeyTaken, CommentMatches;
    if rows != [] {
      var n := |rows| - 1;
      AttachmentsRestore(j, s, rows[..n]);
      KeyFree(s, j.target, rows);
      AttachmentRowLoads(j, Attachments(j, s, rows[..n]), n, rows[n]);
    }
  }
}
