/** Export, load into a store without the tenant, export again: the same document comes back. */
module BackupRoundTrip {
  import opened Rows
  import opened Text
  import opened Listing
  import opened Store
  import opened StoreValid
  import opened StoreIsolation
  import opened Backup
  import opened BackupRepeat
  import opened BackupScope
  import opened BackupRestore
  import opened BackupWipe

  /** Every row of tenant b is of the kind that loads unchanged. */
  predicate Stamped(cs: Casing, s: Db, b: string) {
    && (forall k :: k in s.tags && s.tags[k].tenant == b ==> TagStamped(s.tags[k]))
    && (forall k :: k in s.mailboxes && s.mailboxes[k].tenant == b ==> MailboxStamped(cs, s.mailboxes[k]))
    && (forall k :: k in s.rules && s.rules[k].tenant == b ==> RuleStamped(s.rules[k]))
    && (forall k :: k in s.tickets && s.tickets[k].tenant == b ==> TicketStamped(s.tickets[k]))
    && (forall k :: k in s.comments && s.comments[k].tenant == b ==> CommentStamped(s.comments[k]))
    && (forall i :: 0 <= i < |s.history| && s.history[i].tenant == b ==> s.history[i].createdAt != ZERO_TIME)
    && (forall k :: k in s.attachments && s.attachments[k].tenant == b ==> AttachmentStamped(b, s.attachments[k]))
  }

  /** Table m holds no row of b and uses none of the ids of b's table own. */
  ghost predicate Free<V>(m: map<string, V>, own: map<string, V>, owner: V -> string, b: string) {
    (forall k :: k in m ==> owner(m[k]) != b) && (forall k :: k in own ==> k !in m)
  }

  /** s0 holds nothing of tenant b and nothing that clashes with b's rows in s. */
  ghost predicate Apart(s0: Db, s: Db, b: string) {
    && Free(s0.tags, Mine(s.tags, TagOwner, b), TagOwner, b)
    && Free(s0.mailboxes, Mine(s.mailboxes, MailboxOwner, b), MailboxOwner, b)
    && Free(s0.rules, Mine(s.rules, RuleOwner, b), RuleOwner, b)
    && Free(s0.tickets, Mine(s.tickets, TicketOwner, b), TicketOwner, b)
    && Free(s0.comments, Mine(s.comments, CommentOwner, b), CommentOwner, b)
    && Free(s0.attachments, Mine(s.attachments, AttachmentOwner, b), AttachmentOwner, b)
    && (forall i, k :: i in s0.mailboxes && k in Mine(s.mailboxes, MailboxOwner, b) ==>
          s0.mailboxes[i].address != s.mailboxes[k].address)
    && (forall i, k :: i in s0.attachments && k in Mine(s.attachments, AttachmentOwner, b) ==>
          s0.attachments[i].storageKey != s.attachments[k].storageKey)
  }

  // ------------------------------------------------------- the document loads

  lemma TagsWillLoad(cs: Casing, s0: Db, s: Db, b: string, rows: seq<Tag>)
    requires Indexed(rows, Mine(s.tags, TagOwner, b), TagId) && UniqueName(cs, s.tags)
    requires Free(s0.tags, Mine(s.tags, TagOwner, b), TagOwner, b)
    requires forall k :: k in s.tags && s.tags[k].tenant == b ==> TagStamped(s.tags[k])
    ensures TagsLoad(cs, s0.tags, b, rows)
  {
    hide TagStamped;
  }

  lemma MailboxesWillLoad(cs: Casing, s0: Db, s: Db, b: string, rows: seq<Mailbox>)
    requires Indexed(rows, Mine(s.mailboxes, MailboxOwner, b), MailboxId) && UniqueAddress(s.mailboxes)
    requires Free(s0.mailboxes, Mine(s.mailboxes, MailboxOwner, b), MailboxOwner, b)
    requires forall i, k :: i in s0.mailboxes && k in Mine(s.mailboxes, MailboxOwner, b) ==>
               s0.mailboxes[i].address != s.mailboxes[k].address
    requires forall k :: k in s.mailboxes && s.mailboxes[k].tenant == b ==> MailboxStamped(cs, s.mailboxes[k])
    ensures MailboxesLoad(cs, s0.mailboxes, b, rows)
  {
    hide MailboxStamped;
  }

  lemma RulesWillLoad(s0: Db, s: Db, b: string, rows: seq<Rule>)
    requires Indexed(rows, Mine(s.rules, RuleOwner, b), RuleId)
    requires Free(s0.rules, Mine(s.rules, RuleOwner, b), RuleOwner, b)
    requires forall k :: k in s.rules && s.rules[k].tenant == b ==> RuleStamped(s.rules[k])
    ensures RulesLoad(s0.rules, b, rows)
  {
    hide RuleStamped;
  }

  lemma TicketsWillLoad(s0: Db, s: Db, b: string, boxes: map<string, Mailbox>, rows: seq<Ticket>)
    requires Indexed(rows, Mine(s.tickets, TicketOwner, b), TicketId) && UniqueExternal(s.tickets)
    requires Free(s0.tickets, Mine(s.tickets, TicketOwner, b), TicketOwner, b)
    requires forall k :: k in s.tickets && s.tickets[k].tenant == b ==> TicketStamped(s.tickets[k])
    requires TicketRefs(s.tickets, s.mailboxes) && boxes == s0.mailboxes + Mine(s.mailboxes, MailboxOwner, b)
    requires forall k :: k in s.mailboxes ==> s.mailboxes[k].id == k
    ensures TicketsLoad(s0.tickets, b, KnownMailboxes(boxes, b), boxes, rows)
  {
    hide TicketStamped, UniqueExternal;
    forall i | 0 <= i < |rows| && rows[i].mailbox != ""
      ensures rows[i].mailbox in KnownMailboxes(boxes, b) && MailboxKnown(boxes, b, rows[i].mailbox)
    {
      var k := rows[i].mailbox;
      assert k in Mine(s.mailboxes, MailboxOwner, b);
      assert boxes[k].id == k;
    }
    forall i, j | 0 <= i < j < |rows| && rows[i].externalId != "" ensures rows[i].externalId != rows[j].externalId {
      ExternalsDiffer(s.tickets, rows[i].id, rows[j].id);
    }
  }

  lemma ExternalsDiffer(tickets: map<string, Ticket>, i: string, j: string)
    requires UniqueExternal(tickets) && i in tickets && j in tickets && i != j
    requires tickets[i].tenant == tickets[j].tenant && tickets[i].externalId != ""
    ensures tickets[i].externalId != tickets[j].externalId
  {
  }

  /** The bare tickets, as a table. */
  function BareTable(own: map<string, Ticket>): map<string, Ticket> { map k | k in own :: Bare(own[k]) }

  lemma BaresIndexed(rows: seq<Ticket>, own: map<string, Ticket>)
    requires Indexed(rows, own, TicketId)
    ensures Indexed(Bares(rows), BareTable(own), TicketId)
  {
    BaresAre(rows);
    hide Bares;
    forall k | k in own ensures Bare(own[k]) in Bares(rows) {
      var i :| 0 <= i < |rows| && rows[i] == own[k];
      assert Bares(rows)[i] == Bare(own[k]);
    }
  }

  /** The links load into m, whose tickets and tags hold those of b and whose links hold none of b's. */
  lemma LinksWillLoad(s: Db, m: Db, b: string, rows: seq<TagLink>)
    requires LinkRefs(s.links, s.tickets, s.tags) && (set l | l in rows) == LinkSet(s.links, s.tickets, b)
    requires forall k :: k in Mine(s.tickets, TicketOwner, b) ==> HasTicket(m, b, k) && k !in m.links
    requires forall k :: k in Mine(s.tags, TagOwner, b) ==> HasTag(m, b, k)
    ensures LinksLoad(m, b, rows, Order(rows))
  {
    OrderDistinct(rows);
    OrderIs(rows);
    hide Order;
    var ids := Order(rows);
    forall i | 0 <= i < |ids|
      ensures HasTicket(m, b, ids[i]) && Linked(m.links, ids[i]) == {}
      ensures TagsFor(rows, ids[i]) != [] && TagsKnown(m, b, TagsFor(rows, ids[i]))
    {
      TagsForIs(rows, ids[i]);
      assert ids[i] in ids;
      var r :| 0 <= r < |rows| && rows[r].ticket == ids[i];
      assert rows[r] in LinkSet(s.links, s.tickets, b);
      assert rows[r].tag in TagsFor(rows, ids[i]);
      forall g | g in TagsFor(rows, ids[i]) ensures HasTag(m, b, g) {
        var q :| 0 <= q < |rows| && rows[q].ticket == ids[i] && rows[q].tag == g;
        assert rows[q] in LinkSet(s.links, s.tickets, b);
      }
    }
  }

  lemma CommentsWillLoad(s0: Db, s: Db, m: Db, b: string, rows: seq<Comment>)
    requires Indexed(rows, Mine(s.comments, CommentOwner, b), CommentId) && UniqueMessage(s.comments)
    requires Free(s0.comments, Mine(s.comments, CommentOwner, b), CommentOwner, b) && m.comments == s0.comments
    requires forall k :: k in s.comments && s.comments[k].tenant == b ==> CommentStamped(s.comments[k])
    requires CommentRefs(s.comments, s.tickets) && TicketKeys(m.tickets)
    requires forall k :: k in Mine(s.tickets, TicketOwner, b) ==> HasTicket(m, b, k)
    ensures CommentsLoad(m, b, rows)
  {
    hide CommentStamped, TicketKeys;
  }

  lemma AttachmentsWillLoad(s0: Db, s: Db, m: Db, b: string, rows: seq<Attachment>)
    requires Indexed(rows, Mine(s.attachments, AttachmentOwner, b), AttachmentId) && UniqueKey(s.attachments)
    requires Free(s0.attachments, Mine(s.attachments, AttachmentOwner, b), AttachmentOwner, b)
    requires m.attachments == s0.attachments && m.comments == s0.comments + Mine(s.comments, CommentOwner, b)
    requires forall i, k :: i in s0.attachments && k in Mine(s.attachments, AttachmentOwner, b) ==>
               s0.attachments[i].storageKey != s.attachments[k].storageKey
    requires forall k :: k in s.attachments && s.attachments[k].tenant == b ==> AttachmentStamped(b, s.attachments[k])
    requires AttachmentRefs(s.attachments, s.comments, s.tickets)
    requires forall k :: k in Mine(s.tickets, TicketOwner, b) ==> HasTicket(m, b, k)
    ensures AttachmentsLoad(m, b, rows)
  {
    hide AttachmentStamped;
  }

  lemma {:induction false} HistoryOfIs(h: seq<History>, b: string)
    ensures forall i :: 0 <= i < |HistoryOf(h, b)| ==> HistoryOf(h, b)[i].tenant == b && HistoryOf(h, b)[i] in h
  {
    if h != [] { HistoryOfIs(h[..|h| - 1], b); }
  }

  lemma {:induction false} HistoryOfSum(h: seq<History>, g: seq<History>, b: string)
    requires forall i :: 0 <= i < |h| ==> h[i].tenant != b
    requires forall i :: 0 <= i < |g| ==> g[i].tenant == b
    ensures HistoryOf(h + g, b) == g
  {
    if g != [] {
      var n := |g| - 1;
      HistoryOfSum(h, g[..n], b);
      assert (h + g)[..|h + g| - 1] == h + g[..n];
    } else {
      assert h + g == h;
      NoHistoryOf(h, b);
    }
  }

  /** What a tenant's sorted history rows are: its own, stamped, of its own tickets. */
  lemma HistoryWillLoad(cs: Casing, s: Db, m: Db, b: string, created: set<string>, rows: seq<History>)
    requires rows == SortBy(HistoryOf(s.history, b), HistoryKey) && Stamped(cs, s, b) &&
             HistoryRefs(s.history, s.tickets)
    requires forall k :: k in Mine(s.tickets, TicketOwner, b) ==> HasTicket(m, b, k) && k in created
    ensures forall i :: 0 <= i < |rows| ==>
              rows[i].tenant == b && rows[i].createdAt != ZERO_TIME && rows[i].ticket in created &&
              HasTicket(m, b, rows[i].ticket)
  {
    SortBySorts(HistoryOf(s.history, b), HistoryKey);
    HistoryOfIs(s.history, b);
    forall i | 0 <= i < |rows|
      ensures rows[i].tenant == b && rows[i].createdAt != ZERO_TIME && rows[i].ticket in created &&
              HasTicket(m, b, rows[i].ticket)
    {
      assert rows[i] in multiset(rows);
      assert rows[i] in HistoryOf(s.history, b);
    }
  }

  // --------------------------------------------------------- stage by stage

  /** What the theorem assumes: two valid stores, an export of b from one, and nothing of b in the other. */
  ghost predicate Setting(j: Job, s0: Db, s: Db, d: Doc) {
    && Valid(j.cs, s) && Valid(j.cs, s0) && Apart(s0, s, j.target) && Stamped(j.cs, s, j.target)
    && Exports(j.cs, s, j.target, d)
  }

  lemma CatalogueRestored(j: Job, s0: Db, s: Db, d: Doc)
    requires Setting(j, s0, s, d)
    ensures var r, b := Import(j, s0, d), j.target;
            r.rules.db == s0.(tags := s0.tags + Mine(s.tags, TagOwner, b),
                              mailboxes := s0.mailboxes + Mine(s.mailboxes, MailboxOwner, b),
                              rules := s0.rules + Mine(s.rules, RuleOwner, b))
    ensures Import(j, s0, d).tags.skipped == Import(j, s0, d).mailboxes.skipped == Import(j, s0, d).rules.skipped == 0
  {
    hide References, Counted, Lists, Indexed, TagsLoad, MailboxesLoad, RulesLoad, Tags, Mailboxes, Rules,
      TicketRows, LinkRows, Comments, Histories, Attachments, TagStamped, MailboxStamped, RuleStamped,
      TicketStamped, CommentStamped, AttachmentStamped, Added, UniqueName, UniqueAddress, UniqueExternal,
      UniqueMessage, UniqueKey, SortBy, HistoryOf, LinkSet;
    var b, r := j.target, Import(j, s0, d);
    var tags, boxes := Mine(s.tags, TagOwner, b), Mine(s.mailboxes, MailboxOwner, b);
    var rules := Mine(s.rules, RuleOwner, b);
    ListsIndexes(d.tags, tags, TagId, TagKey(j.cs));
    TagsWillLoad(j.cs, s0, s, b, d.tags);
    TagsRestore(j, s0, d.tags);
    AddedIs(s0.tags, d.tags, tags, TagId);
    ListsIndexes(d.mailboxes, boxes, MailboxId, MailboxKey);
    MailboxesWillLoad(j.cs, s0, s, b, d.mailboxes);
    MailboxesRestore(j, r.tags.db, d.mailboxes);
    AddedIs(s0.mailboxes, d.mailboxes, boxes, MailboxId);
    ListsIndexes(d.rules, rules, RuleId, RuleKey);
    RulesWillLoad(s0, s, b, d.rules);
    RulesRestore(j, r.mailboxes.db, d.rules);
    AddedIs(s0.rules, d.rules, rules, RuleId);
  }

  lemma TicketsRestored(j: Job, s0: Db, s: Db, d: Doc)
    requires Setting(j, s0, s, d)
    ensures var r, own := Import(j, s0, d), Mine(s.tickets, TicketOwner, j.target);
            && r.tickets.db == r.rules.db.(tickets := s0.tickets + BareTable(own))
            && r.tickets.skipped == 0
            && forall k :: k in own ==> k in r.tickets.created
  {
    hide Counted, Lists, Indexed, TicketsLoad, Tags, Mailboxes, Rules, TicketRows, LinkRows, Comments, Histories,
      Attachments, TagStamped, MailboxStamped, RuleStamped, TicketStamped, CommentStamped, AttachmentStamped, Added,
      UniqueName, UniqueAddress, UniqueExternal, UniqueMessage, UniqueKey, SortBy, HistoryOf, LinkSet,
      KnownMailboxes, TicketRefs, CommentRefs, AttachmentRefs, LinkRefs, HistoryRefs, Bare, Bares, TicketIds;
    var b, r, own := j.target, Import(j, s0, d), Mine(s.tickets, TicketOwner, j.target);
    CatalogueRestored(j, s0, s, d);
    ListsIndexes(d.tickets, own, TicketId, TicketKey);
    TicketsWillLoad(s0, s, b, r.rules.db.mailboxes, d.tickets);
    TicketsRestore(j, r.rules.db, KnownMailboxes(r.rules.db.mailboxes, b), d.tickets);
    BaresIndexed(d.tickets, own);
    BareKeys(own);
    AddedIs(s0.tickets, Bares(d.tickets), BareTable(own), TicketId);
    forall k | k in own ensures k in r.tickets.created {
      IndexedHas(d.tickets, own, k);
    }
  }

  lemma BareKeys(own: map<string, Ticket>)
    requires forall k :: k in own ==> own[k].id == k
    ensures forall k :: k in BareTable(own) ==> BareTable(own)[k].id == k
  {
  }

  lemma IndexedHas(rows: seq<Ticket>, own: map<string, Ticket>, k: string)
    requires Indexed(rows, own, TicketId) && k in own && own[k].id == k
    ensures k in TicketIds(rows)
  {
    TicketIdsAre(rows);
    var i :| 0 <= i < |rows| && rows[i] == own[k];
  }

  /** After the tickets: b's tickets and tags are there, and no link names one of b's tickets. */
  lemma ReadyForLinks(j: Job, s0: Db, s: Db, d: Doc)
    requires Setting(j, s0, s, d)
    ensures var m, b := Import(j, s0, d).tickets.db, j.target;
            && (forall k :: k in Mine(s.tickets, TicketOwner, b) ==> HasTicket(m, b, k) && k !in m.links)
            && (forall k :: k in Mine(s.tags, TagOwner, b) ==> HasTag(m, b, k))
            && (forall k :: k in m.tickets && m.tickets[k].tenant == b ==> k !in m.links)
            && TicketKeys(m.tickets)
  {
    hide Import, Counted, Exports, Stamped, Uniqueness, TicketRefs, CommentRefs, AttachmentRefs, HistoryRefs;
    CatalogueRestored(j, s0, s, d);
    TicketsRestored(j, s0, s, d);
  }

  lemma LinksRestored(j: Job, s0: Db, s: Db, d: Doc)
    requires Setting(j, s0, s, d)
    ensures var r, b := Import(j, s0, d), j.target;
            && r.links.db == r.tickets.db.(links := r.links.db.links)
            && LinkSet(r.links.db.links, r.tickets.db.tickets, b) == (set l | l in d.links)
            && r.links.skipped == 0
  {
    hide Setting, LinkRows, Order, TagsFor, LinkSet, Tags, Mailboxes, Rules, Tickets, Comments, Histories,
      Attachments;
    var r, b := Import(j, s0, d), j.target;
    ReadyForLinks(j, s0, s, d);
    ExportedLinks(j, s0, s, d);
    LinksWillLoad(s, r.tickets.db, b, d.links);
    LinksRestore(b, r.tickets.db, d.links, Order(d.links));
    forall k | k in Order(d.links) ensures Distinct(TagsFor(d.links, k)) { TagsForDistinct(d.links, k); }
    LinksSkipNone(b, r.tickets.db, d.links, Order(d.links));
    LinkSetRebuilt(s, r.tickets.db, r.links.db.links, b, d.links);
  }

  lemma {:induction false} TagsForDistinct(rows: seq<TagLink>, ticket: string)
    requires Ascending(rows, LinkKey)
    ensures Distinct(TagsFor(rows, ticket))
  {
    if rows != [] {
      var n := |rows| - 1;
      TagsForDistinct(rows[..n], ticket);
      TagsForIs(rows[..n], ticket);
      var before := TagsFor(rows[..n], ticket);
      if rows[n].ticket == ticket {
        forall i | 0 <= i < |before| ensures before[i] != rows[n].tag {
          assert before[i] in before;
          var q :| 0 <= q < n && rows[..n][q].ticket == ticket && rows[..n][q].tag == before[i];
          assert KeyLess(LinkKey(rows[q]), LinkKey(rows[n]));
          KeyLessIsStrict(LinkKey(rows[q]), LinkKey(rows[n]));
        }
      }
    }
  }

  lemma ExportedLinks(j: Job, s0: Db, s: Db, d: Doc)
    requires Setting(j, s0, s, d)
    ensures LinkRefs(s.links, s.tickets, s.tags) && (set l | l in d.links) == LinkSet(s.links, s.tickets, j.target)
    ensures Ascending(d.links, LinkKey)
  {
    hide Apart, Stamped, KeysMatch, Counted, Uniqueness, LinkRefs, LinkSet, Ascending;
  }

  lemma LinkSetRebuilt(s: Db, m: Db, links: map<string, set<string>>, b: string, rows: seq<TagLink>)
    requires (set l | l in rows) == LinkSet(s.links, s.tickets, b)
    requires forall k :: k in m.tickets && m.tickets[k].tenant == b ==> k !in m.links
    requires forall k :: k in Mine(s.tickets, TicketOwner, b) ==> HasTicket(m, b, k)
    requires forall k :: k !in Order(rows) ==>
               (k in links <==> k in m.links) && (k in m.links ==> links[k] == m.links[k])
    requires forall k :: k in Order(rows) ==> k in links && links[k] == set g | g in TagsFor(rows, k)
    ensures LinkSet(links, m.tickets, b) == (set l | l in rows)
  {
    OrderIs(rows);
    forall l | l in rows ensures l in LinkSet(links, m.tickets, b) {
      var i :| 0 <= i < |rows| && rows[i] == l;
      TagsForIs(rows, l.ticket);
      assert l in LinkSet(s.links, s.tickets, b);
      assert l == TagLink(b, l.ticket, l.tag) && HasTicket(m, b, l.ticket);
      assert l.tag in links[l.ticket];
    }
    forall l | l in LinkSet(links, m.tickets, b) ensures l in rows {
      assert l.ticket in Order(rows);
      TagsForIs(rows, l.ticket);
      var i :| 0 <= i < |rows| && rows[i].ticket == l.ticket && rows[i].tag == l.tag;
      assert rows[i] in LinkSet(s.links, s.tickets, b);
    }
  }

  /** Before the children: what each later stage needs of the store so far. */
  lemma BeforeComments(j: Job, s0: Db, s: Db, d: Doc)
    requires Setting(j, s0, s, d)
    ensures var m, b := Import(j, s0, d).links.db, j.target;
            && m.comments == s0.comments && m.history == s0.history && m.attachments == s0.attachments
            && m.tickets == s0.tickets + BareTable(Mine(s.tickets, TicketOwner, b))
            && m.tags == s0.tags + Mine(s.tags, TagOwner, b)
            && m.mailboxes == s0.mailboxes + Mine(s.mailboxes, MailboxOwner, b)
            && m.rules == s0.rules + Mine(s.rules, RuleOwner, b)
            && (forall k :: k in Mine(s.tickets, TicketOwner, b) ==> HasTicket(m, b, k))
            && TicketKeys(m.tickets)
  {
    hide Setting, Import, LinkSet, BareTable, Mine, TicketKeys;
    CatalogueRestored(j, s0, s, d);
    TicketsRestored(j, s0, s, d);
    ReadyForLinks(j, s0, s, d);
    LinksRestored(j, s0, s, d);
  }

  lemma CommentsRestored(j: Job, s0: Db, s: Db, d: Doc)
    requires Setting(j, s0, s, d)
    ensures var r, b := Import(j, s0, d), j.target;
            && r.comments.db == r.links.db.(comments := s0.comments + Mine(s.comments, CommentOwner, b),
                                            tickets := r.comments.db.tickets)
            && AllAlike(r.links.db.tickets, r.comments.db.tickets) && r.comments.skipped == 0
  {
    hide Tags, Mailboxes, Rules, Tickets, Links, Comments, Histories, Attachments, CommentsLoad, Indexed, Lists,
      Added, CommentStamped, TagStamped, MailboxStamped, RuleStamped, TicketStamped, AttachmentStamped, Counted,
      TicketRefs, CommentRefs, AttachmentRefs, LinkRefs, HistoryRefs, UniqueName, UniqueAddress, UniqueExternal,
      UniqueMessage, UniqueKey, SortBy, HistoryOf, LinkSet, TicketKeys, AllAlike;
    var r, b, own := Import(j, s0, d), j.target, Mine(s.comments, CommentOwner, j.target);
    BeforeComments(j, s0, s, d);
    ListsIndexes(d.comments, own, CommentId, CommentKey);
    CommentsWillLoad(s0, s, r.links.db, b, d.comments);
    CommentsRestore(j, r.links.db, d.comments);
    AddedIs(s0.comments, d.comments, own, CommentId);
  }

  lemma TicketsStay(a: Db, e: Db, b: string, k: string)
    requires AllAlike(a.tickets, e.tickets) && HasTicket(a, b, k)
    ensures HasTicket(e, b, k)
  {
    AlikeOwner(a.tickets[k], e.tickets[k]);
  }

  lemma ChildrenRestored(j: Job, s0: Db, s: Db, d: Doc)
    requires Setting(j, s0, s, d)
    ensures var r, b := Import(j, s0, d), j.target;
            && Result(r) == r.comments.db.(history := s0.history + d.history,
                                           attachments := s0.attachments + Mine(s.attachments, AttachmentOwner, b))
            && r.history.skipped == 0 && r.attachments.skipped == 0
  {
    hide Tags, Mailboxes, Rules, Tickets, Links, Comments, Histories, Attachments, AttachmentsLoad, Indexed, Lists,
      Added, CommentStamped, TagStamped, MailboxStamped, RuleStamped, TicketStamped, AttachmentStamped, Counted,
      TicketRefs, CommentRefs, AttachmentRefs, LinkRefs, HistoryRefs, UniqueName, UniqueAddress, UniqueExternal,
      UniqueMessage, UniqueKey, SortBy, HistoryOf, LinkSet, TicketKeys, AllAlike;
    var r, b, own := Import(j, s0, d), j.target, Mine(s.attachments, AttachmentOwner, j.target);
    BeforeComments(j, s0, s, d);
    TicketsRestored(j, s0, s, d);
    CommentsRestored(j, s0, s, d);
    forall k | k in Mine(s.tickets, TicketOwner, b) ensures HasTicket(r.comments.db, b, k) {
      TicketsStay(r.links.db, r.comments.db, b, k);
    }
    HistoryWillLoad(j.cs, s, r.comments.db, b, r.tickets.created, d.history);
    HistoriesRestore(j, r.comments.db, r.tickets.created, d.history);
    ListsIndexes(d.attachments, own, AttachmentId, AttachmentKeyOf);
    AttachmentsWillLoad(s0, s, r.history.db, b, d.attachments);
    AttachmentsRestore(j, r.history.db, d.attachments);
    AddedIs(s0.attachments, d.attachments, own, AttachmentId);
  }

  // ------------------------------------------------------------- the theorem

  /** A ticket without the two fields its comments rebuild. */
  function Strip(t: Ticket): Ticket { t.(lastMessage := "", updatedAt := ZERO_TIME) }

  ghost predicate SameExport(d: Doc, e: Doc) {
    && e.tags == d.tags && e.mailboxes == d.mailboxes && e.rules == d.rules && e.links == d.links
    && e.comments == d.comments && e.history == d.history && e.attachments == d.attachments
    && |e.tickets| == |d.tickets|
    && forall i :: 0 <= i < |d.tickets| ==> Strip(e.tickets[i]) == Strip(d.tickets[i])
  }

  /** Two listings by id of tables that agree on the stripped rows. */
  lemma TicketListings(x: seq<Ticket>, y: seq<Ticket>, a: map<string, Ticket>, e: map<string, Ticket>)
    requires Lists(x, a.Values, TicketKey) && Lists(y, e.Values, TicketKey)
    requires a.Keys == e.Keys && forall k :: k in a ==> Strip(a[k]) == Strip(e[k])
    ensures |x| == |y| && forall i :: 0 <= i < |x| ==> Strip(x[i]) == Strip(y[i])
  {
    var sx := seq(|x|, i requires 0 <= i < |x| => Strip(x[i]));
    var sy := seq(|y|, i requires 0 <= i < |y| => Strip(y[i]));
    StripLists(x, sx, a);
    StripLists(y, sy, e);
    assert (set k | k in a :: Strip(a[k])) == (set k | k in e :: Strip(e[k]));
    ListsUnique(sx, sy, set k | k in a :: Strip(a[k]), TicketKey);
    forall i | 0 <= i < |x| ensures Strip(x[i]) == Strip(y[i]) {
      assert sx[i] == sy[i];
    }
  }

  lemma StripLists(x: seq<Ticket>, sx: seq<Ticket>, a: map<string, Ticket>)
    requires Lists(x, a.Values, TicketKey) && |sx| == |x| && forall i :: 0 <= i < |x| ==> sx[i] == Strip(x[i])
    ensures Lists(sx, set k | k in a :: Strip(a[k]), TicketKey)
  {
    forall t | t in sx ensures t in set k | k in a :: Strip(a[k]) {
      var i :| 0 <= i < |sx| && sx[i] == t;
      assert x[i] in a.Values;
      var k :| k in a && a[k] == x[i];
    }
    forall k | k in a ensures Strip(a[k]) in sx {
      assert a[k] in a.Values;
      var i :| 0 <= i < |x| && x[i] == a[k];
      assert sx[i] == Strip(a[k]);
    }
    assert (set t | t in sx) == set k | k in a :: Strip(a[k]);
  }

  /** The counter a load rebuilds is the one that was exported. */
  lemma CountRebuilt(s0: Db, s: Db, e: Db, b: string, k: string)
    requires Counted(s.tickets, s.comments) && Counted(e.tickets, e.comments)
    requires CommentRefs(s.comments, s.tickets) && CommentRefs(s0.comments, s0.tickets)
    requires k in s.tickets && s.tickets[k].tenant == b && k in e.tickets && k !in s0.tickets
    requires e.comments == s0.comments + Mine(s.comments, CommentOwner, b)
    ensures e.tickets[k].commentCount == s.tickets[k].commentCount
  {
    assert CommentsOn(e.comments, k) == CommentsOn(s.comments, k);
  }

  lemma TicketsComeBack(s0: Db, s: Db, e: Db, b: string)
    requires Free(s0.tickets, Mine(s.tickets, TicketOwner, b), TicketOwner, b)
    requires AllAlike(s0.tickets + BareTable(Mine(s.tickets, TicketOwner, b)), e.tickets)
    requires Counted(s.tickets, s.comments) && Counted(e.tickets, e.comments)
    requires CommentRefs(s.comments, s.tickets) && CommentRefs(s0.comments, s0.tickets)
    requires e.comments == s0.comments + Mine(s.comments, CommentOwner, b)
    ensures Mine(e.tickets, TicketOwner, b).Keys == Mine(s.tickets, TicketOwner, b).Keys
    ensures forall k :: k in Mine(s.tickets, TicketOwner, b) ==>
              k in e.tickets && Strip(s.tickets[k]) == Strip(e.tickets[k])
  {
    hide Counted, CommentRefs;
    var own := Mine(s.tickets, TicketOwner, b);
    var loaded := s0.tickets + BareTable(own);
    forall k | k in own ensures k in e.tickets && Strip(s.tickets[k]) == Strip(e.tickets[k]) {
      assert loaded[k] == Bare(own[k]);
      assert Alike(loaded[k], e.tickets[k]);
      CountRebuilt(s0, s, e, b, k);
    }
    forall k | k in e.tickets ensures (e.tickets[k].tenant == b) == (k in own) {
      AlikeOwner(loaded[k], e.tickets[k]);
    }
  }

  lemma NoneOfB(s0: Db, b: string)
    requires HistoryRefs(s0.history, s0.tickets) && forall k :: k in s0.tickets ==> s0.tickets[k].tenant != b
    ensures forall i :: 0 <= i < |s0.history| ==> s0.history[i].tenant != b
  {
  }

  /** The tables of b in the restored store are the tables that were exported. */
  lemma TablesComeBack(j: Job, s0: Db, s: Db, d: Doc)
    requires Setting(j, s0, s, d)
    ensures var e, b := Result(Import(j, s0, d)), j.target;
            && Mine(e.tags, TagOwner, b) == Mine(s.tags, TagOwner, b)
            && Mine(e.mailboxes, MailboxOwner, b) == Mine(s.mailboxes, MailboxOwner, b)
            && Mine(e.rules, RuleOwner, b) == Mine(s.rules, RuleOwner, b)
            && Mine(e.comments, CommentOwner, b) == Mine(s.comments, CommentOwner, b)
            && Mine(e.attachments, AttachmentOwner, b) == Mine(s.attachments, AttachmentOwner, b)
  {
    var e, b := Result(Import(j, s0, d)), j.target;
    BeforeComments(j, s0, s, d);
    CommentsRestored(j, s0, s, d);
    ChildrenRestored(j, s0, s, d);
    hide Import, Valid, Stamped, Exports, BareTable, TicketKeys, AllAlike;
    MineAdded(s0.tags, Mine(s.tags, TagOwner, b), TagOwner, b);
    MineAdded(s0.mailboxes, Mine(s.mailboxes, MailboxOwner, b), MailboxOwner, b);
    MineAdded(s0.rules, Mine(s.rules, RuleOwner, b), RuleOwner, b);
    MineAdded(s0.comments, Mine(s.comments, CommentOwner, b), CommentOwner, b);
    MineAdded(s0.attachments, Mine(s.attachments, AttachmentOwner, b), AttachmentOwner, b);
  }

  lemma ExportedCommentIds(j: Job, s0: Db, s: Db, d: Doc)
    requires Setting(j, s0, s, d)
    ensures forall i :: 0 <= i < |d.comments| ==> d.comments[i].id != ""
  {
    hide Apart, Stamped, References, Counted, Uniqueness, Ascending, SortBy, HistoryOf, LinkSet;
    forall i | 0 <= i < |d.comments| ensures d.comments[i].id != "" {
      assert d.comments[i] in Mine(s.comments, CommentOwner, j.target).Values;
    }
  }

  lemma LinkSetAlike(links: map<string, set<string>>, a: map<string, Ticket>, e: map<string, Ticket>, b: string)
    requires AllAlike(a, e)
    ensures LinkSet(links, e, b) == LinkSet(links, a, b)
  {
    forall k | k in a ensures a[k].tenant == e[k].tenant { AlikeOwner(a[k], e[k]); }
    hide Alike;
  }

  lemma LinksComeBack(j: Job, s0: Db, s: Db, d: Doc)
    requires Setting(j, s0, s, d)
    ensures var e := Result(Import(j, s0, d)); LinkSet(e.links, e.tickets, j.target) == (set l | l in d.links)
  {
    hide Setting, Import, LinkSet, BareTable, Mine, TicketKeys, AllAlike;
    var r := Import(j, s0, d);
    LinksRestored(j, s0, s, d);
    CommentsRestored(j, s0, s, d);
    ChildrenRestored(j, s0, s, d);
    LinkSetAlike(r.links.db.links, r.links.db.tickets, r.comments.db.tickets, j.target);
  }

  lemma HistoryComesBack(j: Job, s0: Db, s: Db, d: Doc)
    requires Setting(j, s0, s, d)
    ensures SortBy(HistoryOf(Result(Import(j, s0, d)).history, j.target), HistoryKey) == d.history
  {
    ChildrenRestored(j, s0, s, d);
    hide Import, Counted, TicketRefs, CommentRefs, AttachmentRefs, LinkRefs, Uniqueness, KeysMatch, Lists, Stamped,
      HistoryOf, SortBy;
    NoneOfB(s0, j.target);
    HistoryOfIs(s.history, j.target);
    SortBySorts(HistoryOf(s.history, j.target), HistoryKey);
    forall i | 0 <= i < |d.history| ensures d.history[i].tenant == j.target {
      assert d.history[i] in multiset(d.history);
      assert d.history[i] in HistoryOf(s.history, j.target);
    }
    HistoryOfSum(s0.history, d.history, j.target);
    SortBySorted(d.history, HistoryKey);
  }

  lemma TicketRowsComeBack(j: Job, s0: Db, s: Db, d: Doc)
    requires Setting(j, s0, s, d)
    ensures var e, b := Result(Import(j, s0, d)), j.target;
            && Mine(e.tickets, TicketOwner, b).Keys == Mine(s.tickets, TicketOwner, b).Keys
            && forall k :: k in Mine(s.tickets, TicketOwner, b) ==>
              k in e.tickets && Strip(s.tickets[k]) == Strip(e.tickets[k])
  {
    var e, b := Result(Import(j, s0, d)), j.target;
    BeforeComments(j, s0, s, d);
    CommentsRestored(j, s0, s, d);
    ChildrenRestored(j, s0, s, d);
    ExportedCommentIds(j, s0, s, d);
    hide Import, Exports, Stamped, Uniqueness, KeysMatch, TicketRefs, AttachmentRefs, LinkRefs, HistoryRefs,
      CommentRefs, Counted, AllAlike, BareTable, Mine, TicketKeys, Strip;
    ImportConfined(j, s0, d);
    ConfinedValid(j.cs, b, s0, e);
    TicketsComeBack(s0, s, e, b);
  }

  /**
   * The round trip: load the export of a tenant into a store that holds nothing of it, export again, and
   * the document is the same in every collection and every row, but for the two ticket fields that the
   * comments rebuild. Comment counts come back exact. No row is skipped.
   */
  lemma ExportRoundTrip(j: Job, s0: Db, s: Db, d: Doc, again: Doc)
    requires Setting(j, s0, s, d) && Exports(j.cs, Result(Import(j, s0, d)), j.target, again)
    ensures SameExport(d, again)
    ensures var r := Import(j, s0, d);
            r.tags.skipped == 0 && r.mailboxes.skipped == 0 && r.rules.skipped == 0 && r.tickets.skipped == 0 &&
            r.links.skipped == 0 && r.comments.skipped == 0 && r.history.skipped == 0 && r.attachments.skipped == 0
  {
    LinksRestored(j, s0, s, d);
    var e, b := Result(Import(j, s0, d)), j.target;
    CatalogueRestored(j, s0, s, d);
    TicketsRestored(j, s0, s, d);
    CommentsRestored(j, s0, s, d);
    ChildrenRestored(j, s0, s, d);
    TablesComeBack(j, s0, s, d);
    LinksComeBack(j, s0, s, d);
    HistoryComesBack(j, s0, s, d);
    TicketRowsComeBack(j, s0, s, d);
    ExportedLinks(j, s0, s, d);
    assert Exports(j.cs, s, b, d);
    hide Setting, Import, Lists, Mine, SortBy, HistoryOf, LinkSet, BareTable, AllAlike;
    ListsUnique(d.tags, again.tags, Mine(s.tags, TagOwner, b).Values, TagKey(j.cs));
    ListsUnique(d.mailboxes, again.mailboxes, Mine(s.mailboxes, MailboxOwner, b).Values, MailboxKey);
    ListsUnique(d.rules, again.rules, Mine(s.rules, RuleOwner, b).Values, RuleKey);
    ListsUnique(d.links, again.links, LinkSet(s.links, s.tickets, b), LinkKey);
    ListsUnique(d.comments, again.comments, Mine(s.comments, CommentOwner, b).Values, CommentKey);
    ListsUnique(d.attachments, again.attachments, Mine(s.attachments, AttachmentOwner, b).Values, AttachmentKeyOf);
    MineRow(s.tickets, TicketOwner, b);
    MineRow(e.tickets, TicketOwner, b);
    TicketListings(d.tickets, again.tickets, Mine(s.tickets, TicketOwner, b), Mine(e.tickets, TicketOwner, b));
  }

  lemma MineRow<V>(m: map<string, V>, owner: V -> string, b: string)
    ensures forall k :: k in Mine(m, owner, b) ==> k in m && Mine(m, owner, b)[k] == m[k]
  {
  }

  lemma EmptyIsApart(s: Db, b: string)
    ensures Apart(EMPTY, s, b)
  {
    hide Mine;
  }

  /** Restoring into a new, empty store. */
  lemma RestoreIntoEmpty(j: Job, s: Db, d: Doc, again: Doc)
    requires Valid(j.cs, s) && Stamped(j.cs, s, j.target) && Exports(j.cs, s, j.target, d)
    requires Exports(j.cs, Result(Import(j, EMPTY, d)), j.target, again)
    ensures SameExport(d, again)
  {
    hide Import, Valid, Stamped, Exports, Apart, SameExport;
    EmptyIsValid(j.cs);
    EmptyIsApart(s, j.target);
    ExportRoundTrip(j, EMPTY, s, d, again);
  }

  lemma WipedTable<V>(m: map<string, V>, e: map<string, V>, owner: V -> string, b: string)
    requires Mine(e, owner, b) == map[] && forall c :: c != b ==> Mine(e, owner, c) == Mine(m, owner, c)
    ensures Free(e, Mine(m, owner, b), owner, b)
    ensures forall k :: k in e ==> k in m && e[k] == m[k]
  {
    forall k | k in e ensures owner(e[k]) != b && k in m && e[k] == m[k] {
      assert k in Mine(e, owner, owner(e[k]));
      assert k in Mine(m, owner, owner(e[k]));
    }
  }

  lemma SlicesAgree(cs: Casing, b: string, s: Db, e: Db, c: string)
    requires Confined(cs, b, s, e) && c != b
    ensures Of(e, c) == Of(s, c)
  {
    hide Of, Valid;
  }

  /** A store wiped of b is apart from b, whatever the other tenants hold. */
  lemma WipedIsApart(cs: Casing, s: Db, b: string, e: Db)
    requires Valid(cs, s) && Confined(cs, b, s, e) && Of(e, b) == NOTHING
    ensures Apart(e, s, b)
  {
    hide Confined, Mine, LinksOf, HistoryOf, References, Counted, KeysMatch, UniqueName, UniqueExternal,
      UniqueMessage, Free;
    forall c | c != b
      ensures Mine(e.tags, TagOwner, c) == Mine(s.tags, TagOwner, c)
      ensures Mine(e.mailboxes, MailboxOwner, c) == Mine(s.mailboxes, MailboxOwner, c)
      ensures Mine(e.rules, RuleOwner, c) == Mine(s.rules, RuleOwner, c)
      ensures Mine(e.tickets, TicketOwner, c) == Mine(s.tickets, TicketOwner, c)
      ensures Mine(e.comments, CommentOwner, c) == Mine(s.comments, CommentOwner, c)
      ensures Mine(e.attachments, AttachmentOwner, c) == Mine(s.attachments, AttachmentOwner, c)
    {
      SlicesAgree(cs, b, s, e, c);
    }
    WipedTable(s.tags, e.tags, TagOwner, b);
    WipedTable(s.mailboxes, e.mailboxes, MailboxOwner, b);
    WipedTable(s.rules, e.rules, RuleOwner, b);
    WipedTable(s.tickets, e.tickets, TicketOwner, b);
    WipedTable(s.comments, e.comments, CommentOwner, b);
    WipedTable(s.attachments, e.attachments, AttachmentOwner, b);
    FreeKeys(e.mailboxes, s.mailboxes, MailboxOwner, b);
    FreeKeys(e.attachments, s.attachments, AttachmentOwner, b);
  }

  lemma FreeKeys<V>(e: map<string, V>, m: map<string, V>, owner: V -> string, b: string)
    requires Free(e, Mine(m, owner, b), owner, b)
    ensures forall i, k :: i in e && k in Mine(m, owner, b) ==> i != k && k in m
  {
  }

  /** A full restore: wipe the tenant, load its export back, and the export is the same again. */
  lemma FullRestore(j: Job, s: Db, v: Inventory, d: Doc, again: Doc)
    requires Valid(j.cs, s) && Stamped(j.cs, s, j.target) && Exports(j.cs, s, j.target, d) && Complete(s, j.target, v)
    requires Exports(j.cs, Result(Import(j, Wipe(s, j.target, v), d)), j.target, again)
    ensures SameExport(d, again)
  {
    hide Import, Valid, Stamped, Exports, Apart, SameExport, Wipe, Of, Confined, Complete;
    var e := Wipe(s, j.target, v);
    WipeEmpties(j.cs, s, j.target, v);
    ConfinedValid(j.cs, j.target, s, e);
    WipedIsApart(j.cs, s, j.target, e);
    ExportRoundTrip(j, e, s, d, again);
  }
}
