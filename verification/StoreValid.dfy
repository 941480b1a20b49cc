/**
 * Referential integrity, uniqueness and the denormalised comment counter of the tenant store, and the
 * proof that every operation keeps them.
 */
module StoreValid {
  import opened Rows
  import opened Text
  import opened Store

  // Each predicate reads only the tables it talks about, so an operation that leaves those tables alone
  // leaves it alone.

  predicate KeysMatch(s: Db) {
    && (forall k :: k in s.tickets ==> s.tickets[k].id == k)
    && (forall k :: k in s.comments ==> s.comments[k].id == k && k != "")
    && (forall k :: k in s.attachments ==> s.attachments[k].id == k)
    && (forall k :: k in s.tags ==> s.tags[k].id == k)
    && (forall k :: k in s.rules ==> s.rules[k].id == k)
    && (forall k :: k in s.mailboxes ==> s.mailboxes[k].id == k)
  }

  predicate TicketRefs(tickets: map<string, Ticket>, mailboxes: map<string, Mailbox>) {
    forall k :: k in tickets ==>
      tickets[k].mailbox == "" || MailboxKnown(mailboxes, tickets[k].tenant, tickets[k].mailbox)
  }

  predicate CommentRefs(comments: map<string, Comment>, tickets: map<string, Ticket>) {
    forall k :: k in comments ==>
      comments[k].ticket in tickets && tickets[comments[k].ticket].tenant == comments[k].tenant
  }

  predicate AttachmentRefs(attachments: map<string, Attachment>, comments: map<string, Comment>,
                           tickets: map<string, Ticket>)
  {
    forall k :: k in attachments ==>
      && attachments[k].ticket in tickets && tickets[attachments[k].ticket].tenant == attachments[k].tenant
      && (attachments[k].comment == "" || CommentMatches(comments, attachments[k]))
  }

  predicate LinkRefs(links: map<string, set<string>>, tickets: map<string, Ticket>, tags: map<string, Tag>) {
    forall k :: k in links ==>
      k in tickets && forall g :: g in links[k] ==> g in tags && tags[g].tenant == tickets[k].tenant
  }

  predicate HistoryRefs(history: seq<History>, tickets: map<string, Ticket>) {
    forall i :: 0 <= i < |history| ==>
      history[i].ticket in tickets && tickets[history[i].ticket].tenant == history[i].tenant
  }

  predicate UniqueExternal(tickets: map<string, Ticket>) {
    forall j, k | j in tickets && k in tickets && tickets[j].tenant == tickets[k].tenant &&
                  tickets[j].externalId == tickets[k].externalId && tickets[j].externalId != "" :: j == k
  }

  predicate UniqueMessage(comments: map<string, Comment>) {
    forall j, k | j in comments && k in comments && comments[j].tenant == comments[k].tenant &&
                  comments[j].messageId == comments[k].messageId && comments[j].messageId != "" :: j == k
  }

  predicate UniqueName(cs: Casing, tags: map<string, Tag>) {
    forall j, k | j in tags && k in tags && tags[j].tenant == tags[k].tenant && tags[j].kind == tags[k].kind &&
                  cs.fold(tags[j].name) == cs.fold(tags[k].name) :: j == k
  }

  predicate UniqueAddress(mailboxes: map<string, Mailbox>) {
    forall j, k :: j in mailboxes && k in mailboxes && mailboxes[j].address == mailboxes[k].address ==> j == k
  }

  predicate UniqueKey(attachments: map<string, Attachment>) {
    forall j, k | j in attachments && k in attachments &&
                  attachments[j].storageKey == attachments[k].storageKey :: j == k
  }

  function CommentsOn(comments: map<string, Comment>, ticket: string): set<string> {
    set k | k in comments && comments[k].ticket == ticket
  }

  predicate Counted(tickets: map<string, Ticket>, comments: map<string, Comment>) {
    forall k :: k in tickets ==> tickets[k].commentCount == |CommentsOn(comments, k)|
  }

  predicate References(s: Db) {
    && TicketRefs(s.tickets, s.mailboxes)
    && CommentRefs(s.comments, s.tickets)
    && AttachmentRefs(s.attachments, s.comments, s.tickets)
    && LinkRefs(s.links, s.tickets, s.tags)
    && HistoryRefs(s.history, s.tickets)
  }

  predicate Uniqueness(cs: Casing, s: Db) {
    && UniqueExternal(s.tickets)
    && UniqueMessage(s.comments)
    && UniqueName(cs, s.tags)
    && UniqueAddress(s.mailboxes)
    && UniqueKey(s.attachments)
  }

  predicate Valid(cs: Casing, s: Db) {
    KeysMatch(s) && References(s) && Uniqueness(cs, s) && Counted(s.tickets, s.comments)
  }

  /**
   * What the services guarantee of the rows they create: a ticket starts without comments, a comment has
   * an id. The store itself checks neither.
   */
  predicate Fits(op: Op) {
    && (op.OpCreateTicket? ==> op.t.commentCount == 0)
    && (op.OpCreateComment? ==> op.c.id != "")
  }

  // ---------------------------------------------------------- one table at a time

  /** No ticket disappears and none changes hands. */
  predicate OwnersKept(a: map<string, Ticket>, b: map<string, Ticket>) {
    forall k :: k in a ==> k in b && b[k].tenant == a[k].tenant
  }

  /** Then every child row still resolves. */
  lemma ChildrenFollow(s: Db, b: map<string, Ticket>)
    requires References(s) && OwnersKept(s.tickets, b)
    ensures CommentRefs(s.comments, b) && AttachmentRefs(s.attachments, s.comments, b)
    ensures LinkRefs(s.links, b, s.tags) && HistoryRefs(s.history, b)
  {
    hide TicketRefs, CommentMatches;
  }

  /** Ticket rows rewritten in place, with mailboxes that may have changed too. */
  predicate SameTickets(a: map<string, Ticket>, b: map<string, Ticket>) {
    a.Keys == b.Keys && forall k :: k in a ==>
      b[k].id == a[k].id && b[k].tenant == a[k].tenant && b[k].externalId == a[k].externalId &&
      b[k].commentCount == a[k].commentCount
  }

  lemma TicketRowsRewritten(cs: Casing, s: Db, b: map<string, Ticket>, mailboxes: map<string, Mailbox>)
    requires Valid(cs, s) && SameTickets(s.tickets, b)
    requires TicketRefs(b, mailboxes) && UniqueAddress(mailboxes)
    requires forall k :: k in mailboxes ==> mailboxes[k].id == k
    ensures Valid(cs, s.(tickets := b, mailboxes := mailboxes))
  {
    ChildrenFollow(s, b);
    hide CommentRefs, AttachmentRefs, LinkRefs, HistoryRefs, UniqueName, UniqueKey, UniqueMessage, TicketRefs;
  }

  lemma TicketRewritten(cs: Casing, s: Db, id: string, t: Ticket)
    requires Valid(cs, s) && id in s.tickets
    requires t.id == id && t.tenant == s.tickets[id].tenant && t.externalId == s.tickets[id].externalId &&
             t.mailbox == s.tickets[id].mailbox && t.commentCount == s.tickets[id].commentCount
    ensures Valid(cs, s.(tickets := s.tickets[id := t]))
  {
    hide CommentRefs, AttachmentRefs, LinkRefs, HistoryRefs, UniqueName, UniqueKey, UniqueMessage, UniqueExternal,
      Counted;
    TicketRowsRewritten(cs, s, s.tickets[id := t], s.mailboxes);
    assert s.(tickets := s.tickets[id := t]) == s.(tickets := s.tickets[id := t], mailboxes := s.mailboxes);
  }

  ghost predicate Within<V>(a: map<string, V>, b: map<string, V>) {
    forall k :: k in a ==> k in b && a[k] == b[k]
  }

  /** Removing rows breaks no uniqueness. */
  lemma UniquenessShrinks(cs: Casing, s: Db, r: Db)
    requires Uniqueness(cs, s)
    requires Within(r.tickets, s.tickets) && Within(r.comments, s.comments) && Within(r.attachments, s.attachments)
    requires r.tags == s.tags && r.mailboxes == s.mailboxes
    ensures Uniqueness(cs, r)
  {
    hide UniqueName, UniqueAddress;
  }

  // ------------------------------------------------------------- the operations

  /** Whether a create keeps the store valid is decided by the counter it brings. */
  lemma CreateTicketKeepsValid(cs: Casing, s: Db, t: Ticket, now: Time)
    requires Valid(cs, s)
    ensures Valid(cs, CreateTicket(s, t, now).db) <==>
            CreateTicket(s, t, now).out != Done || t.commentCount == 0
  {
    hide UniqueName, UniqueKey, UniqueMessage, UniqueAddress, LinkRefs, HistoryRefs, AttachmentRefs, UniqueExternal,
      ExternalTaken, CommentRefs, TicketRefs, Counted, MailboxKnown;
    var r := CreateTicket(s, t, now);
    if r.out == Done {
      ChildrenFollow(s, r.db.tickets);
      TicketAddedUnique(s.tickets, r.db.tickets[t.id]);
      TicketAddedRouted(s.tickets, s.mailboxes, r.db.tickets[t.id]);
      TicketAddedCounted(s, r.db.tickets[t.id]);
    }
  }

  lemma TicketAddedRouted(tickets: map<string, Ticket>, mailboxes: map<string, Mailbox>, t: Ticket)
    requires TicketRefs(tickets, mailboxes) && (t.mailbox == "" || MailboxKnown(mailboxes, t.tenant, t.mailbox))
    ensures TicketRefs(tickets[t.id := t], mailboxes)
  {
  }

  lemma TicketAddedCounted(s: Db, t: Ticket)
    requires Counted(s.tickets, s.comments) && CommentRefs(s.comments, s.tickets) && t.id !in s.tickets
    ensures Counted(s.tickets[t.id := t], s.comments) <==> t.commentCount == 0
  {
    assert CommentsOn(s.comments, t.id) == {};
    hide CommentsOn, CommentRefs;
    assert s.tickets[t.id := t][t.id].commentCount == t.commentCount;
  }

  lemma TicketAddedUnique(tickets: map<string, Ticket>, t: Ticket)
    requires UniqueExternal(tickets) && t.id !in tickets
    requires t.externalId == "" || !ExternalTaken(tickets, t.tenant, t.externalId)
    ensures UniqueExternal(tickets[t.id := t])
  {
  }

  lemma DeleteTicketKeepsValid(cs: Casing, s: Db, tenant: string, id: string)
    requires Valid(cs, s)
    ensures Valid(cs, DeleteTicket(s, tenant, id).db)
  {
    hide References, Uniqueness, Counted;
    DeleteTicketKeepsReferences(s, tenant, id);
    DeleteTicketKeepsCount(s, tenant, id);
    UniquenessShrinks(cs, s, DeleteTicket(s, tenant, id).db);
  }

  lemma DeleteTicketKeepsCount(s: Db, tenant: string, id: string)
    requires Counted(s.tickets, s.comments)
    ensures Counted(DeleteTicket(s, tenant, id).db.tickets, DeleteTicket(s, tenant, id).db.comments)
  {
    var r := DeleteTicket(s, tenant, id).db;
    forall k | k in r.tickets ensures CommentsOn(r.comments, k) == CommentsOn(s.comments, k) {}
  }

  lemma DeleteTicketKeepsReferences(s: Db, tenant: string, id: string)
    requires References(s)
    ensures References(DeleteTicket(s, tenant, id).db)
  {
    if HasTicket(s, tenant, id) { HistoryWithoutIs(s.history, id); }
  }

  /** What the history filter keeps. */
  lemma {:induction false} HistoryWithoutIs(h: seq<History>, ticket: string)
    ensures forall i :: 0 <= i < |HistoryWithout(h, ticket)| ==>
              HistoryWithout(h, ticket)[i] in h && HistoryWithout(h, ticket)[i].ticket != ticket
  {
    if h != [] { HistoryWithoutIs(h[..|h| - 1], ticket); }
  }

  /** Likewise for comments: the store accepts an empty id, which validity rules out. */
  lemma CreateCommentKeepsValid(cs: Casing, s: Db, c: Comment, now: Time)
    requires Valid(cs, s)
    ensures Valid(cs, CreateComment(s, c, now).db) <==> CreateComment(s, c, now).out != Done || c.id != ""
  {
    hide References, Uniqueness, Counted;
    var r := CreateComment(s, c, now);
    CreateCommentKeepsReferences(s, c, now);
    CreateCommentKeepsUnique(cs, s, c, now);
    CreateCommentKeepsCount(s, c, now);
    if r.out == Done {
      assert c.id == "" ==> r.db.comments[c.id].id == "";
    }
  }

  lemma CreateCommentKeepsReferences(s: Db, c: Comment, now: Time)
    requires References(s) && (c.ticket in s.tickets ==> s.tickets[c.ticket].id == c.ticket)
    ensures References(CreateComment(s, c, now).db)
  {
    hide LinkRefs, HistoryRefs;
    var r := CreateComment(s, c, now);
    if r.out == Done {
      ChildrenFollow(s, r.db.tickets);
      assert AttachmentRefs(s.attachments, r.db.comments, r.db.tickets) by { hide TicketRefs, CommentRefs; }
      hide AttachmentRefs;
    }
  }

  lemma CreateCommentKeepsUnique(cs: Casing, s: Db, c: Comment, now: Time)
    requires Uniqueness(cs, s) && KeysMatch(s)
    ensures Uniqueness(cs, CreateComment(s, c, now).db)
  {
    hide UniqueName, UniqueAddress, UniqueKey;
  }

  lemma CreateCommentKeepsCount(s: Db, c: Comment, now: Time)
    requires Counted(s.tickets, s.comments) && (c.ticket in s.tickets ==> s.tickets[c.ticket].id == c.ticket)
    ensures Counted(CreateComment(s, c, now).db.tickets, CreateComment(s, c, now).db.comments)
  {
    var r := CreateComment(s, c, now);
    if r.out == Done {
      assert CommentsOn(r.db.comments, c.ticket) == CommentsOn(s.comments, c.ticket) + {c.id};
      forall k | k in s.tickets && k != c.ticket
        ensures CommentsOn(r.db.comments, k) == CommentsOn(s.comments, k) {}
    }
  }

  lemma DeleteCommentKeepsValid(cs: Casing, s: Db, tenant: string, id: string)
    requires Valid(cs, s)
    ensures Valid(cs, DeleteComment(s, tenant, id).db)
    // The guard on the counter never fires: the ticket is there and its counter is positive.
    ensures DeleteComment(s, tenant, id).out == Done ==>
              s.comments[id].ticket in s.tickets && s.tickets[s.comments[id].ticket].commentCount > 0
  {
    hide Uniqueness, Counted, AttachmentRefs, LinkRefs, HistoryRefs, TicketRefs;
    if HasComment(s, tenant, id) {
      DeleteCommentKeepsReferences(s, tenant, id);
      DeleteCommentKeepsUnique(cs, s, tenant, id);
      DeleteCommentKeepsCount(s, tenant, id);
      hide References;
    }
  }

  lemma DeleteCommentKeepsReferences(s: Db, tenant: string, id: string)
    requires References(s) && (forall k :: k in s.tickets ==> s.tickets[k].id == k)
    ensures References(DeleteComment(s, tenant, id).db)
  {
    hide LinkRefs, HistoryRefs;
    var r := DeleteComment(s, tenant, id);
    if r.out == Done {
      ChildrenFollow(s, r.db.tickets);
      assert AttachmentRefs(r.db.attachments, r.db.comments, r.db.tickets) by { hide TicketRefs, CommentRefs; }
      hide AttachmentRefs;
    }
  }

  lemma DeleteCommentKeepsUnique(cs: Casing, s: Db, tenant: string, id: string)
    requires Uniqueness(cs, s) && KeysMatch(s)
    ensures Uniqueness(cs, DeleteComment(s, tenant, id).db)
  {
    hide UniqueName, UniqueAddress;
  }

  lemma DeleteCommentKeepsCount(s: Db, tenant: string, id: string)
    requires Counted(s.tickets, s.comments) && CommentRefs(s.comments, s.tickets)
    requires HasComment(s, tenant, id) && s.tickets[s.comments[id].ticket].id == s.comments[id].ticket
    ensures s.comments[id].ticket in s.tickets && s.tickets[s.comments[id].ticket].commentCount > 0
    ensures Counted(DeleteComment(s, tenant, id).db.tickets, DeleteComment(s, tenant, id).db.comments)
  {
    var r := DeleteComment(s, tenant, id).db;
    var tid := s.comments[id].ticket;
    assert id in CommentsOn(s.comments, tid);
    assert CommentsOn(r.comments, tid) == CommentsOn(s.comments, tid) - {id};
    forall k | k in s.tickets && k != tid ensures CommentsOn(r.comments, k) == CommentsOn(s.comments, k) {}
  }

  lemma SetDeliveryKeepsValid(cs: Casing, s: Db, tenant: string, id: string, delivery: string)
    requires Valid(cs, s)
    ensures Valid(cs, SetDelivery(s, tenant, id, delivery).db)
  {
    hide UniqueName, UniqueAddress, UniqueKey, UniqueExternal, LinkRefs, HistoryRefs, TicketRefs, Counted,
      CommentRefs, AttachmentRefs, UniqueMessage;
    if HasComment(s, tenant, id) {
      CommentRewritten(s.tickets, s.comments, id, s.comments[id].(delivery := delivery));
      CommentStillLinked(s, id, s.comments[id].(delivery := delivery));
    }
  }

  lemma CommentStillLinked(s: Db, id: string, c: Comment)
    requires CommentRefs(s.comments, s.tickets) && AttachmentRefs(s.attachments, s.comments, s.tickets) &&
             UniqueMessage(s.comments)
    requires id in s.comments && c == s.comments[id].(delivery := c.delivery)
    ensures var cs := s.comments[id := c];
            CommentRefs(cs, s.tickets) && AttachmentRefs(s.attachments, cs, s.tickets) && UniqueMessage(cs)
  {
  }

  lemma CommentRewritten(tickets: map<string, Ticket>, comments: map<string, Comment>, id: string, c: Comment)
    requires Counted(tickets, comments) && id in comments && c.ticket == comments[id].ticket
    ensures Counted(tickets, comments[id := c])
  {
    forall k | k in tickets ensures CommentsOn(comments[id := c], k) == CommentsOn(comments, k) {}
  }

  lemma DeleteMailboxKeepsValid(cs: Casing, s: Db, tenant: string, id: string, force: bool)
    requires Valid(cs, s)
    ensures Valid(cs, DeleteMailbox(s, tenant, id, force).db)
  {
    hide CommentRefs, AttachmentRefs, LinkRefs, HistoryRefs, UniqueName, UniqueKey, UniqueMessage, UniqueExternal,
      Counted;
    var r := DeleteMailbox(s, tenant, id, force);
    if r.out == Done {
      UnroutedRefs(s.tickets, s.mailboxes, id);
      hide TicketRefs, SameTickets, Unrouted;
      TicketRowsRewritten(cs, s, r.db.tickets, r.db.mailboxes);
    }
  }

  lemma UnroutedRefs(tickets: map<string, Ticket>, mailboxes: map<string, Mailbox>, id: string)
    requires TicketRefs(tickets, mailboxes)
    ensures TicketRefs(Unrouted(tickets, id), mailboxes - {id}) && SameTickets(tickets, Unrouted(tickets, id))
  {
  }

  predicate TagOp(op: Op) { op.OpCreateTag? || op.OpUpdateTag? }

  predicate LinkOp(op: Op) { op.OpDeleteTag? || op.OpSetTicketTags? || op.OpAddTicketTags? }

  predicate RuleOp(op: Op) {
    op.OpCreateRule? || op.OpUpdateRule? || op.OpDeleteRule? || op.OpAppendHistory?
  }

  predicate FileOp(op: Op) { op.OpCreateAttachment? || op.OpDeleteAttachments? }

  lemma TagOpKeepsValid(cs: Casing, s: Db, op: Op)
    requires Valid(cs, s) && TagOp(op)
    ensures Valid(cs, Apply(cs, s, op))
  {
    hide CommentRefs, AttachmentRefs, TicketRefs, HistoryRefs, UniqueAddress, UniqueKey, UniqueMessage,
      UniqueExternal, Counted, UniqueName, LinkRefs, NameTaken;
    TagOpKeepsNames(cs, s, op);
    TagOpKeepsLinks(cs, s, op);
  }

  lemma TagOpKeepsNames(cs: Casing, s: Db, op: Op)
    requires KeysMatch(s) && UniqueName(cs, s.tags) && TagOp(op)
    ensures UniqueName(cs, Apply(cs, s, op).tags)
  {
  }

  lemma TagOpKeepsLinks(cs: Casing, s: Db, op: Op)
    requires LinkRefs(s.links, s.tickets, s.tags) && TagOp(op)
    ensures LinkRefs(s.links, s.tickets, Apply(cs, s, op).tags)
  {
    hide NameTaken;
  }

  lemma LinkOpKeepsValid(cs: Casing, s: Db, op: Op)
    requires Valid(cs, s) && LinkOp(op)
    ensures Valid(cs, Apply(cs, s, op))
  {
    hide CommentRefs, AttachmentRefs, TicketRefs, HistoryRefs, UniqueAddress, UniqueKey, UniqueMessage,
      UniqueExternal, Counted, LinkRefs;
    LinkOpKeepsLinks(cs, s, op);
  }

  lemma LinkOpKeepsLinks(cs: Casing, s: Db, op: Op)
    requires LinkRefs(s.links, s.tickets, s.tags) && LinkOp(op)
    ensures LinkRefs(Apply(cs, s, op).links, Apply(cs, s, op).tickets, Apply(cs, s, op).tags)
  {
  }

  lemma RuleOpKeepsValid(cs: Casing, s: Db, op: Op)
    requires Valid(cs, s) && RuleOp(op)
    ensures Valid(cs, Apply(cs, s, op))
  {
    hide CommentRefs, TicketRefs, AttachmentRefs, LinkRefs, UniqueAddress, UniqueKey, UniqueName, UniqueMessage,
      UniqueExternal, Counted;
  }

  lemma FileOpKeepsValid(cs: Casing, s: Db, op: Op)
    requires Valid(cs, s) && FileOp(op)
    ensures Valid(cs, Apply(cs, s, op))
  {
    hide CommentRefs, TicketRefs, LinkRefs, HistoryRefs, UniqueAddress, UniqueName, UniqueMessage, UniqueExternal,
      Counted, AttachmentRefs;
    FileOpKeepsRefs(cs, s, op);
  }

  lemma FileOpKeepsRefs(cs: Casing, s: Db, op: Op)
    requires AttachmentRefs(s.attachments, s.comments, s.tickets) && FileOp(op)
    ensures AttachmentRefs(Apply(cs, s, op).attachments, s.comments, s.tickets)
  {
  }

  lemma MailboxOpKeepsValid(cs: Casing, s: Db, op: Op)
    requires Valid(cs, s) && (op.OpCreateMailbox? || op.OpUpdateMailbox?)
    ensures Valid(cs, Apply(cs, s, op))
  {
    hide CommentRefs, AttachmentRefs, LinkRefs, HistoryRefs, UniqueKey, UniqueName, UniqueMessage, UniqueExternal,
      Counted, NormAddr, UniqueAddress, TicketRefs, AddressTaken;
    MailboxOpKeepsAddresses(cs, s, op);
    MailboxOpKeepsRoutes(cs, s, op);
  }

  lemma MailboxOpKeepsAddresses(cs: Casing, s: Db, op: Op)
    requires KeysMatch(s) && UniqueAddress(s.mailboxes) && (op.OpCreateMailbox? || op.OpUpdateMailbox?)
    ensures UniqueAddress(Apply(cs, s, op).mailboxes)
  {
    hide NormAddr;
  }

  lemma MailboxOpKeepsRoutes(cs: Casing, s: Db, op: Op)
    requires TicketRefs(s.tickets, s.mailboxes) && (op.OpCreateMailbox? || op.OpUpdateMailbox?)
    ensures TicketRefs(s.tickets, Apply(cs, s, op).mailboxes)
  {
    hide NormAddr, AddressTaken;
  }

  /** Every operation keeps the store valid. */
  lemma ApplyKeepsValid(cs: Casing, s: Db, op: Op)
    requires Valid(cs, s) && Fits(op)
    ensures Valid(cs, Apply(cs, s, op))
  {
    hide Valid;
    if TagOp(op) { TagOpKeepsValid(cs, s, op); }
    else if LinkOp(op) { LinkOpKeepsValid(cs, s, op); }
    else if RuleOp(op) { RuleOpKeepsValid(cs, s, op); }
    else if FileOp(op) { FileOpKeepsValid(cs, s, op); }
    else if op.OpCreateMailbox? || op.OpUpdateMailbox? { MailboxOpKeepsValid(cs, s, op); }
    else { TicketOpKeepsValid(cs, s, op); }
  }

  lemma TicketOpKeepsValid(cs: Casing, s: Db, op: Op)
    requires Valid(cs, s) && Fits(op)
    requires !TagOp(op) && !LinkOp(op) && !RuleOp(op) && !FileOp(op) && !op.OpCreateMailbox? && !op.OpUpdateMailbox?
    ensures Valid(cs, Apply(cs, s, op))
  {
    hide References, Uniqueness, Counted, CreateTicket, CreateComment, DeleteTicket, DeleteComment, DeleteMailbox,
      SetDelivery;
    match op
    case OpCreateTicket(t, now) => CreateTicketKeepsValid(cs, s, t, now);
    case OpUpdateTicket(tenant, id, p, at, now) =>
      if HasTicket(s, tenant, id) { TicketRewritten(cs, s, id, Patched(s.tickets[id], p, OrNow(at, now))); }
    case OpSetAssignee(tenant, id, a, n, at, now) =>
      if HasTicket(s, tenant, id) {
        TicketRewritten(cs, s, id, SetAssignee(s, tenant, id, a, n, at, now).db.tickets[id]);
      }
    case OpSetStatus(tenant, id, status, at, now) =>
      if HasTicket(s, tenant, id) { TicketRewritten(cs, s, id, Moved(s.tickets[id], status, OrNow(at, now))); }
    case OpDeleteTicket(tenant, id) => DeleteTicketKeepsValid(cs, s, tenant, id);
    case OpCreateComment(c, now) => CreateCommentKeepsValid(cs, s, c, now);
    case OpSetDelivery(tenant, id, d) => SetDeliveryKeepsValid(cs, s, tenant, id, d);
    case OpDeleteComment(tenant, id) => DeleteCommentKeepsValid(cs, s, tenant, id);
    case OpDeleteMailbox(tenant, id, force) => DeleteMailboxKeepsValid(cs, s, tenant, id, force);
  }

  /** Every store a run of such operations builds from a valid one is valid; the empty store is. */
  lemma {:induction false} RunKeepsValid(cs: Casing, s: Db, ops: seq<Op>)
    requires Valid(cs, s) && forall i :: 0 <= i < |ops| ==> Fits(ops[i])
    ensures Valid(cs, Run(cs, s, ops))
  {
    hide Valid;
    if ops != [] {
      RunKeepsValid(cs, s, ops[..|ops| - 1]);
      ApplyKeepsValid(cs, Run(cs, s, ops[..|ops| - 1]), ops[|ops| - 1]);
    }
  }

  lemma EmptyIsValid(cs: Casing)
    ensures Valid(cs, EMPTY)
  {
  }
}
