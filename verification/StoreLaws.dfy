/**
 * What each write of the store leaves in its tables, row by row and field by field: which calls are refused and why,
 * what the written row holds, and that nothing else changes. The operations of Store and the methods of Mem are both
 * held against these laws.
 */
module StoreLaws {
  import opened Rows
  import opened Text
  import opened Store
  import opened Places

  /** Row id is the only one of the table that may differ, and it is there afterwards. */
  predicate OneRow<T(==)>(a: map<string, T>, b: map<string, T>, id: string) {
    id in b && b.Keys == a.Keys + {id} && forall k :: k in a && k != id ==> b[k] == a[k]
  }

  /** Row id is gone, the others are as they were. */
  predicate RowGone<T(==)>(a: map<string, T>, b: map<string, T>, id: string) {
    b.Keys == a.Keys - {id} && forall k :: k in b ==> b[k] == a[k]
  }

  /** The rows left are exactly those that are not doomed, unchanged. */
  ghost predicate Without<T>(a: map<string, T>, b: map<string, T>, doomed: T -> bool) {
    (forall k :: k in b <==> k in a && !doomed(a[k])) && forall k :: k in b ==> b[k] == a[k]
  }

  /** A time that is not given is the store's. */
  predicate Stamp(given: Time, now: Time, got: Time) { if given == 0 then got == now else got == given }

  predicate Filled(given: string, default: string, got: string) { if given == "" then got == default else got == given }

  // ---------------------------------------------------------------- tickets

  /** The ticket says what the caller's says; what the caller left open has its default. */
  predicate TicketKept(t: Ticket, row: Ticket, now: Time) {
    row.id == t.id && row.tenant == t.tenant && row.subject == t.subject && row.description == t.description &&
    row.bodyHTML == t.bodyHTML && row.requesterEmail == t.requesterEmail && row.requesterName == t.requesterName &&
    row.recipient == t.recipient && row.mailbox == t.mailbox && row.externalId == t.externalId &&
    row.assignee == t.assignee && row.assigneeName == t.assigneeName && row.commentCount == t.commentCount &&
    row.lastMessage == t.lastMessage && row.createdBy == t.createdBy && row.resolvedAt == t.resolvedAt &&
    Filled(t.status, "open", row.status) && Filled(t.priority, "normal", row.priority) &&
    Filled(t.source, "manual", row.source) && Stamp(t.createdAt, now, row.createdAt) &&
    Stamp(t.updatedAt, row.createdAt, row.updatedAt)
  }

  ghost predicate CreatesTicket(a: Db, r: Step, t: Ticket, now: Time) {
    var b, out := r.db, r.out;
    var held := t.id in a.tickets ||
                (t.externalId != "" &&
                 exists k :: k in a.tickets && a.tickets[k].tenant == t.tenant &&
                             a.tickets[k].externalId == t.externalId);
    var housed := t.mailbox == "" || (t.mailbox in a.mailboxes && a.mailboxes[t.mailbox].tenant == t.tenant);
    if held then out == Conflict && b == a
    else if !housed then out == NotFound && b == a
    else out == Done && b == a.(tickets := b.tickets) && OneRow(a.tickets, b.tickets, t.id) &&
         TicketKept(t, b.tickets[t.id], now)
  }

  /** The tenant's ticket is rewritten, or there is none and nothing happens. */
  predicate ChangesTicket(a: Db, r: Step, tenant: string, id: string) {
    var b, out := r.db, r.out;
    if id in a.tickets && a.tickets[id].tenant == tenant then
      out == Done && b == a.(tickets := b.tickets) && OneRow(a.tickets, b.tickets, id)
    else out == NotFound && b == a
  }

  predicate Given(value: Option<string>, was: string, got: string) {
    match value
    case Some(v) => got == v
    case None => got == was
  }

  /** The given fields are the patch's, the others stay. */
  predicate UpdatesTicket(a: Db, r: Step, tenant: string, id: string, p: Patch, at: Time, now: Time) {
    var b, out := r.db, r.out;
    ChangesTicket(a, r, tenant, id) &&
    (out == Done ==>
       var was, row := a.tickets[id], b.tickets[id];
       Given(p.subject, was.subject, row.subject) && Given(p.description, was.description, row.description) &&
       Given(p.priority, was.priority, row.priority) && Stamp(at, now, row.updatedAt) &&
       row == was.(subject := row.subject, description := row.description, priority := row.priority,
                   updatedAt := row.updatedAt))
  }

  /** No assignee has no name. */
  predicate AssignsTicket(a: Db, r: Step, tenant: string, id: string, assignee: string, name: string,
                          at: Time, now: Time) {
    var b, out := r.db, r.out;
    ChangesTicket(a, r, tenant, id) &&
    (out == Done ==>
       var was, row := a.tickets[id], b.tickets[id];
       row.assignee == assignee && row.assigneeName == (if assignee == "" then "" else name) &&
       Stamp(at, now, row.updatedAt) &&
       row == was.(assignee := row.assignee, assigneeName := row.assigneeName, updatedAt := row.updatedAt))
  }

  /** A ticket has a resolution time exactly while it is resolved: when it first was, since it last was not. */
  predicate MovesTicket(a: Db, r: Step, tenant: string, id: string, status: string, at: Time, now: Time) {
    var b, out := r.db, r.out;
    ChangesTicket(a, r, tenant, id) &&
    (out == Done ==>
       var was, row := a.tickets[id], b.tickets[id];
       row.status == status && Stamp(at, now, row.updatedAt) && (row.resolvedAt.Some? <==> status == "resolved") &&
       (status == "resolved" ==>
          row.resolvedAt == if was.status == "resolved" && was.resolvedAt.Some? then was.resolvedAt
                            else Some(row.updatedAt)) &&
       row == was.(status := row.status, updatedAt := row.updatedAt, resolvedAt := row.resolvedAt))
  }

  function Stays(h: seq<History>, ticket: string): nat -> bool { (i: nat) => i < |h| && h[i].ticket != ticket }

  /** What is left of a history without a ticket's rows, in the same order. */
  ghost predicate HistoryLeft(h: seq<History>, left: seq<History>, ticket: string) {
    exists at: seq<nat> :: Marks(at, |h|, Stays(h, ticket)) && |left| == |at| &&
                           forall i :: 0 <= i < |at| ==> left[i] == h[at[i]]
  }

  /** The ticket goes with its comments, attachments, links and history, and nothing else goes. */
  ghost predicate DeletesTicket(a: Db, r: Purge, tenant: string, id: string) {
    var b, out, keys := r.db, r.out, r.keys;
    if id !in a.tickets || a.tickets[id].tenant != tenant then out == NotFound && b == a && keys == {}
    else
      out == Done && b.tags == a.tags && b.rules == a.rules && b.mailboxes == a.mailboxes &&
      RowGone(a.tickets, b.tickets, id) && RowGone(a.links, b.links, id) &&
      Without(a.comments, b.comments, (c: Comment) => c.ticket == id) &&
      Without(a.attachments, b.attachments, (x: Attachment) => x.ticket == id) &&
      HistoryLeft(a.history, b.history, id) &&
      forall key :: key in keys <==>
                    exists k :: k in a.attachments && a.attachments[k].ticket == id &&
                                a.attachments[k].storageKey == key
  }

  // --------------------------------------------------------------- comments

  predicate CommentKept(c: Comment, row: Comment, now: Time) {
    row.id == c.id && row.tenant == c.tenant && row.ticket == c.ticket && row.body == c.body &&
    row.isInternal == c.isInternal && row.authorKind == c.authorKind && row.authorId == c.authorId &&
    row.authorName == c.authorName && row.authorEmail == c.authorEmail && row.messageId == c.messageId &&
    Filled(c.delivery, "none", row.delivery) && Stamp(c.createdAt, now, row.createdAt)
  }

  /** The ticket counts the comment; only a public one with a Message-ID becomes its last message. */
  predicate CommentCounts(was: Ticket, t: Ticket, row: Comment) {
    t.commentCount == was.commentCount + 1 && t.updatedAt == row.createdAt &&
    t.lastMessage == (if row.isInternal || row.messageId == "" then was.lastMessage else row.messageId) &&
    t == was.(commentCount := t.commentCount, updatedAt := t.updatedAt, lastMessage := t.lastMessage)
  }

  ghost predicate CreatesComment(a: Db, r: Step, c: Comment, now: Time) {
    var b, out := r.db, r.out;
    var held := c.id in a.comments ||
                (c.messageId != "" &&
                 exists k :: k in a.comments && a.comments[k].tenant == c.tenant &&
                             a.comments[k].messageId == c.messageId);
    if c.ticket !in a.tickets || a.tickets[c.ticket].tenant != c.tenant then out == NotFound && b == a
    else if held then out == Conflict && b == a
    else
      out == Done && b == a.(comments := b.comments, tickets := b.tickets) &&
      OneRow(a.comments, b.comments, c.id) && CommentKept(c, b.comments[c.id], now) &&
      (a.tickets[c.ticket].id == c.ticket ==>
         OneRow(a.tickets, b.tickets, c.ticket) &&
         CommentCounts(a.tickets[c.ticket], b.tickets[c.ticket], b.comments[c.id]))
  }

  predicate Delivers(a: Db, r: Step, tenant: string, id: string, delivery: string) {
    var b, out := r.db, r.out;
    if id !in a.comments || a.comments[id].tenant != tenant then out == NotFound && b == a
    else
      out == Done && b == a.(comments := b.comments) && OneRow(a.comments, b.comments, id) &&
      b.comments[id].delivery == delivery && b.comments[id] == a.comments[id].(delivery := b.comments[id].delivery)
  }

  /** The comment goes with its attachments, and its ticket counts one less. */
  ghost predicate DeletesComment(a: Db, r: Purge, tenant: string, id: string) {
    var b, out, keys := r.db, r.out, r.keys;
    if id !in a.comments || a.comments[id].tenant != tenant then out == NotFound && b == a && keys == {}
    else
      var t := a.comments[id].ticket;
      out == Done && b == a.(comments := b.comments, attachments := b.attachments, tickets := b.tickets) &&
      RowGone(a.comments, b.comments, id) &&
      Without(a.attachments, b.attachments, (x: Attachment) => x.comment == id) &&
      (t !in a.tickets ==> b.tickets == a.tickets) &&
      (t in a.tickets && a.tickets[t].id == t ==>
         OneRow(a.tickets, b.tickets, t) &&
         b.tickets[t].commentCount == (if a.tickets[t].commentCount > 0 then a.tickets[t].commentCount - 1
                                       else a.tickets[t].commentCount) &&
         b.tickets[t] == a.tickets[t].(commentCount := b.tickets[t].commentCount)) &&
      forall key :: key in keys <==>
                    exists k :: k in a.attachments && a.attachments[k].comment == id &&
                                a.attachments[k].storageKey == key
  }

  // ------------------------------------------------------------ attachments

  ghost predicate CreatesAttachment(a: Db, r: Step, x: Attachment, now: Time) {
    var b, out := r.db, r.out;
    var parent := x.ticket in a.tickets && a.tickets[x.ticket].tenant == x.tenant &&
                  (x.comment == "" || (x.comment in a.comments && a.comments[x.comment].tenant == x.tenant &&
                                       a.comments[x.comment].ticket == x.ticket));
    var held := x.id in a.attachments ||
                exists k :: k in a.attachments && a.attachments[k].storageKey == x.storageKey;
    if !parent then out == NotFound && b == a
    else if held then out == Conflict && b == a
    else
      out == Done && b == a.(attachments := b.attachments) && OneRow(a.attachments, b.attachments, x.id) &&
      var row := b.attachments[x.id];
      Stamp(x.createdAt, now, row.createdAt) && row == x.(createdAt := row.createdAt)
  }

  ghost predicate DeletesAttachments(a: Db, r: Purge, tenant: string, ticket: string) {
    var b, out, keys := r.db, r.out, r.keys;
    b == a.(attachments := b.attachments) &&
    Without(a.attachments, b.attachments, (x: Attachment) => x.tenant == tenant && x.ticket == ticket) &&
    forall key :: key in keys <==>
                  exists k :: k in a.attachments && a.attachments[k].tenant == tenant &&
                              a.attachments[k].ticket == ticket && a.attachments[k].storageKey == key
  }

  // ------------------------------------------------------------------- tags

  /** Another tag of the tenant has that kind and that name, whatever the case. */
  ghost predicate NameHeld(cs: Casing, tags: map<string, Tag>, id: string, tenant: string, kind: string, name: string) {
    exists k :: k in tags && tags[k].id != id && tags[k].tenant == tenant && tags[k].kind == kind &&
                cs.fold(tags[k].name) == cs.fold(name)
  }

  ghost predicate CreatesTag(cs: Casing, a: Db, r: Step, t: Tag, now: Time) {
    var b, out := r.db, r.out;
    if t.id in a.tags || NameHeld(cs, a.tags, t.id, t.tenant, if t.kind == "" then "tag" else t.kind, t.name) then
      out == Conflict && b == a
    else
      out == Done && b == a.(tags := b.tags) && OneRow(a.tags, b.tags, t.id) &&
      var row := b.tags[t.id];
      Filled(t.kind, "tag", row.kind) && Stamp(t.createdAt, now, row.createdAt) &&
      row.id == t.id && row.tenant == t.tenant && row.name == t.name && row.color == t.color &&
      row.description == t.description
  }

  /** Name, colour and description are the caller's; kind and creation time stay. */
  predicate TagHolds(t: Tag, was: Tag, row: Tag) {
    row.name == t.name && row.color == t.color && row.description == t.description &&
    row.id == t.id && row.tenant == t.tenant && row.kind == was.kind && row.createdAt == was.createdAt
  }

  ghost predicate UpdatesTag(cs: Casing, a: Db, r: Step, t: Tag) {
    var b, out := r.db, r.out;
    if t.id !in a.tags || a.tags[t.id].tenant != t.tenant then out == NotFound && b == a
    else if NameHeld(cs, a.tags, t.id, t.tenant, a.tags[t.id].kind, t.name) then out == Conflict && b == a
    else
      out == Done && b == a.(tags := b.tags) && OneRow(a.tags, b.tags, t.id) &&
      TagHolds(t, a.tags[t.id], b.tags[t.id])
  }

  /** The tag goes, and no ticket carries it any more. */
  ghost predicate DeletesTag(a: Db, r: Step, tenant: string, id: string) {
    var b, out := r.db, r.out;
    if id !in a.tags || a.tags[id].tenant != tenant then out == NotFound && b == a
    else
      out == Done && b == a.(tags := b.tags, links := b.links) && RowGone(a.tags, b.tags, id) &&
      b.links.Keys == a.links.Keys &&
      forall k :: k in a.links ==> forall g :: g in b.links[k] <==> g in a.links[k] && g != id
  }

  /** A tag id the tenant does not have refuses the call. */
  predicate Linkable(a: Db, tenant: string, ticket: string, tags: seq<string>) {
    ticket in a.tickets && a.tickets[ticket].tenant == tenant &&
    forall i :: 0 <= i < |tags| ==> tags[i] in a.tags && a.tags[tags[i]].tenant == tenant
  }

  /** The ticket carries exactly the given tags. */
  ghost predicate ReplacesTags(a: Db, r: Step, tenant: string, ticket: string, tags: seq<string>) {
    var b, out := r.db, r.out;
    if !Linkable(a, tenant, ticket, tags) then out == NotFound && b == a
    else
      out == Done && b == a.(links := b.links) && OneRow(a.links, b.links, ticket) &&
      forall g :: g in b.links[ticket] <==> g in tags
  }

  /** The ticket carries the given tags besides its own. */
  ghost predicate AddsTags(a: Db, r: Step, tenant: string, ticket: string, tags: seq<string>) {
    var b, out := r.db, r.out;
    if !Linkable(a, tenant, ticket, tags) then out == NotFound && b == a
    else
      out == Done && b == a.(links := b.links) && OneRow(a.links, b.links, ticket) &&
      forall g :: g in b.links[ticket] <==> g in tags || (ticket in a.links && g in a.links[ticket])
  }

  // ------------------------------------------------------------------ rules

  /** What a rule says, with "all" for an unset mode. */
  predicate RuleSays(r: Rule, row: Rule) {
    row.id == r.id && row.tenant == r.tenant && row.name == r.name && row.enabled == r.enabled &&
    row.sortOrder == r.sortOrder && row.conditions == r.conditions && row.expression == r.expression &&
    row.actions == r.actions && Filled(r.combine, "all", row.combine)
  }

  predicate CreatesRule(a: Db, e: Step, r: Rule, now: Time) {
    var b, out := e.db, e.out;
    if r.id in a.rules then out == Conflict && b == a
    else
      out == Done && b == a.(rules := b.rules) && OneRow(a.rules, b.rules, r.id) &&
      var row := b.rules[r.id];
      RuleSays(r, row) && row.version == (if r.version <= 0 then 1 else r.version) &&
      Stamp(r.createdAt, now, row.createdAt) && Stamp(r.updatedAt, row.createdAt, row.updatedAt)
  }

  /** The rule says what the caller's does; its version steps from the stored one. */
  predicate UpdatesRule(a: Db, e: Step, r: Rule, now: Time) {
    var b, out := e.db, e.out;
    if r.id !in a.rules || a.rules[r.id].tenant != r.tenant then out == NotFound && b == a
    else
      out == Done && b == a.(rules := b.rules) && OneRow(a.rules, b.rules, r.id) &&
      var was, row := a.rules[r.id], b.rules[r.id];
      RuleSays(r, row) && row.version == was.version + 1 && row.createdAt == was.createdAt && row.updatedAt == now
  }

  predicate DeletesRule(a: Db, e: Step, tenant: string, id: string) {
    var b, out := e.db, e.out;
    if id !in a.rules || a.rules[id].tenant != tenant then out == NotFound && b == a
    else out == Done && b == a.(rules := b.rules) && RowGone(a.rules, b.rules, id)
  }

  // -------------------------------------------------------------- mailboxes

  /** What a mailbox says, its address trimmed and lower-cased. */
  predicate MailboxSays(cs: Casing, m: Mailbox, row: Mailbox) {
    row.id == m.id && row.tenant == m.tenant && row.address == cs.lower(TrimSpace(m.address)) &&
    row.displayName == m.displayName && row.active == m.active && row.autoAck == m.autoAck &&
    row.autoAckTemplate == m.autoAckTemplate
  }

  ghost predicate AddressHeld(cs: Casing, mailboxes: map<string, Mailbox>, m: Mailbox) {
    exists k :: k in mailboxes && mailboxes[k].id != m.id && mailboxes[k].address == cs.lower(TrimSpace(m.address))
  }

  ghost predicate CreatesMailbox(cs: Casing, a: Db, r: Step, m: Mailbox, now: Time) {
    var b, out := r.db, r.out;
    if m.id in a.mailboxes || AddressHeld(cs, a.mailboxes, m) then out == Conflict && b == a
    else
      out == Done && b == a.(mailboxes := b.mailboxes) && OneRow(a.mailboxes, b.mailboxes, m.id) &&
      var row := b.mailboxes[m.id];
      MailboxSays(cs, m, row) && Stamp(m.createdAt, now, row.createdAt) &&
      Stamp(m.updatedAt, row.createdAt, row.updatedAt)
  }

  ghost predicate UpdatesMailbox(cs: Casing, a: Db, r: Step, m: Mailbox, now: Time) {
    var b, out := r.db, r.out;
    if m.id !in a.mailboxes || a.mailboxes[m.id].tenant != m.tenant then out == NotFound && b == a
    else if AddressHeld(cs, a.mailboxes, m) then out == Conflict && b == a
    else
      out == Done && b == a.(mailboxes := b.mailboxes) && OneRow(a.mailboxes, b.mailboxes, m.id) &&
      var row := b.mailboxes[m.id];
      MailboxSays(cs, m, row) && row.createdAt == a.mailboxes[m.id].createdAt && row.updatedAt == now
  }

  /** Refused exactly while a ticket is routed to it, unless forced; then those tickets are routed nowhere. */
  ghost predicate DeletesMailbox(a: Db, r: Step, tenant: string, id: string, force: bool) {
    var b, out := r.db, r.out;
    if id !in a.mailboxes || a.mailboxes[id].tenant != tenant then out == NotFound && b == a
    else if !force && exists k :: k in a.tickets && a.tickets[k].mailbox == id then out == NotEmpty && b == a
    else
      out == Done && b == a.(mailboxes := b.mailboxes, tickets := b.tickets) && RowGone(a.mailboxes, b.mailboxes, id) &&
      b.tickets.Keys == a.tickets.Keys &&
      forall k :: k in a.tickets ==>
        b.tickets[k].mailbox == (if a.tickets[k].mailbox == id then "" else a.tickets[k].mailbox) &&
        b.tickets[k] == a.tickets[k].(mailbox := b.tickets[k].mailbox)
  }

  // ---------------------------------------------------------------- history

  predicate LogsChange(a: Db, r: Step, h: History, now: Time) {
    var b, out := r.db, r.out;
    if h.ticket !in a.tickets || a.tickets[h.ticket].tenant != h.tenant then out == NotFound && b == a
    else
      out == Done && b == a.(history := b.history) && |b.history| == |a.history| + 1 && a.history <= b.history &&
      var row := b.history[|a.history|];
      Stamp(h.createdAt, now, row.createdAt) && row == h.(createdAt := row.createdAt)
  }

  // ------------------------------------------------------- the operations obey

  lemma RowPut<T>(a: map<string, T>, id: string, row: T)
    ensures OneRow(a, a[id := row], id)
  {
  }

  lemma OpenedKeeps(t: Ticket, now: Time)
    ensures TicketKept(t, Opened(t, now), now)
  {
  }

  lemma CreateTicketLaw(s: Db, t: Ticket, now: Time)
    ensures CreatesTicket(s, CreateTicket(s, t, now), t, now)
  {
    OpenedKeeps(t, now);
    RowPut(s.tickets, t.id, Opened(t, now));
    hide Opened, TicketKept, OneRow;
  }

  lemma UpdateTicketLaw(s: Db, tenant: string, id: string, p: Patch, at: Time, now: Time)
    ensures UpdatesTicket(s, UpdateTicket(s, tenant, id, p, at, now), tenant, id, p, at, now)
  {
  }

  lemma SetAssigneeLaw(s: Db, tenant: string, id: string, assignee: string, name: string, at: Time, now: Time)
    ensures AssignsTicket(s, SetAssignee(s, tenant, id, assignee, name, at, now), tenant, id, assignee, name, at, now)
  {
  }

  lemma SetStatusLaw(s: Db, tenant: string, id: string, status: string, at: Time, now: Time)
    ensures MovesTicket(s, SetStatus(s, tenant, id, status, at, now), tenant, id, status, at, now)
  {
  }

  lemma {:induction false} HistoryWithoutLeaves(h: seq<History>, ticket: string) returns (at: seq<nat>)
    ensures Marks(at, |h|, Stays(h, ticket)) && |HistoryWithout(h, ticket)| == |at|
    ensures forall i :: 0 <= i < |at| ==> HistoryWithout(h, ticket)[i] == h[at[i]]
  {
    if h == [] {
      at := [];
    } else {
      var n := |h| - 1;
      var before := HistoryWithoutLeaves(h[..n], ticket);
      at := Marked(before, n, h[n].ticket != ticket);
      OneMorePlace(before, n, Stays(h[..n], ticket), Stays(h, ticket));
      hide Marks;
      assert forall x :: 0 <= x < |before| ==> h[..n][before[x]] == h[before[x]];
    }
  }

  lemma DeleteTicketLaw(s: Db, tenant: string, id: string)
    ensures DeletesTicket(s, DeleteTicket(s, tenant, id), tenant, id)
  {
    var _ := HistoryWithoutLeaves(s.history, id);
    hide HistoryWithout, Marks;
  }

  lemma CommentWritten(c: Comment, now: Time)
    ensures CommentKept(c, Written(c, now), now)
  {
  }

  lemma CommentCounted(t: Ticket, c: Comment)
    ensures CommentCounts(t, Commented(t, c), c) && Commented(t, c).id == t.id
  {
  }

  lemma CreateCommentLaw(s: Db, c: Comment, now: Time)
    ensures CreatesComment(s, CreateComment(s, c, now), c, now)
  {
    CommentWritten(c, now);
    RowPut(s.comments, c.id, Written(c, now));
    if HasTicket(s, c.tenant, c.ticket) {
      CommentCounted(s.tickets[c.ticket], Written(c, now));
      RowPut(s.tickets, c.ticket, Commented(s.tickets[c.ticket], Written(c, now)));
    }
    hide Written, Commented, CommentKept, CommentCounts, OneRow;
  }

  lemma SetDeliveryLaw(s: Db, tenant: string, id: string, delivery: string)
    ensures Delivers(s, SetDelivery(s, tenant, id, delivery), tenant, id, delivery)
  {
  }

  lemma DeleteCommentLaw(s: Db, tenant: string, id: string)
    ensures DeletesComment(s, DeleteComment(s, tenant, id), tenant, id)
  {
  }

  lemma CreateAttachmentLaw(s: Db, x: Attachment, now: Time)
    ensures CreatesAttachment(s, CreateAttachment(s, x, now), x, now)
  {
  }

  lemma DeleteAttachmentsLaw(s: Db, tenant: string, ticket: string)
    ensures DeletesAttachments(s, DeleteAttachments(s, tenant, ticket), tenant, ticket)
  {
  }

  lemma CreateTagLaw(cs: Casing, s: Db, t: Tag, now: Time)
    ensures CreatesTag(cs, s, CreateTag(cs, s, t, now), t, now)
  {
  }

  lemma UpdateTagLaw(cs: Casing, s: Db, t: Tag)
    ensures UpdatesTag(cs, s, UpdateTag(cs, s, t), t)
  {
  }

  lemma DeleteTagLaw(s: Db, tenant: string, id: string)
    ensures DeletesTag(s, DeleteTag(s, tenant, id), tenant, id)
  {
  }

  lemma TagsKnownIs(s: Db, tenant: string, tags: seq<string>)
    ensures TagsKnown(s, tenant, tags) <==>
            forall i :: 0 <= i < |tags| ==> tags[i] in s.tags && s.tags[tags[i]].tenant == tenant
  {
    assert forall i :: 0 <= i < |tags| ==> tags[i] in tags;
  }

  lemma SetTicketTagsLaw(s: Db, tenant: string, ticket: string, tags: seq<string>)
    ensures ReplacesTags(s, SetTicketTags(s, tenant, ticket, tags), tenant, ticket, tags)
  {
    TagsKnownIs(s, tenant, tags);
  }

  lemma AddTicketTagsLaw(s: Db, tenant: string, ticket: string, tags: seq<string>)
    ensures AddsTags(s, AddTicketTags(s, tenant, ticket, tags), tenant, ticket, tags)
  {
    TagsKnownIs(s, tenant, tags);
  }

  lemma CreateRuleLaw(s: Db, r: Rule, now: Time)
    ensures CreatesRule(s, CreateRule(s, r, now), r, now)
  {
  }

  lemma UpdateRuleLaw(s: Db, r: Rule, now: Time)
    ensures UpdatesRule(s, UpdateRule(s, r, now), r, now)
  {
  }

  lemma DeleteRuleLaw(s: Db, tenant: string, id: string)
    ensures DeletesRule(s, DeleteRule(s, tenant, id), tenant, id)
  {
  }

  lemma CreateMailboxLaw(cs: Casing, s: Db, m: Mailbox, now: Time)
    ensures CreatesMailbox(cs, s, CreateMailbox(cs, s, m, now), m, now)
  {
  }

  lemma UpdateMailboxLaw(cs: Casing, s: Db, m: Mailbox, now: Time)
    ensures UpdatesMailbox(cs, s, UpdateMailbox(cs, s, m, now), m, now)
  {
  }

  lemma DeleteMailboxLaw(s: Db, tenant: string, id: string, force: bool)
    ensures DeletesMailbox(s, DeleteMailbox(s, tenant, id, force), tenant, id, force)
  {
  }

  lemma AppendHistoryLaw(s: Db, h: History, now: Time)
    ensures LogsChange(s, AppendHistory(s, h, now), h, now)
  {
  }
}
