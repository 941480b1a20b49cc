/**
 * Exactly when the export round trip holds. A load stamps whatever it writes, so an export comes back
 * unchanged if and only if every row was stamped already; and the services stamp every row they write.
 */
module BackupStamped {
  import opened Rows
  import opened Text
  import opened Listing
  import opened Store
  import opened StoreValid
  import opened StoreIsolation
  import opened Backup
  import opened BackupScope
  import opened BackupRestore
  import opened BackupRoundTrip

  /** Normalising an address twice changes nothing more (true of trimming and lower-casing). */
  ghost predicate Stable(cs: Casing) { forall a: string :: NormAddr(cs, NormAddr(cs, a)) == NormAddr(cs, a) }

  /** Every row of every tenant is stamped. */
  predicate AllStamped(cs: Casing, s: Db) {
    && (forall k :: k in s.tags ==> TagStamped(s.tags[k]))
    && (forall k :: k in s.mailboxes ==> MailboxStamped(cs, s.mailboxes[k]))
    && (forall k :: k in s.rules ==> RuleStamped(s.rules[k]))
    && (forall k :: k in s.tickets ==> TicketStamped(s.tickets[k]))
    && (forall k :: k in s.comments ==> CommentStamped(s.comments[k]))
    && (forall i :: 0 <= i < |s.history| ==> s.history[i].createdAt != ZERO_TIME)
    && (forall k :: k in s.attachments ==> AttachmentStamped(s.attachments[k].tenant, s.attachments[k]))
  }

  /** What the services and the importer see to in every write: a running clock and no blank values. */
  predicate Clean(op: Op) {
    match op
    case OpCreateTicket(t, now) => !Blank(t.subject) && now != ZERO_TIME
    case OpUpdateTicket(_, _, p, _, _) =>
      (p.subject.Some? ==> !Blank(p.subject.value)) && (p.priority.Some? ==> p.priority.value != "")
    case OpSetStatus(_, _, status, _, _) => status != ""
    case OpCreateComment(_, now) => now != ZERO_TIME
    case OpSetDelivery(_, _, delivery) => delivery != ""
    case OpCreateAttachment(a, now) => OwnKey(a.tenant, a.storageKey) && now != ZERO_TIME
    case OpCreateTag(_, now) => now != ZERO_TIME
    case OpCreateRule(_, now) => now != ZERO_TIME
    case OpUpdateRule(_, now) => now != ZERO_TIME
    case OpCreateMailbox(_, now) => now != ZERO_TIME
    case OpUpdateMailbox(_, now) => now != ZERO_TIME
    case OpAppendHistory(_, now) => now != ZERO_TIME
    case _ => true
  }

  predicate TicketWrite(op: Op) {
    op.OpCreateTicket? || op.OpUpdateTicket? || op.OpSetAssignee? || op.OpSetStatus? || op.OpCreateComment? ||
    op.OpDeleteMailbox?
  }

  predicate Removal(op: Op) {
    op.OpDeleteTicket? || op.OpDeleteComment? || op.OpDeleteAttachments? || op.OpDeleteTag? || op.OpDeleteRule?
  }

  lemma TicketWriteStamps(cs: Casing, s: Db, op: Op)
    requires AllStamped(cs, s) && Clean(op) && TicketWrite(op) && TicketsKeyed(s)
    requires !op.OpCreateComment? && !op.OpDeleteMailbox?
    ensures AllStamped(cs, Apply(cs, s, op))
  {
    hide TagStamped, MailboxStamped, RuleStamped, AttachmentStamped, CommentStamped, Blank, ExternalTaken,
      MailboxKnown;
  }

  lemma CommentWriteStamps(cs: Casing, s: Db, op: Op)
    requires AllStamped(cs, s) && Clean(op) && (op.OpCreateComment? || op.OpDeleteMailbox?) && TicketsKeyed(s)
    ensures AllStamped(cs, Apply(cs, s, op))
  {
    hide TagStamped, MailboxStamped, RuleStamped, AttachmentStamped, Blank, MessageTaken, MailboxUsed;
  }

  predicate TicketsKeyed(s: Db) { forall k :: k in s.tickets ==> s.tickets[k].id == k }

  lemma RemovalStamps(cs: Casing, s: Db, op: Op)
    requires AllStamped(cs, s) && Removal(op) && TicketsKeyed(s)
    ensures AllStamped(cs, Apply(cs, s, op))
  {
    hide TagStamped, MailboxStamped, RuleStamped, AttachmentStamped, Blank, CommentStamped;
    if op.OpDeleteTicket? { HistoryWithoutIs(s.history, op.id); }
  }

  lemma MailboxWriteStamps(cs: Casing, s: Db, op: Op)
    requires AllStamped(cs, s) && Clean(op) && Stable(cs) && (op.OpCreateMailbox? || op.OpUpdateMailbox?)
    ensures AllStamped(cs, Apply(cs, s, op))
  {
    hide TicketStamped, TagStamped, RuleStamped, AttachmentStamped, CommentStamped, AddressTaken, NormAddr;
    assert NormAddr(cs, NormAddr(cs, op.m.address)) == NormAddr(cs, op.m.address);
  }

  lemma OtherWriteStamps(cs: Casing, s: Db, op: Op)
    requires AllStamped(cs, s) && Clean(op)
    requires !TicketWrite(op) && !Removal(op) && !op.OpCreateMailbox? && !op.OpUpdateMailbox? && !TagOp(op)
    ensures AllStamped(cs, Apply(cs, s, op))
  {
    hide TicketStamped, MailboxStamped, TagStamped, OwnKey, KeyTaken, CommentMatches, TagsKnown;
  }

  lemma TagWriteStamps(cs: Casing, s: Db, op: Op)
    requires AllStamped(cs, s) && Clean(op) && TagOp(op)
    ensures AllStamped(cs, Apply(cs, s, op))
  {
    hide TicketStamped, MailboxStamped, RuleStamped, CommentStamped, AttachmentStamped, NameTaken;
  }

  lemma ApplyStamps(cs: Casing, s: Db, op: Op)
    requires AllStamped(cs, s) && Clean(op) && Stable(cs) && TicketsKeyed(s)
    ensures AllStamped(cs, Apply(cs, s, op))
  {
    hide AllStamped, Clean, Stable, TicketsKeyed, Apply;
    if op.OpCreateComment? || op.OpDeleteMailbox? { CommentWriteStamps(cs, s, op); }
    else if TicketWrite(op) { TicketWriteStamps(cs, s, op); }
    else if Removal(op) { RemovalStamps(cs, s, op); }
    else if op.OpCreateMailbox? || op.OpUpdateMailbox? { MailboxWriteStamps(cs, s, op); }
    else if TagOp(op) { TagWriteStamps(cs, s, op); }
    else { OtherWriteStamps(cs, s, op); }
  }

  /** Every store the services build from nothing is stamped (and valid). */
  lemma {:induction false} ServicesStamp(cs: Casing, ops: seq<Op>)
    requires Stable(cs) && forall i :: 0 <= i < |ops| ==> Fits(ops[i]) && Clean(ops[i])
    ensures AllStamped(cs, Run(cs, EMPTY, ops)) && Valid(cs, Run(cs, EMPTY, ops))
  {
    hide AllStamped, Clean, Stable, References, Uniqueness, Counted, Apply;
    EmptyIsValid(cs);
    RunKeepsValid(cs, EMPTY, ops);
    if ops == [] {
      EmptyIsStamped(cs);
    } else {
      var n := |ops| - 1;
      ServicesStamp(cs, ops[..n]);
      ApplyStamps(cs, Run(cs, EMPTY, ops[..n]), ops[n]);
    }
  }

  lemma EmptyIsStamped(cs: Casing)
    ensures AllStamped(cs, EMPTY)
  {
  }

  lemma StampedOne(cs: Casing, s: Db, b: string)
    requires AllStamped(cs, s)
    ensures Stamped(cs, s, b)
  {
    hide TagStamped, MailboxStamped, RuleStamped, TicketStamped, AttachmentStamped, CommentStamped;
  }

  /** Hence every tenant of every store the services build comes back from its export. */
  lemma ServiceBuiltRoundTrip(j: Job, ops: seq<Op>, d: Doc, again: Doc)
    requires Stable(j.cs) && forall i :: 0 <= i < |ops| ==> Fits(ops[i]) && Clean(ops[i])
    requires Exports(j.cs, Run(j.cs, EMPTY, ops), j.target, d)
    requires Exports(j.cs, Result(Import(j, EMPTY, d)), j.target, again)
    ensures SameExport(d, again)
  {
    hide Import, Valid, Stamped, Exports, SameExport, AllStamped, Clean, Stable;
    ServicesStamp(j.cs, ops);
    StampedOne(j.cs, Run(j.cs, EMPTY, ops), j.target);
    RestoreIntoEmpty(j, Run(j.cs, EMPTY, ops), d, again);
  }

  // --------------------------------------------------------- a load stamps

  predicate Kept(cs: Casing, s: Db) { AllStamped(cs, s) && TicketsKeyed(s) }

  lemma ApplyKeyed(cs: Casing, s: Db, op: Op)
    requires TicketsKeyed(s)
    ensures TicketsKeyed(Apply(cs, s, op))
  {
    hide Apply;
    if TicketWrite(op) { TicketWriteKeyed(cs, s, op); }
    else if Removal(op) { RemovalKeyed(cs, s, op); }
    else { TicketsUntouched(cs, s, op); }
  }

  lemma TicketWriteKeyed(cs: Casing, s: Db, op: Op)
    requires TicketsKeyed(s) && TicketWrite(op)
    ensures TicketsKeyed(Apply(cs, s, op))
  {
    hide ExternalTaken, MailboxKnown, MessageTaken, MailboxUsed;
  }

  lemma RemovalKeyed(cs: Casing, s: Db, op: Op)
    requires TicketsKeyed(s) && Removal(op)
    ensures TicketsKeyed(Apply(cs, s, op))
  {
    hide HistoryWithout, LinksWithout, KeysOfTicket, KeysOfComment;
  }

  lemma TicketsUntouched(cs: Casing, s: Db, op: Op)
    requires !TicketWrite(op) && !Removal(op)
    ensures Apply(cs, s, op).tickets == s.tickets
  {
    hide ExternalTaken, MailboxKnown, MessageTaken, NameTaken, AddressTaken, NormAddr, KeyTaken, CommentMatches,
      TagsKnown;
  }

  ghost predicate Ticking(j: Job) { forall c, i :: j.clock(c, i) != ZERO_TIME }

  lemma PutStamps(j: Job, l: Load, op: Op, r: Step)
    requires Stable(j.cs) && Kept(j.cs, l.db) && Clean(op) && (r.out == Done ==> r.db == Apply(j.cs, l.db, op))
    ensures Kept(j.cs, Put(l, r).db)
  {
    hide AllStamped, TicketsKeyed, Stable, Apply;
    ApplyStamps(j.cs, l.db, op);
    ApplyKeyed(j.cs, l.db, op);
  }

  lemma {:induction false} TagsStamp(j: Job, s: Db, rows: seq<Tag>)
    requires Stable(j.cs) && Ticking(j) && Kept(j.cs, s)
    ensures Kept(j.cs, Tags(j, s, rows).db)
  {
    hide Kept, Stable, CreateTag, UpdateTag;
    if rows != [] {
      var n := |rows| - 1;
      TagsStamp(j, s, rows[..n]);
      var l, t, now := Tags(j, s, rows[..n]), rows[n].(tenant := j.target), j.clock(CTags, n);
      PutStamps(j, l, OpCreateTag(t, now), CreateTag(j.cs, l.db, t, now));
      PutStamps(j, l, OpUpdateTag(t), UpdateTag(j.cs, l.db, t));
    }
  }

  lemma {:induction false} MailboxesStamp(j: Job, s: Db, rows: seq<Mailbox>)
    requires Stable(j.cs) && Ticking(j) && Kept(j.cs, s)
    ensures Kept(j.cs, Mailboxes(j, s, rows).db)
  {
    hide Kept, Stable, CreateMailbox, UpdateMailbox, NormAddr;
    if rows != [] {
      var n := |rows| - 1;
      MailboxesStamp(j, s, rows[..n]);
      var l, now := Mailboxes(j, s, rows[..n]), j.clock(CMailboxes, n);
      var m := rows[n].(tenant := j.target, address := NormAddr(j.cs, rows[n].address));
      PutStamps(j, l, OpCreateMailbox(m, now), CreateMailbox(j.cs, l.db, m, now));
      PutStamps(j, l, OpUpdateMailbox(m, now), UpdateMailbox(j.cs, l.db, m, now));
    }
  }

  lemma {:induction false} RulesStamp(j: Job, s: Db, rows: seq<Rule>)
    requires Stable(j.cs) && Ticking(j) && Kept(j.cs, s)
    ensures Kept(j.cs, Rules(j, s, rows).db)
  {
    hide Kept, Stable, CreateRule, UpdateRule;
    if rows != [] {
      var n := |rows| - 1;
      RulesStamp(j, s, rows[..n]);
      var l, r, now := Rules(j, s, rows[..n]), rows[n].(tenant := j.target), j.clock(CRules, n);
      PutStamps(j, l, OpCreateRule(r, now), CreateRule(l.db, r, now));
      PutStamps(j, l, OpUpdateRule(r, now), UpdateRule(l.db, r, now));
    }
  }

  lemma OverwriteStamps(cs: Casing, s: Db, t: Ticket, now: Time)
    requires Stable(cs) && Kept(cs, s) && !Blank(t.subject)
    ensures Kept(cs, OverwriteTicket(s, t, now).db)
  {
    hide AllStamped, TicketsKeyed, Stable, UpdateTicket, SetStatus, SetAssignee, Blank;
    var at := OrNow(t.updatedAt, now);
    var p := PatchOf(t);
    var a := UpdateTicket(s, t.tenant, t.id, p, at, now).db;
    var b := if t.status != "" then SetStatus(a, t.tenant, t.id, t.status, at, now).db else a;
    ApplyStamps(cs, s, OpUpdateTicket(t.tenant, t.id, p, at, now));
    ApplyKeyed(cs, s, OpUpdateTicket(t.tenant, t.id, p, at, now));
    if t.status != "" {
      ApplyStamps(cs, a, OpSetStatus(t.tenant, t.id, t.status, at, now));
      ApplyKeyed(cs, a, OpSetStatus(t.tenant, t.id, t.status, at, now));
    }
    ApplyStamps(cs, b, OpSetAssignee(t.tenant, t.id, t.assignee, t.assigneeName, at, now));
    ApplyKeyed(cs, b, OpSetAssignee(t.tenant, t.id, t.assignee, t.assigneeName, at, now));
  }

  lemma NoSubjectIsNotBlank()
    ensures !Blank(NO_SUBJECT)
  {
    assert TrimLeft(NO_SUBJECT) == NO_SUBJECT && NO_SUBJECT[|NO_SUBJECT| - 1] == ')';
  }

  lemma {:induction false} TicketsStamp(j: Job, s: Db, known: set<string>, rows: seq<Ticket>)
    requires Stable(j.cs) && Ticking(j) && Kept(j.cs, s)
    ensures Kept(j.cs, TicketRows(j, s, known, rows).db)
  {
    hide Kept, Stable, CreateTicket, OverwriteTicket, Blank;
    if rows != [] {
      var n := |rows| - 1;
      TicketsStamp(j, s, known, rows[..n]);
      var l, t, now := TicketRows(j, s, known, rows[..n]), Prepared(rows[n], j.target, known), j.clock(CTickets, n);
      NoSubjectIsNotBlank();
      PutStamps(j, l, OpCreateTicket(t, now), CreateTicket(l.db, t, now));
      OverwriteStamps(j.cs, l.db, t, now);
    }
  }

  lemma {:induction false} LinksStamp(j: Job, s: Db, rows: seq<TagLink>, ids: seq<string>)
    requires Stable(j.cs) && Kept(j.cs, s)
    ensures Kept(j.cs, LinkRows(j.target, s, rows, ids).db)
  {
    hide Kept, Stable, AddTicketTags, TagsOf, Unlinked, TagsFor;
    if ids != [] {
      var n := |ids| - 1;
      LinksStamp(j, s, rows, ids[..n]);
      var l := LinkRows(j.target, s, rows, ids[..n]);
      var add := Unlinked(TagsOf(l.db, j.target, ids[n]), TagsFor(rows, ids[n]));
      PutStamps(j, l, OpAddTicketTags(j.target, ids[n], add), AddTicketTags(l.db, j.target, ids[n], add));
    }
  }

  lemma {:induction false} CommentsStamp(j: Job, s: Db, rows: seq<Comment>)
    requires Stable(j.cs) && Ticking(j) && Kept(j.cs, s)
    ensures Kept(j.cs, Comments(j, s, rows).db)
  {
    hide Kept, Stable, CreateComment;
    if rows != [] {
      var n := |rows| - 1;
      CommentsStamp(j, s, rows[..n]);
      var l, c, now := Comments(j, s, rows[..n]), rows[n].(tenant := j.target), j.clock(CComments, n);
      PutStamps(j, l, OpCreateComment(c, now), CreateComment(l.db, c, now));
    }
  }

  lemma {:induction false} HistoriesStamp(j: Job, s: Db, created: set<string>, rows: seq<History>)
    requires Stable(j.cs) && Ticking(j) && Kept(j.cs, s)
    ensures Kept(j.cs, Histories(j, s, created, rows).db)
  {
    hide Kept, Stable, AppendHistory;
    if rows != [] {
      var n := |rows| - 1;
      HistoriesStamp(j, s, created, rows[..n]);
      var l, h, now := Histories(j, s, created, rows[..n]), rows[n].(tenant := j.target), j.clock(CHistory, n);
      PutStamps(j, l, OpAppendHistory(h, now), AppendHistory(l.db, h, now));
    }
  }

  lemma {:induction false} AttachmentsStamp(j: Job, s: Db, rows: seq<Attachment>)
    requires Stable(j.cs) && Ticking(j) && Kept(j.cs, s)
    ensures Kept(j.cs, Attachments(j, s, rows).db)
  {
    hide Kept, Stable, CreateAttachment, OwnKey;
    if rows != [] {
      var n := |rows| - 1;
      AttachmentsStamp(j, s, rows[..n]);
      var l, a, now := Attachments(j, s, rows[..n]), rows[n].(tenant := j.target), j.clock(CAttachments, n);
      if OwnKey(j.target, a.storageKey) {
        PutStamps(j, l, OpCreateAttachment(a, now), CreateAttachment(l.db, a, now));
      }
    }
  }

  /** Whatever the document holds, what a load leaves behind is stamped. */
  lemma ImportStamps(j: Job, s: Db, d: Doc)
    requires Stable(j.cs) && Ticking(j) && Kept(j.cs, s)
    ensures AllStamped(j.cs, Result(Import(j, s, d)))
  {
    hide AllStamped, TicketsKeyed, Stable, Ticking, Tags, Mailboxes, Rules, TicketRows, LinkRows, Comments,
      Histories, Attachments, Order, KnownMailboxes;
    var r := Import(j, s, d);
    TagsStamp(j, s, d.tags);
    MailboxesStamp(j, r.tags.db, d.mailboxes);
    RulesStamp(j, r.mailboxes.db, d.rules);
    TicketsStamp(j, r.rules.db, KnownMailboxes(r.rules.db.mailboxes, j.target), d.tickets);
    LinksStamp(j, r.tickets.db, d.links, Order(d.links));
    CommentsStamp(j, r.links.db, d.comments);
    HistoriesStamp(j, r.comments.db, r.tickets.created, d.history);
    AttachmentsStamp(j, r.history.db, d.attachments);
  }

  // ------------------------------------------------------------- both halves

  lemma ListedRows<V(!new)>(rows: seq<V>, a: map<string, V>, e: map<string, V>, key: V -> Key)
    requires Lists(rows, a.Values, key) && Lists(rows, e.Values, key)
    ensures forall k :: k in a ==> exists i :: i in e && e[i] == a[k]
  {
    forall k | k in a ensures exists i :: i in e && e[i] == a[k] {
      assert a[k] in a.Values;
      assert a[k] in rows;
      assert a[k] in e.Values;
    }
  }

  lemma SameMeansStamped(cs: Casing, s: Db, e: Db, b: string, d: Doc, again: Doc)
    requires AllStamped(cs, e) && Exports(cs, s, b, d) && Exports(cs, e, b, again) && SameExport(d, again)
    ensures Stamped(cs, s, b)
  {
    hide TagStamped, MailboxStamped, RuleStamped, AttachmentStamped, CommentStamped, Lists, SortBy, HistoryOf,
      LinkSet, Blank;
    ListedRows(d.tags, Mine(s.tags, TagOwner, b), Mine(e.tags, TagOwner, b), TagKey(cs));
    ListedRows(d.mailboxes, Mine(s.mailboxes, MailboxOwner, b), Mine(e.mailboxes, MailboxOwner, b), MailboxKey);
    ListedRows(d.rules, Mine(s.rules, RuleOwner, b), Mine(e.rules, RuleOwner, b), RuleKey);
    ListedRows(d.comments, Mine(s.comments, CommentOwner, b), Mine(e.comments, CommentOwner, b), CommentKey);
    ListedRows(d.attachments, Mine(s.attachments, AttachmentOwner, b), Mine(e.attachments, AttachmentOwner, b),
               AttachmentKeyOf);
    forall k | k in s.tags && s.tags[k].tenant == b ensures TagStamped(s.tags[k]) {
      assert k in Mine(s.tags, TagOwner, b);
    }
    forall k | k in s.mailboxes && s.mailboxes[k].tenant == b ensures MailboxStamped(cs, s.mailboxes[k]) {
      assert k in Mine(s.mailboxes, MailboxOwner, b);
    }
    forall k | k in s.rules && s.rules[k].tenant == b ensures RuleStamped(s.rules[k]) {
      assert k in Mine(s.rules, RuleOwner, b);
    }
    forall k | k in s.comments && s.comments[k].tenant == b ensures CommentStamped(s.comments[k]) {
      assert k in Mine(s.comments, CommentOwner, b);
    }
    forall k | k in s.attachments && s.attachments[k].tenant == b ensures AttachmentStamped(b, s.attachments[k]) {
      assert k in Mine(s.attachments, AttachmentOwner, b);
    }
    TicketsMeanStamped(cs, s, e, b, d, again);
    HistoryMeansStamped(cs, s, e, b, d, again);
  }

  lemma TicketsMeanStamped(cs: Casing, s: Db, e: Db, b: string, d: Doc, again: Doc)
    requires AllStamped(cs, e) && Exports(cs, s, b, d) && Exports(cs, e, b, again) && SameExport(d, again)
    ensures forall k :: k in s.tickets && s.tickets[k].tenant == b ==> TicketStamped(s.tickets[k])
  {
    hide TagStamped, MailboxStamped, RuleStamped, AttachmentStamped, CommentStamped, SortBy, HistoryOf, LinkSet,
      Blank, Ascending;
    forall k | k in s.tickets && s.tickets[k].tenant == b ensures TicketStamped(s.tickets[k]) {
      assert Mine(s.tickets, TicketOwner, b)[k] in Mine(s.tickets, TicketOwner, b).Values;
      var i :| 0 <= i < |d.tickets| && d.tickets[i] == s.tickets[k];
      assert again.tickets[i] in Mine(e.tickets, TicketOwner, b).Values;
      assert Strip(again.tickets[i]) == Strip(d.tickets[i]);
      assert TicketStamped(again.tickets[i]);
      assert Strip(d.tickets[i]).subject == again.tickets[i].subject;
    }
  }

  lemma {:induction false} HistoryOfHas(h: seq<History>, b: string, i: nat)
    requires i < |h| && h[i].tenant == b
    ensures h[i] in HistoryOf(h, b)
  {
    if i < |h| - 1 { HistoryOfHas(h[..|h| - 1], b, i); }
  }

  lemma HistoryMeansStamped(cs: Casing, s: Db, e: Db, b: string, d: Doc, again: Doc)
    requires AllStamped(cs, e) && Exports(cs, s, b, d) && Exports(cs, e, b, again) && d.history == again.history
    ensures forall i :: 0 <= i < |s.history| && s.history[i].tenant == b ==> s.history[i].createdAt != ZERO_TIME
  {
    hide TagStamped, MailboxStamped, RuleStamped, AttachmentStamped, CommentStamped, TicketStamped, LinkSet, Lists,
      HistoryOf, SortBy;
    SortBySorts(HistoryOf(s.history, b), HistoryKey);
    SortBySorts(HistoryOf(e.history, b), HistoryKey);
    HistoryOfIs(e.history, b);
    forall i | 0 <= i < |s.history| && s.history[i].tenant == b ensures s.history[i].createdAt != ZERO_TIME {
      HistoryOfHas(s.history, b, i);
      assert s.history[i] in multiset(d.history);
      assert s.history[i] in HistoryOf(e.history, b);
    }
  }

  /** The round trip through an empty store gives the same export exactly when every row is stamped. */
  lemma RoundTripExactly(j: Job, s: Db, d: Doc, again: Doc)
    requires Valid(j.cs, s) && Stable(j.cs) && Ticking(j) && Exports(j.cs, s, j.target, d)
    requires Exports(j.cs, Result(Import(j, EMPTY, d)), j.target, again)
    ensures SameExport(d, again) <==> Stamped(j.cs, s, j.target)
  {
    hide Valid, Import, Exports, SameExport, Stamped, AllStamped, Stable, Ticking;
    if Stamped(j.cs, s, j.target) { RestoreIntoEmpty(j, s, d, again); }
    if SameExport(d, again) {
      EmptyIsStamped(j.cs);
      ImportStamps(j, EMPTY, d);
      SameMeansStamped(j.cs, s, Result(Import(j, EMPTY, d)), j.target, d, again);
    }
  }
}
