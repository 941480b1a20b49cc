/**
 * Tenant isolation as a frame theorem. The cascades match on ids alone; that they never reach another
 * tenant's rows follows from referential integrity.
 */
module StoreIsolation {
  import opened Rows
  import opened Text
  import opened Store
  import opened StoreValid

  /** Everything one tenant can see. */
  datatype Slice = Slice(
    tickets: map<string, Ticket>, comments: map<string, Comment>, attachments: map<string, Attachment>,
    tags: map<string, Tag>, links: map<string, set<string>>, rules: map<string, Rule>,
    mailboxes: map<string, Mailbox>, history: seq<History>)

  /** The rows of a table that belong to b. */
  function Mine<V>(m: map<string, V>, owner: V -> string, b: string): map<string, V> {
    map k | k in m && owner(m[k]) == b :: m[k]
  }

  function TicketOwner(t: Ticket): string { t.tenant }
  function CommentOwner(c: Comment): string { c.tenant }
  function AttachmentOwner(a: Attachment): string { a.tenant }
  function TagOwner(g: Tag): string { g.tenant }
  function RuleOwner(r: Rule): string { r.tenant }
  function MailboxOwner(m: Mailbox): string { m.tenant }

  function LinksOf(links: map<string, set<string>>, tickets: map<string, Ticket>, b: string): map<string, set<string>> {
    map k | k in links && k in tickets && tickets[k].tenant == b :: links[k]
  }

  function HistoryOf(h: seq<History>, b: string): seq<History> {
    if h == [] then []
    else if h[|h| - 1].tenant == b then HistoryOf(h[..|h| - 1], b) + [h[|h| - 1]]
    else HistoryOf(h[..|h| - 1], b)
  }

  lemma {:induction false} NoHistoryOf(h: seq<History>, b: string)
    requires forall i :: 0 <= i < |h| ==> h[i].tenant != b
    ensures HistoryOf(h, b) == []
  {
    if h != [] { NoHistoryOf(h[..|h| - 1], b); }
  }

  function Of(s: Db, b: string): Slice {
    Slice(Mine(s.tickets, TicketOwner, b), Mine(s.comments, CommentOwner, b),
          Mine(s.attachments, AttachmentOwner, b), Mine(s.tags, TagOwner, b), LinksOf(s.links, s.tickets, b),
          Mine(s.rules, RuleOwner, b), Mine(s.mailboxes, MailboxOwner, b), HistoryOf(s.history, b))
  }

  /** Writing a row of another tenant over a row of another tenant, or over none. */
  lemma MinePut<V>(m: map<string, V>, owner: V -> string, b: string, k: string, v: V)
    requires owner(v) != b && (k in m ==> owner(m[k]) != b)
    ensures Mine(m[k := v], owner, b) == Mine(m, owner, b)
  {
  }

  /** Removing rows of other tenants. */
  lemma MineDrop<V>(m: map<string, V>, owner: V -> string, b: string, n: map<string, V>)
    requires Within(n, m) && forall k :: k in m && k !in n ==> owner(m[k]) != b
    ensures Mine(n, owner, b) == Mine(m, owner, b)
  {
  }

  lemma LinksPut(links: map<string, set<string>>, tickets: map<string, Ticket>, b: string, k: string, t: Ticket)
    requires t.tenant != b && (k in tickets ==> tickets[k].tenant != b)
    ensures LinksOf(links, tickets[k := t], b) == LinksOf(links, tickets, b)
  {
  }

  /** Dropping another tenant's ticket from the history drops nothing of ours. */
  lemma {:induction false} HistoryWithoutOther(h: seq<History>, ticket: string, b: string)
    requires forall i :: 0 <= i < |h| && h[i].ticket == ticket ==> h[i].tenant != b
    ensures HistoryOf(HistoryWithout(h, ticket), b) == HistoryOf(h, b)
  {
    if h != [] { HistoryWithoutOther(h[..|h| - 1], ticket, b); }
  }

  lemma DeleteTicketIsolates(s: Db, a: string, id: string, b: string)
    requires References(s) && a != b
    ensures Of(DeleteTicket(s, a, id).db, b) == Of(s, b)
  {
    hide TicketRefs, LinkRefs, HistoryOf, Mine, HistoryWithout;
    if HasTicket(s, a, id) {
      var r := DeleteTicket(s, a, id).db;
      MineDrop(s.tickets, TicketOwner, b, r.tickets);
      MineDrop(s.comments, CommentOwner, b, r.comments);
      MineDrop(s.attachments, AttachmentOwner, b, r.attachments);
      HistoryWithoutOther(s.history, id, b);
      assert LinksOf(r.links, r.tickets, b) == LinksOf(s.links, s.tickets, b) by {
        hide CommentRefs, AttachmentRefs, HistoryRefs;
      }
    }
  }

  /** The cascade of a comment reaches only its own ticket's attachments because no comment id is empty. */
  lemma DeleteCommentIsolates(s: Db, a: string, id: string, b: string)
    requires References(s) && KeysMatch(s) && a != b
    ensures Of(DeleteComment(s, a, id).db, b) == Of(s, b)
  {
    hide TicketRefs, LinkRefs, HistoryRefs, HistoryOf, Mine, LinksOf;
    if HasComment(s, a, id) {
      var r := DeleteComment(s, a, id).db;
      var tid := s.comments[id].ticket;
      MineDrop(s.comments, CommentOwner, b, r.comments);
      MineDrop(s.attachments, AttachmentOwner, b, r.attachments);
      if r.tickets != s.tickets {
        MinePut(s.tickets, TicketOwner, b, tid, r.tickets[tid]);
        LinksPut(s.links, s.tickets, b, tid, r.tickets[tid]);
      }
    }
  }

  /** Another tenant's attachments that belong to no comment. */
  predicate Loose(attachments: map<string, Attachment>, b: string, k: string) {
    k in attachments && attachments[k].tenant == b && attachments[k].comment == ""
  }

  /**
   * Exactly when deleting a comment reaches another tenant: its id is empty and that tenant has an attachment
   * without a comment. Needs only the references and rows filed under their ids, not that comment ids are non-empty.
   */
  lemma DeleteCommentIsolatesExactly(s: Db, a: string, id: string, b: string)
    requires References(s) && HasComment(s, a, id) && a != b
    requires (forall k :: k in s.tickets ==> s.tickets[k].id == k) &&
             (forall k :: k in s.comments ==> s.comments[k].id == k)
    ensures Of(DeleteComment(s, a, id).db, b) == Of(s, b) <==> id != "" || forall k :: !Loose(s.attachments, b, k)
  {
    hide TicketRefs, LinkRefs, HistoryRefs, HistoryOf, LinksOf;
    var r := DeleteComment(s, a, id).db;
    var tid := s.comments[id].ticket;
    if id == "" && exists k :: Loose(s.attachments, b, k) {
      var k :| Loose(s.attachments, b, k);
      assert k in Of(s, b).attachments && k !in Of(r, b).attachments;
    } else {
      hide Mine;
      MineDrop(s.comments, CommentOwner, b, r.comments);
      forall k | k in s.attachments && k !in r.attachments ensures AttachmentOwner(s.attachments[k]) != b {
        assert id != "" || !Loose(s.attachments, b, k);
      }
      MineDrop(s.attachments, AttachmentOwner, b, r.attachments);
      if r.tickets != s.tickets {
        MinePut(s.tickets, TicketOwner, b, tid, r.tickets[tid]);
        LinksPut(s.links, s.tickets, b, tid, r.tickets[tid]);
      }
    }
  }

  lemma DeleteTagIsolates(s: Db, a: string, id: string, b: string)
    requires LinkRefs(s.links, s.tickets, s.tags) && a != b
    ensures Of(DeleteTag(s, a, id).db, b) == Of(s, b)
  {
    hide HistoryOf, Mine;
    if HasTag(s, a, id) {
      var r := DeleteTag(s, a, id).db;
      MineDrop(s.tags, TagOwner, b, r.tags);
      forall k | k in s.links && s.tickets[k].tenant == b ensures r.links[k] == s.links[k] {}
    }
  }

  lemma DeleteMailboxIsolates(s: Db, a: string, id: string, force: bool, b: string)
    requires TicketRefs(s.tickets, s.mailboxes) && a != b
    ensures Of(DeleteMailbox(s, a, id, force).db, b) == Of(s, b)
  {
    hide HistoryOf, Mine, LinksOf;
    var r := DeleteMailbox(s, a, id, force);
    if r.out == Done {
      MineDrop(s.mailboxes, MailboxOwner, b, r.db.mailboxes);
      UnroutedIsolates(s, a, id, b);
    }
  }

  lemma UnroutedIsolates(s: Db, a: string, id: string, b: string)
    requires TicketRefs(s.tickets, s.mailboxes) && a != b && MailboxKnown(s.mailboxes, a, id)
    ensures Mine(Unrouted(s.tickets, id), TicketOwner, b) == Mine(s.tickets, TicketOwner, b)
    ensures LinksOf(s.links, Unrouted(s.tickets, id), b) == LinksOf(s.links, s.tickets, b)
  {
    var u := Unrouted(s.tickets, id);
    assert u.Keys == s.tickets.Keys;
    forall k | k in u ensures u[k].tenant == s.tickets[k].tenant && (u[k].tenant == b ==> u[k] == s.tickets[k]) {}
  }

  lemma TicketWriteIsolates(cs: Casing, s: Db, op: Op, b: string)
    requires (forall k :: k in s.tickets ==> s.tickets[k].id == k) && Owner(op) != b
    requires op.OpCreateTicket? || op.OpUpdateTicket? || op.OpSetAssignee? || op.OpSetStatus? || op.OpCreateComment?
    ensures Of(Apply(cs, s, op), b) == Of(s, b)
  {
    hide HistoryOf, Mine, LinksOf, ExternalTaken, MailboxKnown, MessageTaken;
    var r := Apply(cs, s, op);
    var id := if op.OpCreateTicket? then op.t.id else if op.OpCreateComment? then op.c.ticket else op.id;
    if r != s {
      MinePut(s.tickets, TicketOwner, b, id, r.tickets[id]);
      LinksPut(s.links, s.tickets, b, id, r.tickets[id]);
      if op.OpCreateComment? { MinePut(s.comments, CommentOwner, b, op.c.id, r.comments[op.c.id]); }
    }
  }

  lemma RowWriteIsolates(cs: Casing, s: Db, op: Op, b: string)
    requires Owner(op) != b
    requires TagOp(op) || RuleOp(op) || op.OpCreateMailbox? || op.OpUpdateMailbox?
    ensures Of(Apply(cs, s, op), b) == Of(s, b)
  {
    hide Of, Apply;
    if TagOp(op) { TagWriteIsolates(cs, s, op, b); }
    else if RuleOp(op) { RuleWriteIsolates(cs, s, op, b); }
    else { MailboxWriteIsolates(cs, s, op, b); }
  }

  lemma TagWriteIsolates(cs: Casing, s: Db, op: Op, b: string)
    requires Owner(op) != b && TagOp(op)
    ensures Of(Apply(cs, s, op), b) == Of(s, b)
  {
    hide Mine, LinksOf, HistoryOf, NameTaken;
    var r := Apply(cs, s, op);
    if r != s { MinePut(s.tags, TagOwner, b, op.g.id, r.tags[op.g.id]); }
  }

  lemma MailboxWriteIsolates(cs: Casing, s: Db, op: Op, b: string)
    requires Owner(op) != b && (op.OpCreateMailbox? || op.OpUpdateMailbox?)
    ensures Of(Apply(cs, s, op), b) == Of(s, b)
  {
    hide Mine, LinksOf, HistoryOf, AddressTaken, NormAddr;
    var r := Apply(cs, s, op);
    if r != s { MinePut(s.mailboxes, MailboxOwner, b, op.m.id, r.mailboxes[op.m.id]); }
  }

  lemma RuleWriteIsolates(cs: Casing, s: Db, op: Op, b: string)
    requires Owner(op) != b && RuleOp(op)
    ensures Of(Apply(cs, s, op), b) == Of(s, b)
  {
    hide Mine, LinksOf;
    var r := Apply(cs, s, op);
    if r != s {
      match op
      case OpCreateRule(x, _) => MinePut(s.rules, RuleOwner, b, x.id, r.rules[x.id]);
      case OpUpdateRule(x, _) => MinePut(s.rules, RuleOwner, b, x.id, r.rules[x.id]);
      case OpDeleteRule(_, _) => MineDrop(s.rules, RuleOwner, b, r.rules);
      case _ =>
    }
  }

  lemma ChildWriteIsolates(cs: Casing, s: Db, op: Op, b: string)
    requires Owner(op) != b
    requires FileOp(op) || op.OpSetTicketTags? || op.OpAddTicketTags? || op.OpSetDelivery?
    ensures Of(Apply(cs, s, op), b) == Of(s, b)
  {
    hide Of, Apply;
    if op.OpSetTicketTags? || op.OpAddTicketTags? {
      LinkWriteIsolates(cs, s, op, b);
    } else {
      FileWriteIsolates(cs, s, op, b);
    }
  }

  lemma LinkWriteIsolates(cs: Casing, s: Db, op: Op, b: string)
    requires Owner(op) != b && (op.OpSetTicketTags? || op.OpAddTicketTags?)
    ensures Of(Apply(cs, s, op), b) == Of(s, b)
  {
    hide Mine, HistoryOf, TagsKnown;
  }

  lemma FileWriteIsolates(cs: Casing, s: Db, op: Op, b: string)
    requires Owner(op) != b && (FileOp(op) || op.OpSetDelivery?)
    ensures Of(Apply(cs, s, op), b) == Of(s, b)
  {
    hide Mine, HistoryOf, LinksOf, KeyTaken, CommentMatches;
    var r := Apply(cs, s, op);
    if r != s {
      match op
      case OpCreateAttachment(a, _) => MinePut(s.attachments, AttachmentOwner, b, a.id, r.attachments[a.id]);
      case OpDeleteAttachments(_, _) => MineDrop(s.attachments, AttachmentOwner, b, r.attachments);
      case OpSetDelivery(_, id, _) => MinePut(s.comments, CommentOwner, b, id, r.comments[id]);
      case _ =>
    }
  }

  /** An operation of one tenant leaves every other tenant's rows as they were. */
  lemma ApplyIsolates(cs: Casing, s: Db, op: Op, b: string)
    requires Valid(cs, s) && Owner(op) != b
    ensures Of(Apply(cs, s, op), b) == Of(s, b)
  {
    hide Uniqueness, Counted, TicketRefs, CommentRefs, AttachmentRefs, LinkRefs, HistoryRefs, Of, DeleteTicket,
      DeleteComment, DeleteTag, DeleteMailbox;
    match op
    case OpDeleteTicket(a, id) => DeleteTicketIsolates(s, a, id, b);
    case OpDeleteComment(a, id) => DeleteCommentIsolates(s, a, id, b);
    case OpDeleteTag(a, id) => DeleteTagIsolates(s, a, id, b);
    case OpDeleteMailbox(a, id, force) => DeleteMailboxIsolates(s, a, id, force, b);
    case OpCreateTicket(_, _) => TicketWriteIsolates(cs, s, op, b);
    case OpUpdateTicket(_, _, _, _, _) => TicketWriteIsolates(cs, s, op, b);
    case OpSetAssignee(_, _, _, _, _, _) => TicketWriteIsolates(cs, s, op, b);
    case OpSetStatus(_, _, _, _, _) => TicketWriteIsolates(cs, s, op, b);
    case OpCreateComment(_, _) => TicketWriteIsolates(cs, s, op, b);
    case _ =>
      if FileOp(op) || op.OpSetTicketTags? || op.OpAddTicketTags? || op.OpSetDelivery? {
        ChildWriteIsolates(cs, s, op, b);
      } else {
        RowWriteIsolates(cs, s, op, b);
      }
  }

  /** Whole runs: whatever the other tenants do, a tenant's rows change only by its own operations. */
  lemma {:induction false} RunIsolates(cs: Casing, s: Db, ops: seq<Op>, b: string)
    requires Valid(cs, s)
    requires forall i :: 0 <= i < |ops| ==> Fits(ops[i]) && Owner(ops[i]) != b
    ensures Of(Run(cs, s, ops), b) == Of(s, b)
  {
    hide Valid, Of;
    if ops != [] {
      var prefix := ops[..|ops| - 1];
      RunIsolates(cs, s, prefix, b);
      RunKeepsValid(cs, s, prefix);
      ApplyIsolates(cs, Run(cs, s, prefix), ops[|ops| - 1], b);
    }
  }

  /**
   * Validity is what isolation needs: the store accepts a comment with an empty id, and deleting that
   * comment removes the attachments of every tenant that belong to no comment.
   */
  lemma EmptyCommentIdReachesOtherTenants(cs: Casing, t: Ticket, c: Comment, x: Attachment)
    requires t.id == "1" && t.tenant == "A" && t.mailbox == "" && t.externalId == ""
    requires c.id == "" && c.tenant == "A" && c.ticket == "1" && c.messageId == ""
    requires x.id == "3" && x.tenant == "B" && x.ticket == "2" && x.comment == ""
    ensures var s1 := CreateTicket(EMPTY, t, 1).db;
            var s2 := CreateTicket(s1, t.(id := "2", tenant := "B"), 1).db;
            var s := CreateComment(CreateAttachment(s2, x, 1).db, c, 1).db;
            "3" in Of(s, "B").attachments && "3" !in Of(DeleteComment(s, "A", "").db, "B").attachments
  {
    hide HistoryOf, LinksOf;
    var s1 := CreateTicket(EMPTY, t, 1).db;
    var s2 := CreateTicket(s1, t.(id := "2", tenant := "B"), 1).db;
    assert s2.tickets.Keys == {"1", "2"} && s2.comments == map[] && s2.attachments == map[];
    var s3 := CreateAttachment(s2, x, 1).db;
    assert s3.attachments == map["3" := x.(createdAt := OrNow(x.createdAt, 1))];
    assert CreateComment(s3, c, 1).out == Done;
  }
}
