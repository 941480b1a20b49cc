/**
 * What a whole import may touch: the target tenant only, in both modes, and validity is kept.
 */
module BackupScope {
  import opened Rows
  import opened Text
  import opened Store
  import opened StoreValid
  import opened StoreIsolation
  import opened Backup

  /** From s to e only tenant a changed, and e is valid. */
  ghost predicate Confined(cs: Casing, a: string, s: Db, e: Db) {
    Valid(cs, e) && forall b :: b != a ==> Of(e, b) == Of(s, b)
  }

  lemma OpConfined(cs: Casing, s: Db, op: Op)
    requires Valid(cs, s) && Fits(op)
    ensures Confined(cs, Owner(op), s, Apply(cs, s, op))
  {
    hide Valid, Of, Apply;
    ApplyKeepsValid(cs, s, op);
    forall b | b != Owner(op) ensures Of(Apply(cs, s, op), b) == Of(s, b) { ApplyIsolates(cs, s, op, b); }
  }

  lemma ConfinedTwice(cs: Casing, a: string, s: Db, m: Db, e: Db)
    requires Confined(cs, a, s, m) && Confined(cs, a, m, e)
    ensures Confined(cs, a, s, e)
  {
    hide Valid, Of;
  }

  /** A step that is either nothing or one operation of the target. */
  lemma PutConfined(j: Job, s: Db, l: Load, op: Op, r: Step)
    requires Confined(j.cs, j.target, s, l.db) && Fits(op) && Owner(op) == j.target
    requires r.out == Done ==> r.db == Apply(j.cs, l.db, op)
    ensures Confined(j.cs, j.target, s, Put(l, r).db)
  {
    hide Valid, Of, Apply;
    OpConfined(j.cs, l.db, op);
    ConfinedTwice(j.cs, j.target, s, l.db, Apply(j.cs, l.db, op));
  }

  lemma {:induction false} TagsConfined(j: Job, s: Db, rows: seq<Tag>)
    requires Valid(j.cs, s)
    ensures Confined(j.cs, j.target, s, Tags(j, s, rows).db)
  {
    hide Valid, Of, Confined, CreateTag, UpdateTag;
    if rows == [] {
      Unchanged(j.cs, j.target, s);
    } else {
      var n := |rows| - 1;
      TagsConfined(j, s, rows[..n]);
      var l, t, now := Tags(j, s, rows[..n]), rows[n].(tenant := j.target), j.clock(CTags, n);
      PutConfined(j, s, l, OpCreateTag(t, now), CreateTag(j.cs, l.db, t, now));
      PutConfined(j, s, l, OpUpdateTag(t), UpdateTag(j.cs, l.db, t));
    }
  }

  lemma Unchanged(cs: Casing, a: string, s: Db)
    requires Valid(cs, s)
    ensures Confined(cs, a, s, s)
  {
  }

  lemma {:induction false} MailboxesConfined(j: Job, s: Db, rows: seq<Mailbox>)
    requires Valid(j.cs, s)
    ensures Confined(j.cs, j.target, s, Mailboxes(j, s, rows).db)
  {
    hide Valid, Of, Confined, CreateMailbox, UpdateMailbox, NormAddr;
    if rows == [] {
      Unchanged(j.cs, j.target, s);
    } else {
      var n := |rows| - 1;
      MailboxesConfined(j, s, rows[..n]);
      var l, now := Mailboxes(j, s, rows[..n]), j.clock(CMailboxes, n);
      var m := rows[n].(tenant := j.target, address := NormAddr(j.cs, rows[n].address));
      PutConfined(j, s, l, OpCreateMailbox(m, now), CreateMailbox(j.cs, l.db, m, now));
      PutConfined(j, s, l, OpUpdateMailbox(m, now), UpdateMailbox(j.cs, l.db, m, now));
    }
  }

  lemma {:induction false} RulesConfined(j: Job, s: Db, rows: seq<Rule>)
    requires Valid(j.cs, s)
    ensures Confined(j.cs, j.target, s, Rules(j, s, rows).db)
  {
    hide Valid, Of, Confined, CreateRule, UpdateRule;
    if rows == [] {
      Unchanged(j.cs, j.target, s);
    } else {
      var n := |rows| - 1;
      RulesConfined(j, s, rows[..n]);
      var l, r, now := Rules(j, s, rows[..n]), rows[n].(tenant := j.target), j.clock(CRules, n);
      PutConfined(j, s, l, OpCreateRule(r, now), CreateRule(l.db, r, now));
      PutConfined(j, s, l, OpUpdateRule(r, now), UpdateRule(l.db, r, now));
    }
  }

  /** Overwriting a ticket is three operations of its tenant. */
  lemma OverwriteConfined(cs: Casing, s: Db, t: Ticket, now: Time)
    requires Valid(cs, s)
    ensures Confined(cs, t.tenant, s, OverwriteTicket(s, t, now).db)
  {
    hide Valid, Of, Confined, UpdateTicket, SetStatus, SetAssignee;
    var at := OrNow(t.updatedAt, now);
    var p := PatchOf(t);
    var a := UpdateTicket(s, t.tenant, t.id, p, at, now).db;
    var b := if t.status != "" then SetStatus(a, t.tenant, t.id, t.status, at, now).db else a;
    var c := SetAssignee(b, t.tenant, t.id, t.assignee, t.assigneeName, at, now).db;
    OpConfined(cs, s, OpUpdateTicket(t.tenant, t.id, p, at, now));
    assert Valid(cs, a) by { ConfinedValid(cs, t.tenant, s, a); }
    if t.status != "" {
      OpConfined(cs, a, OpSetStatus(t.tenant, t.id, t.status, at, now));
      ConfinedTwice(cs, t.tenant, s, a, b);
    }
    assert Valid(cs, b) by { ConfinedValid(cs, t.tenant, s, b); }
    OpConfined(cs, b, OpSetAssignee(t.tenant, t.id, t.assignee, t.assigneeName, at, now));
    ConfinedTwice(cs, t.tenant, s, b, c);
  }

  lemma ConfinedValid(cs: Casing, a: string, s: Db, e: Db)
    requires Confined(cs, a, s, e)
    ensures Valid(cs, e)
  {
  }

  lemma {:induction false} TicketsConfined(j: Job, s: Db, known: set<string>, rows: seq<Ticket>)
    requires Valid(j.cs, s)
    ensures Confined(j.cs, j.target, s, TicketRows(j, s, known, rows).db)
  {
    hide Valid, Of, Confined, CreateTicket, OverwriteTicket, Blank;
    if rows == [] {
      Unchanged(j.cs, j.target, s);
    } else {
      var n := |rows| - 1;
      TicketsConfined(j, s, known, rows[..n]);
      var l, t, now := TicketRows(j, s, known, rows[..n]), Prepared(rows[n], j.target, known), j.clock(CTickets, n);
      PutConfined(j, s, l, OpCreateTicket(t, now), CreateTicket(l.db, t, now));
      assert Valid(j.cs, l.db) by { ConfinedValid(j.cs, j.target, s, l.db); }
      OverwriteConfined(j.cs, l.db, t, now);
      ConfinedTwice(j.cs, j.target, s, l.db, OverwriteTicket(l.db, t, now).db);
    }
  }

  lemma {:induction false} LinksConfined(j: Job, s: Db, rows: seq<TagLink>, ids: seq<string>)
    requires Valid(j.cs, s)
    ensures Confined(j.cs, j.target, s, LinkRows(j.target, s, rows, ids).db)
  {
    hide Valid, Of, Confined, AddTicketTags, TagsOf, Unlinked, TagsFor;
    if ids == [] {
      Unchanged(j.cs, j.target, s);
    } else {
      var n := |ids| - 1;
      LinksConfined(j, s, rows, ids[..n]);
      var l := LinkRows(j.target, s, rows, ids[..n]);
      var add := Unlinked(TagsOf(l.db, j.target, ids[n]), TagsFor(rows, ids[n]));
      PutConfined(j, s, l, OpAddTicketTags(j.target, ids[n], add), AddTicketTags(l.db, j.target, ids[n], add));
    }
  }

  lemma {:induction false} CommentsConfined(j: Job, s: Db, rows: seq<Comment>)
    requires Valid(j.cs, s) && forall i :: 0 <= i < |rows| ==> rows[i].id != ""
    ensures Confined(j.cs, j.target, s, Comments(j, s, rows).db)
  {
    hide Valid, Of, Confined, CreateComment;
    if rows == [] {
      Unchanged(j.cs, j.target, s);
    } else {
      var n := |rows| - 1;
      CommentsConfined(j, s, rows[..n]);
      var l, c, now := Comments(j, s, rows[..n]), rows[n].(tenant := j.target), j.clock(CComments, n);
      PutConfined(j, s, l, OpCreateComment(c, now), CreateComment(l.db, c, now));
    }
  }

  lemma {:induction false} HistoriesConfined(j: Job, s: Db, created: set<string>, rows: seq<History>)
    requires Valid(j.cs, s)
    ensures Confined(j.cs, j.target, s, Histories(j, s, created, rows).db)
  {
    hide Valid, Of, Confined, AppendHistory;
    if rows == [] {
      Unchanged(j.cs, j.target, s);
    } else {
      var n := |rows| - 1;
      HistoriesConfined(j, s, created, rows[..n]);
      var l, h, now := Histories(j, s, created, rows[..n]), rows[n].(tenant := j.target), j.clock(CHistory, n);
      PutConfined(j, s, l, OpAppendHistory(h, now), AppendHistory(l.db, h, now));
    }
  }

  lemma {:induction false} AttachmentsConfined(j: Job, s: Db, rows: seq<Attachment>)
    requires Valid(j.cs, s)
    ensures Confined(j.cs, j.target, s, Attachments(j, s, rows).db)
  {
    hide Valid, Of, Confined, CreateAttachment, OwnKey;
    if rows == [] {
      Unchanged(j.cs, j.target, s);
    } else {
      var n := |rows| - 1;
      AttachmentsConfined(j, s, rows[..n]);
      var l, a, now := Attachments(j, s, rows[..n]), rows[n].(tenant := j.target), j.clock(CAttachments, n);
      PutConfined(j, s, l, OpCreateAttachment(a, now), CreateAttachment(l.db, a, now));
    }
  }

  /** A whole import, in either mode, keeps the store valid and touches no other tenant. */
  lemma ImportConfined(j: Job, s: Db, d: Doc)
    requires Valid(j.cs, s) && forall i :: 0 <= i < |d.comments| ==> d.comments[i].id != ""
    ensures Confined(j.cs, j.target, s, Result(Import(j, s, d)))
  {
    hide Valid, Of, Confined, Tags, Mailboxes, Rules, TicketRows, LinkRows, Comments, Histories, Attachments, Order,
      KnownMailboxes;
    var r, cs, t := Import(j, s, d), j.cs, j.target;
    TagsConfined(j, s, d.tags);
    Chain(cs, t, s, s, r.tags.db);
    MailboxesConfined(j, r.tags.db, d.mailboxes);
    Chain(cs, t, s, r.tags.db, r.mailboxes.db);
    RulesConfined(j, r.mailboxes.db, d.rules);
    Chain(cs, t, s, r.mailboxes.db, r.rules.db);
    TicketsConfined(j, r.rules.db, KnownMailboxes(r.rules.db.mailboxes, t), d.tickets);
    Chain(cs, t, s, r.rules.db, r.tickets.db);
    LinksConfined(j, r.tickets.db, d.links, Order(d.links));
    Chain(cs, t, s, r.tickets.db, r.links.db);
    CommentsConfined(j, r.links.db, d.comments);
    Chain(cs, t, s, r.links.db, r.comments.db);
    HistoriesConfined(j, r.comments.db, r.tickets.created, d.history);
    Chain(cs, t, s, r.comments.db, r.history.db);
    AttachmentsConfined(j, r.history.db, d.attachments);
    Chain(cs, t, s, r.history.db, r.attachments.db);
  }

  lemma Inherits(cs: Casing, a: string, s: Db, m: Db, e: Db)
    requires Confined(cs, a, s, m) && (Valid(cs, m) ==> Confined(cs, a, m, e))
    ensures Confined(cs, a, s, e)
  {
    hide Valid, Of;
  }

  lemma Chain(cs: Casing, a: string, s: Db, m: Db, e: Db)
    requires (m == s || Confined(cs, a, s, m)) && Confined(cs, a, m, e)
    ensures Confined(cs, a, s, e) && Valid(cs, e)
  {
    hide Valid, Of;
  }
}
