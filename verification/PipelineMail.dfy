/** Mail that was sent threads back, over every interleaving; and the run theorems of the pipeline. */
module PipelineMail {
  import opened Rows
  import opened Text
  import opened Pipeline
  import opened PipelineSafety
  import opened Threading
  import S = Store
  import V = StoreValid

  // ------------------------------------------------------------------ recorded letters

  predicate SameComment(a: Comment, b: Comment) { b == a.(delivery := b.delivery) }

  /** Comments only disappear or change their delivery state; a new one has a given id. */
  ghost predicate Follows(a: map<string, Comment>, b: map<string, Comment>, added: set<string>) {
    forall k :: k in b ==> k in added || (k in a && SameComment(a[k], b[k]))
  }

  /** If the letter's comment is still there, it is the public record of this letter. */
  predicate OnRecord(comments: map<string, Comment>, l: Sent) {
    l.comment in comments ==>
      comments[l.comment].tenant == l.tenant && comments[l.comment].ticket == l.ticket &&
      comments[l.comment].messageId == l.messageId && !comments[l.comment].isInternal
  }

  ghost predicate Letters(procs: seq<Proc>, comments: map<string, Comment>, minted: set<string>) {
    (forall p :: 0 <= p < |procs| && procs[p].Poster? ==>
        var l := procs[p].letter;
        l.comment in minted && |l.comment| == 36 && l.messageId != "" &&
        (procs[p].recorded ==> OnRecord(comments, l))) &&
    (forall p, q :: 0 <= p < q < |procs| && procs[p].Poster? && procs[q].Poster? ==>
        procs[p].letter.comment != procs[q].letter.comment)
  }

  /** Every letter handed over was recorded first. */
  ghost predicate SentAfterRecord(sent: seq<Sent>, procs: seq<Proc>) {
    forall i :: 0 <= i < |sent| ==> IsRecorded(procs, sent[i])
  }

  ghost predicate IsRecorded(procs: seq<Proc>, l: Sent) {
    exists p :: 0 <= p < |procs| && procs[p].Poster? && procs[p].recorded && procs[p].letter == l
  }

  ghost predicate Mailing(y: Sys) { Letters(y.procs, y.db.comments, y.minted) && SentAfterRecord(y.sent, y.procs) }

  // --------------------------------------------------------------- what calls do to comments

  lemma ApplyFollows(cs: Casing, db: S.Db, op: S.Op)
    ensures Follows(db.comments, S.Apply(cs, db, op).comments, if op.OpCreateComment? then {op.c.id} else {})
  {
    hide Follows, S.CreateComment, S.SetDelivery, S.DeleteComment, S.DeleteTicket;
    match op
    case OpCreateComment(c, now) => CreateFollows(db, c, now);
    case OpSetDelivery(tenant, id, d) => DeliveryFollows(db, tenant, id, d);
    case OpDeleteComment(tenant, id) => DeleteFollows(db, tenant, id);
    case OpDeleteTicket(tenant, id) => DeleteFollows(db, tenant, id);
    case _ =>
      CommentsUntouched(cs, db, op);
      NothingFollows(db.comments);
  }

  lemma CreateFollows(db: S.Db, c: Comment, now: Time)
    ensures Follows(db.comments, S.CreateComment(db, c, now).db.comments, {c.id})
  {
    hide S.MessageTaken, S.HasTicket, S.Commented;
  }

  lemma DeliveryFollows(db: S.Db, tenant: string, id: string, delivery: string)
    ensures Follows(db.comments, S.SetDelivery(db, tenant, id, delivery).db.comments, {})
  {
  }

  lemma DeleteFollows(db: S.Db, tenant: string, id: string)
    ensures Follows(db.comments, S.DeleteComment(db, tenant, id).db.comments, {})
    ensures Follows(db.comments, S.DeleteTicket(db, tenant, id).db.comments, {})
  {
    hide S.HistoryWithout, S.KeysOfTicket, S.Uncommented, S.KeysOfComment, S.HasTicket;
  }

  lemma CommentsUntouched(cs: Casing, db: S.Db, op: S.Op)
    requires !op.OpCreateComment? && !op.OpSetDelivery? && !op.OpDeleteComment? && !op.OpDeleteTicket?
    ensures S.Apply(cs, db, op).comments == db.comments
  {
    hide S.ExternalTaken, S.MailboxKnown, S.KeyTaken, S.CommentMatches, S.NameTaken, S.TagsKnown, S.AddressTaken,
      S.NormAddr, S.MailboxUsed, S.Unrouted, S.LinksWithout;
  }

  lemma LettersFollow(procs: seq<Proc>, a: map<string, Comment>, b: map<string, Comment>, minted: set<string>,
                      minted': set<string>, added: set<string>)
    requires Letters(procs, a, minted) && minted <= minted' && Follows(a, b, added)
    requires forall p :: 0 <= p < |procs| && procs[p].Poster? && procs[p].recorded ==> procs[p].letter.comment !in added
    ensures Letters(procs, b, minted')
  {
    forall p | 0 <= p < |procs| && procs[p].Poster? && procs[p].recorded ensures OnRecord(b, procs[p].letter) {
      assert OnRecord(a, procs[p].letter);
    }
  }

  /** A step of a process that is no poster: its letters stay as they are. */
  lemma OthersMail(y: Sys, y': Sys, p: nat, added: set<string>)
    requires Mailing(y) && p < |y.procs| && !y.procs[p].Poster?
    requires |y'.procs| == |y.procs| && y'.procs == y.procs[p := y'.procs[p]] && !y'.procs[p].Poster?
    requires y.minted <= y'.minted && y'.sent == y.sent
    requires Follows(y.db.comments, y'.db.comments, added) && added !! y.minted
    ensures Mailing(y')
  {
    hide Follows, OnRecord;
    LettersFollow(y.procs, y.db.comments, y'.db.comments, y.minted, y'.minted, added);
    forall i | 0 <= i < |y'.sent| ensures IsRecorded(y'.procs, y'.sent[i]) {
      KeepsRecorded(y.procs, y'.procs, p, y.sent[i]);
    }
  }

  lemma KeepsRecorded(procs: seq<Proc>, procs': seq<Proc>, p: nat, l: Sent)
    requires IsRecorded(procs, l) && p < |procs| == |procs'| && procs' == procs[p := procs'[p]]
    requires procs[p].Poster? && procs[p].recorded ==>
               procs'[p].Poster? && procs'[p].recorded && procs'[p].letter == procs[p].letter
    ensures IsRecorded(procs', l)
  {
    var q :| 0 <= q < |procs| && procs[q].Poster? && procs[q].recorded && procs[q].letter == l;
    assert procs'[q].Poster? && procs'[q].recorded && procs'[q].letter == l;
  }

  lemma Starts(y: Sys, y': Sys, pr: Proc)
    requires Mailing(y) && y'.procs == y.procs + [pr] && y'.db == y.db && y'.sent == y.sent && y.minted <= y'.minted
    requires pr.Poster? ==>
               pr.letter.comment !in y.minted && pr.letter.comment in y'.minted && |pr.letter.comment| == 36 &&
                            pr.letter.messageId != "" && !pr.recorded
    ensures Mailing(y')
  {
    hide OnRecord;
    forall i | 0 <= i < |y'.sent| ensures IsRecorded(y'.procs, y'.sent[i]) {
      var q :| 0 <= q < |y.procs| && y.procs[q].Poster? && y.procs[q].recorded && y.procs[q].letter == y.sent[i];
      assert y'.procs[q] == y.procs[q];
    }
  }

  lemma NothingFollows(a: map<string, Comment>)
    ensures Follows(a, a, {})
  {
  }

  lemma RowFollows(cs: Casing, y: Sys, e: Event)
    requires e.WriteRow? && Busy(y, e.p)
    ensures Follows(y.db.comments, WriteMain(y, e.p, e.newId, e.now, e.fault).db.comments, {e.newId})
  {
    hide S.CreateComment, S.CreateTicket;
    var pr := y.procs[e.p];
    NothingFollows(y.db.comments);
    if pr.phase.Upload? && !e.fault {
      var m, ticket := pr.mail, pr.phase.ticket;
      ApplyFollows(cs, y.db, S.OpCreateComment(NewReply(m, ticket, e.newId), e.now));
      ApplyFollows(cs, y.db, S.OpCreateTicket(NewTicket(m, ticket), e.now));
    }
  }

  lemma PurgeFollows(cs: Casing, y: Sys, e: Event)
    requires e.Purge? && e.p < |y.procs|
    ensures Follows(y.db.comments, PurgeRows(y, e.p, e.fault).db.comments, {})
  {
    hide S.DeleteComment, S.DeleteTicket;
    NothingFollows(y.db.comments);
    if y.procs[e.p].Eraser? {
      ApplyFollows(cs, y.db, S.OpDeleteComment(y.procs[e.p].tenant, y.procs[e.p].id));
      ApplyFollows(cs, y.db, S.OpDeleteTicket(y.procs[e.p].tenant, y.procs[e.p].id));
    }
  }

  lemma FileFollows(cs: Casing, y: Sys, e: Event)
    requires e.WriteFile? && Busy(y, e.p)
    ensures Follows(y.db.comments, WriteNext(y, e.p, e.now, e.fault).db.comments, {})
  {
    hide S.CreateAttachment;
    NothingFollows(y.db.comments);
    var pr := y.procs[e.p];
    if pr.phase.Record? && pr.staged != [] {
      ApplyFollows(cs, y.db, S.OpCreateAttachment(pr.staged[0].(comment := pr.phase.comment), e.now));
    }
  }

  lemma RowMails(cs: Casing, y: Sys, e: Event)
    requires Mailing(y) && e.WriteRow?
    ensures Mailing(Next(cs, y, e))
  {
    hide Mailing, RowWritten, Follows;
    if Busy(y, e.p) && Unused(y, e.newId) {
      RowFollows(cs, y, e);
      OthersMail(y, Next(cs, y, e), e.p, {e.newId});
    }
  }

  lemma InboundMails(cs: Casing, y: Sys, e: Event)
    requires Mailing(y) && (e.Look? || e.Matched? || e.Put? || e.WriteFile?)
    ensures Mailing(Next(cs, y, e))
  {
    hide Mailing, Looked, Follows, S.CreateAttachment;
    if Busy(y, e.p) {
      NothingFollows(y.db.comments);
      if e.WriteFile? { FileFollows(cs, y, e); }
      OthersMail(y, Next(cs, y, e), e.p, {});
    }
  }

  lemma ObjectsMail(cs: Casing, y: Sys, e: Event)
    requires Mailing(y) && (e.Remove? || e.Purge?)
    ensures Mailing(Next(cs, y, e))
  {
    hide Mailing, Follows, S.DeleteComment, S.DeleteTicket;
    if e.p < |y.procs| && !y.procs[e.p].Poster? {
      NothingFollows(y.db.comments);
      if e.Purge? { PurgeFollows(cs, y, e); }
      OthersMail(y, Next(cs, y, e), e.p, {});
    }
  }

  /** Recording a letter makes its comment; no other recorded letter has that comment. */
  lemma PostMails(cs: Casing, y: Sys, e: Event)
    requires Mailing(y) && e.WritePost?
    ensures Mailing(Next(cs, y, e))
  {
    var y' := Next(cs, y, e);
    if e.p < |y.procs| && y.procs[e.p].Poster? && !y.procs[e.p].recorded && !y.procs[e.p].done {
      var l, p := y.procs[e.p].letter, e.p;
      var c := PostRow(l, e.body, e.author);
      ApplyFollows(cs, y.db, S.OpCreateComment(c, e.now));
      NothingFollows(y.db.comments);
      RecordedRow(y.db, l, e.body, e.author, e.now);
      hide Follows, OnRecord, S.CreateComment;
      LettersRecorded(y, y', p);
      forall i | 0 <= i < |y'.sent| ensures IsRecorded(y'.procs, y'.sent[i]) {
        KeepsRecorded(y.procs, y'.procs, p, y.sent[i]);
      }
    }
  }

  lemma RecordedRow(db: S.Db, l: Sent, body: string, author: string, now: Time)
    ensures var r := S.CreateComment(db, PostRow(l, body, author), now); r.out == S.Done ==> OnRecord(r.db.comments, l)
  {
  }

  lemma LettersRecorded(y: Sys, y': Sys, p: nat)
    requires Letters(y.procs, y.db.comments, y.minted) && p < |y.procs| && y.procs[p].Poster? && !y.procs[p].recorded
    requires |y'.procs| == |y.procs| && y'.procs == y.procs[p := y'.procs[p]]
    requires y'.procs[p].Poster? && y'.procs[p].letter == y.procs[p].letter
    requires y'.minted == y.minted
    requires y'.procs[p].recorded ==> OnRecord(y'.db.comments, y.procs[p].letter)
    requires Follows(y.db.comments, y'.db.comments, {}) ||
             Follows(y.db.comments, y'.db.comments, {y.procs[p].letter.comment})
    ensures Letters(y'.procs, y'.db.comments, y'.minted)
  {
    hide OnRecord;
    var added := if Follows(y.db.comments, y'.db.comments, {}) then {} else {y.procs[p].letter.comment};
    LettersFollow(y.procs, y.db.comments, y'.db.comments, y.minted, y'.minted, added);
  }

  lemma SendMails(cs: Casing, y: Sys, e: Event)
    requires Mailing(y) && e.Send?
    ensures Mailing(Next(cs, y, e))
  {
    hide OnRecord;
    var p, y' := e.p, Next(cs, y, e);
    if p < |y.procs| && y.procs[p].Poster? && y.procs[p].recorded && !y.procs[p].done {
      forall i | 0 <= i < |y'.sent| ensures IsRecorded(y'.procs, y'.sent[i]) {
        if i < |y.sent| {
          KeepsRecorded(y.procs, y'.procs, p, y.sent[i]);
        } else {
          assert y'.procs[p].letter == y'.sent[i];
        }
      }
    }
  }

  lemma OtherMails(cs: Casing, y: Sys, e: Event)
    requires Mailing(y) && e.Other?
    ensures Mailing(Next(cs, y, e))
  {
    hide S.Apply, Follows, OnRecord;
    if Permitted(y, e.op) {
      var y' := Next(cs, y, e);
      ApplyFollows(cs, y.db, e.op);
      LettersFollow(y.procs, y.db.comments, y'.db.comments, y.minted, y'.minted, Minted(y, e.op));
    }
  }

  lemma NextMails(cs: Casing, y: Sys, e: Event)
    requires Mailing(y)
    ensures Mailing(Next(cs, y, e))
  {
    hide Mailing, PutFile, WriteMain, RemoveObject, WriteNext, PurgeRows, RecordPost, Looked, S.Apply;
    var y' := Next(cs, y, e);
    match e
    case Deliver(m) => Starts(y, y', Inbound(m, LookComment, [], false));
    case Erase(tenant, id, isComment) => Starts(y, y', Eraser(tenant, id, isComment, false, {}));
    case Post(tenant, ticket, commentId, uuid, domain) =>
      if Unused(y, commentId) { Starts(y, y', y'.procs[|y.procs|]); }
    case Look(_, _) => InboundMails(cs, y, e);
    case Matched(_, _, _, _, _) => InboundMails(cs, y, e);
    case Put(_, _, _) => InboundMails(cs, y, e);
    case WriteRow(_, _, _, _) => RowMails(cs, y, e);
    case Remove(_, _, _) => ObjectsMail(cs, y, e);
    case WriteFile(_, _, _) => InboundMails(cs, y, e);
    case Purge(_, _) => ObjectsMail(cs, y, e);
    case WritePost(_, _, _, _, _) => PostMails(cs, y, e);
    case Send(_) => SendMails(cs, y, e);
    case Other(_) => OtherMails(cs, y, e);
  }

  // ------------------------------------------------------------------------- run theorems

  lemma MailingNames(y: Sys)
    requires Mailing(y)
    ensures LettersNamed(y)
  {
    hide OnRecord;
  }

  lemma {:induction false} RunsAreSafe(cs: Casing, states: seq<Sys>, events: seq<Event>, n: nat)
    requires IsRun(cs, states, events) && n <= |events|
    ensures Safe(cs, states[n]) && Mailing(states[n])
  {
    hide Next, Safe, Mailing;
    if n == 0 {
      StartIsSafe(cs);
    } else {
      RunsAreSafe(cs, states, events, n - 1);
      assert states[n - 1 + 1] == Next(cs, states[n - 1], events[n - 1]);
      MailingNames(states[n - 1]);
      NextKeepsSafe(cs, states[n - 1], events[n - 1]);
      NextMails(cs, states[n - 1], events[n - 1]);
    }
  }

  lemma StartIsSafe(cs: Casing)
    ensures Safe(cs, START) && Mailing(START)
  {
    V.EmptyIsValid(cs);
    hide V.Valid;
  }

  /**
   * In every state of every run each attachment row's object exists; when nothing is left to do and no removal
   * failed, the objects are exactly the rows' objects; and a finished ingestion holds nothing.
   */
  lemma AttachmentSafety(cs: Casing, states: seq<Sys>, events: seq<Event>, n: nat)
    requires IsRun(cs, states, events) && n <= |events|
    ensures forall k :: k in states[n].db.attachments ==> states[n].db.attachments[k].storageKey in states[n].objects
    ensures states[n].leaked == {} && (forall p :: 0 <= p < |states[n].procs| ==> Held(states[n].procs[p]) == {}) ==>
              states[n].objects == RowKeys(states[n].db.attachments)
    ensures forall p :: 0 <= p < |states[n].procs| &&
                        states[n].procs[p].Inbound? && states[n].procs[p].phase.Finished? ==>
              states[n].procs[p].staged == [] &&
              (states[n].procs[p].phase.answer == Failed ==> !states[n].procs[p].wrote)
  {
    hide Next, Mailing, V.Valid, Shaped;
    RunsAreSafe(cs, states, events, n);
    var y := states[n];
    assert Balanced(RowKeys(y.db.attachments), y.leaked, Helds(y.procs), y.objects);
    forall p | 0 <= p < |y.procs| && y.procs[p].Inbound? && y.procs[p].phase.Finished?
      ensures y.procs[p].staged == [] && (y.procs[p].phase.answer == Failed ==> !y.procs[p].wrote)
    {
      assert ProcOk(y.procs[p]);
    }
    if y.leaked == {} && forall p :: 0 <= p < |y.procs| ==> Held(y.procs[p]) == {} {
      forall k | k in y.objects ensures k in RowKeys(y.db.attachments) {
        assert InHeld(Helds(y.procs), k) || k in RowKeys(y.db.attachments);
      }
    }
  }

  ghost predicate OneRoot(tickets: map<string, Ticket>, tenant: string, messageId: string) {
    forall j, k :: RootIs(tickets, j, tenant, messageId) && RootIs(tickets, k, tenant, messageId) ==> j == k
  }

  ghost predicate OneComment(comments: map<string, Comment>, tenant: string, messageId: string) {
    forall j, k :: CommentIs(comments, j, tenant, messageId) && CommentIs(comments, k, tenant, messageId) ==> j == k
  }

  /** However deliveries interleave, a tenant has at most one root and at most one comment with a given Message-ID. */
  lemma AtMostOneOfEach(cs: Casing, states: seq<Sys>, events: seq<Event>, n: nat, tenant: string, messageId: string)
    requires IsRun(cs, states, events) && n <= |events| && messageId != ""
    ensures OneRoot(states[n].db.tickets, tenant, messageId) && OneComment(states[n].db.comments, tenant, messageId)
  {
    hide Next, Mailing, Balanced, Shaped, V.References, V.Counted, V.KeysMatch;
    RunsAreSafe(cs, states, events, n);
    var db := states[n].db;
    assert V.UniqueExternal(db.tickets) && V.UniqueMessage(db.comments);
  }

  /**
   * A mail that was handed over resolves back: while its comment remains, a first thread id with its id finds its
   * ticket.
   */
  lemma RepliesComeBack(cs: Casing, states: seq<Sys>, events: seq<Event>, n: nat, i: nat,
                        ids: seq<string>, text: string, subject: string, f: Found)
    requires IsRun(cs, states, events) && n <= |events| && i < |states[n].sent|
    requires states[n].sent[i].comment in states[n].db.comments
    requires ids != [] && ids[0] == states[n].sent[i].messageId
    requires Matches(states[n].db, states[n].sent[i].tenant, ids, text, subject, f)
    ensures f == Found(states[n].sent[i].ticket, BY_COMMENT)
  {
    hide Next, Balanced, Shaped, V.Valid;
    RunsAreSafe(cs, states, events, n);
    var y := states[n];
    var l := y.sent[i];
    assert IsRecorded(y.procs, l);
    assert CommentIs(y.db.comments, l.comment, l.tenant, l.messageId) && l.messageId != "" &&
           y.db.comments[l.comment].ticket == l.ticket;
    CommentFound(cs, y.db, l.tenant, l.messageId, l.comment);
    hide Threading.TokenMatches;
    assert FirstComment(y.db, l.tenant, ids, 0);
    forall j ensures FirstComment(y.db, l.tenant, ids, j) ==> j == 0 {
      FirstOnce(y.db, l.tenant, ids, 0, j);
    }
  }
}
