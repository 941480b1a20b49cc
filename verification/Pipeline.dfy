/**
 * Mail in and out, one store or object call at a time: ingesting a message (internal/inbound/inbound.go),
 * deleting tickets and comments with their objects (internal/tickets, internal/comments) and posting mail
 * (internal/inbound/ack.go, internal/comments). Any number of these run interleaved and any call may fail.
 */
module Pipeline {
  import opened Rows
  import opened Text
  import S = Store

  datatype File = File(filename: string, contentType: string, size: int, contentId: string, inlined: bool,
                       checksum: string)

  /** A parsed message routed to a mailbox of a tenant. */
  datatype Mail = Mail(
    tenant: string, messageId: string, subject: string, text: string, html: string,
    fromName: string, fromEmail: string, recipient: string, mailbox: string, files: seq<File>)

  /** What an ingestion answers. */
  datatype Answer = Duplicate(ticket: string) | Threaded(ticket: string) | Created(ticket: string) | Dropped | Failed

  datatype After = ThenFail | ThenDuplicate(ticket: string) | ThenLookAgain | ThenNewTicket

  /**
   * Where an ingestion stands: the two duplicate look-ups, threading, uploading for a comment or a ticket, the
   * row, removing staged objects, the attachment rows (`failed` when the first staged one could not be written).
   */
  datatype Phase =
    | LookComment
    | LookTicket
    | Match(gone: bool)
    | Upload(reply: bool, ticket: string)
    | Discard(next: After)
    | LookAgain
    | Record(comment: string, answer: Answer, failed: bool)
    | Finished(answer: Answer)

  datatype Proc =
    | Inbound(mail: Mail, phase: Phase, staged: seq<Attachment>, wrote: bool)
    | Eraser(tenant: string, id: string, isComment: bool, ran: bool, doomed: set<string>)
    | Poster(letter: Sent, recorded: bool, done: bool)

  /** A mail handed to the relay, with the comment that records it. */
  datatype Sent = Sent(tenant: string, ticket: string, comment: string, messageId: string)

  /** `leaked` are objects whose removal failed, `minted` all ids drawn so far. */
  datatype Sys = Sys(
    db: S.Db, objects: set<string>, leaked: set<string>, procs: seq<Proc>, minted: set<string>, sent: seq<Sent>)

  const START := Sys(S.EMPTY, {}, {}, [], {}, [])

  datatype Event =
    | Deliver(mail: Mail)
    | Erase(tenant: string, id: string, isComment: bool)
    | Post(tenant: string, ticket: string, commentId: string, uuid: string, domain: string)
    | Look(p: nat, fault: bool)
    | Matched(p: nat, ticket: string, drop: bool, newId: string, fault: bool)
    | Put(p: nat, newId: string, fault: bool)
    | WriteRow(p: nat, newId: string, now: Time, fault: bool)
    | Remove(p: nat, key: string, fault: bool)
    | WriteFile(p: nat, now: Time, fault: bool)
    | Purge(p: nat, fault: bool)
    | WritePost(p: nat, body: string, author: string, now: Time, fault: bool)
    | Send(p: nat)
    | Other(op: S.Op)

  // ---------------------------------------------------------------- rows and look-ups

  function NewTicket(m: Mail, id: string): Ticket {
    Ticket(id, m.tenant, if m.subject == "" then NO_SUBJECT else m.subject, m.text, m.html, STATUS_OPEN,
           PRIORITY_NORMAL, SOURCE_EMAIL, m.fromEmail, m.fromName, m.recipient, m.mailbox, m.messageId, "", "", 0, "",
           "inbound", ZERO_TIME, ZERO_TIME, None)
  }

  function NewReply(m: Mail, ticket: string, id: string): Comment {
    Comment(id, m.tenant, ticket, if m.text == "" then "(empty message)" else m.text, false, "requester", "",
            m.fromName, m.fromEmail, m.messageId, DELIVERY_NONE, ZERO_TIME)
  }

  function Staged(m: Mail, ticket: string, f: File, id: string): Attachment {
    Attachment(id, m.tenant, ticket, "", f.filename, f.contentType, f.size, f.contentId, f.inlined,
               AttachmentKey(m.tenant, ticket, id), f.checksum, ZERO_TIME)
  }

  function OutboundId(ticket: string, uuid: string, domain: string): string {
    "ticket." + ticket + "." + uuid + "@" + domain
  }

  predicate CommentIs(comments: map<string, Comment>, k: string, tenant: string, messageId: string) {
    k in comments && comments[k].tenant == tenant && comments[k].messageId == messageId
  }

  predicate RootIs(tickets: map<string, Ticket>, k: string, tenant: string, externalId: string) {
    k in tickets && tickets[k].tenant == tenant && tickets[k].externalId == externalId
  }

  /** The rows that look-ups by message id and by external id find. */
  ghost function FindComment(db: S.Db, tenant: string, messageId: string): (r: Option<Comment>)
    ensures r.Some? <==> messageId != "" && exists k :: CommentIs(db.comments, k, tenant, messageId)
    ensures r.Some? ==> exists k :: CommentIs(db.comments, k, tenant, messageId) && r.value == db.comments[k]
  {
    if messageId != "" && exists k :: CommentIs(db.comments, k, tenant, messageId) then
      var k :| CommentIs(db.comments, k, tenant, messageId);
      Some(db.comments[k])
    else None
  }

  ghost function FindRoot(db: S.Db, tenant: string, externalId: string): (r: Option<Ticket>)
    ensures r.Some? <==> externalId != "" && exists k :: RootIs(db.tickets, k, tenant, externalId)
    ensures r.Some? ==> exists k :: RootIs(db.tickets, k, tenant, externalId) && r.value == db.tickets[k]
  {
    if externalId != "" && exists k :: RootIs(db.tickets, k, tenant, externalId) then
      var k :| RootIs(db.tickets, k, tenant, externalId);
      Some(db.tickets[k])
    else None
  }

  // -------------------------------------------------------------------------- steps

  ghost function Looked(db: S.Db, m: Mail, phase: Phase, fault: bool): Phase {
    match phase
    case LookComment =>
      if m.messageId == "" then Match(false)
      else if fault then Finished(Failed)
      else
        var c := FindComment(db, m.tenant, m.messageId);
        if c.Some? then Finished(Duplicate(c.value.ticket)) else LookTicket
    case LookTicket =>
      if fault then Finished(Failed)
      else
        var t := FindRoot(db, m.tenant, m.messageId);
        if t.Some? then Finished(Duplicate(t.value.id)) else Match(false)
    case LookAgain =>
      var t := FindRoot(db, m.tenant, m.messageId);
      if fault || t.None? then Finished(Failed) else Finished(Duplicate(t.value.id))
    case _ => phase
  }

  function Resumed(next: After): Phase {
    match next
    case ThenFail => Finished(Failed)
    case ThenDuplicate(ticket) => Finished(Duplicate(ticket))
    case ThenLookAgain => LookAgain
    case ThenNewTicket => Match(true)
  }

  function Guarded(fault: bool, db: S.Db, r: S.Step): S.Step { if fault then S.Step(db, S.Fault) else r }

  /** The row of an ingestion, and where it goes from there. */
  function RowWritten(db: S.Db, m: Mail, reply: bool, ticket: string, id: string, now: Time,
                      fault: bool): (S.Db, Phase) {
    if reply then
      var r := Guarded(fault, db, S.CreateComment(db, NewReply(m, ticket, id), now));
      (r.db, match r.out
             case Done => Record(id, Threaded(ticket), false)
             case Conflict => Discard(ThenDuplicate(ticket))
             case NotFound => Discard(ThenNewTicket)
             case _ => Discard(ThenFail))
    else
      var r := Guarded(fault, db, S.CreateTicket(db, NewTicket(m, ticket), now));
      (r.db, if r.out == S.Done then Record("", Created(ticket), false)
             else if r.out == S.Conflict && m.messageId != "" then Discard(ThenLookAgain)
             else Discard(ThenFail))
  }

  predicate Unused(y: Sys, id: string) { id !in y.minted && |id| == 36 }

  function SetProc(y: Sys, p: nat, pr: Proc): Sys
    requires p < |y.procs|
  {
    y.(procs := y.procs[p := pr])
  }

  /** Store calls of everyone else: they neither create nor cascade over attachment rows. */
  predicate Quiet(op: S.Op) {
    !op.OpDeleteTicket? && !op.OpDeleteComment? && !op.OpCreateAttachment? && !op.OpDeleteAttachments?
  }

  predicate Permitted(y: Sys, op: S.Op) {
    Quiet(op) && (op.OpCreateTicket? ==> op.t.commentCount == 0) && (op.OpCreateComment? ==> Unused(y, op.c.id))
  }

  function Minted(y: Sys, op: S.Op): set<string> { if op.OpCreateComment? then {op.c.id} else {} }

  /** One object removed, or left behind when the call fails. */
  function Removed(y: Sys, key: string, fault: bool): Sys {
    if fault then y.(leaked := y.leaked + {key}) else y.(objects := y.objects - {key})
  }

  predicate Busy(y: Sys, p: nat) { p < |y.procs| && y.procs[p].Inbound? }

  function PutFile(y: Sys, p: nat, id: string, fault: bool): Sys
    requires Busy(y, p)
  {
    var pr := y.procs[p];
    if !pr.phase.Upload? || |pr.staged| >= |pr.mail.files| || !Unused(y, id) then y
    else if fault then SetProc(y, p, pr.(phase := Discard(ThenFail)))
    else
      var a := Staged(pr.mail, pr.phase.ticket, pr.mail.files[|pr.staged|], id);
      SetProc(y.(objects := y.objects + {a.storageKey}, minted := y.minted + {id}), p, pr.(staged := pr.staged + [a]))
  }

  function WriteMain(y: Sys, p: nat, id: string, now: Time, fault: bool): Sys
    requires Busy(y, p)
  {
    var pr := y.procs[p];
    if !pr.phase.Upload? || |pr.staged| < |pr.mail.files| || !Unused(y, id) then y
    else
      var (db, phase) := RowWritten(y.db, pr.mail, pr.phase.reply, pr.phase.ticket, id, now, fault);
      SetProc(y.(db := db, minted := y.minted + {id}), p, pr.(phase := phase, wrote := phase.Record?))
  }

  function RemoveObject(y: Sys, p: nat, key: string, fault: bool): Sys
    requires p < |y.procs|
  {
    match y.procs[p]
    case Inbound(m, phase, staged, wrote) =>
      if phase.Discard? && staged == [] then SetProc(y, p, Inbound(m, Resumed(phase.next), [], wrote))
      else if staged != [] && (phase.Discard? || (phase.Record? && phase.failed)) then
        SetProc(Removed(y, staged[0].storageKey, fault), p,
                Inbound(m, if phase.Record? then phase.(failed := false) else phase, staged[1..], wrote))
      else y
    case Eraser(tenant, id, isComment, ran, doomed) =>
      if key in doomed then SetProc(Removed(y, key, fault), p, Eraser(tenant, id, isComment, ran, doomed - {key}))
      else y
    case Poster(_, _, _) => y
  }

  function WriteNext(y: Sys, p: nat, now: Time, fault: bool): Sys
    requires Busy(y, p)
  {
    var pr := y.procs[p];
    if !pr.phase.Record? || pr.phase.failed then y
    else if pr.staged == [] then SetProc(y, p, pr.(phase := Finished(pr.phase.answer)))
    else
      var r := Guarded(fault, y.db, S.CreateAttachment(y.db, pr.staged[0].(comment := pr.phase.comment), now));
      if r.out == S.Done then SetProc(y.(db := r.db), p, pr.(staged := pr.staged[1..]))
      else SetProc(y, p, pr.(phase := pr.phase.(failed := true)))
  }

  function PurgeRows(y: Sys, p: nat, fault: bool): Sys
    requires p < |y.procs|
  {
    match y.procs[p]
    case Eraser(tenant, id, isComment, false, doomed) =>
      var r := if fault then S.Purge(y.db, S.Fault, {})
               else if isComment then S.DeleteComment(y.db, tenant, id) else S.DeleteTicket(y.db, tenant, id);
      SetProc(y.(db := r.db), p, Eraser(tenant, id, isComment, true, doomed + r.keys))
    case _ => y
  }

  function PostRow(l: Sent, body: string, author: string): Comment {
    Comment(l.comment, l.tenant, l.ticket, body, false, author, "", "", "", l.messageId, DELIVERY_NONE, ZERO_TIME)
  }

  function RecordPost(y: Sys, p: nat, body: string, author: string, now: Time, fault: bool): Sys
    requires p < |y.procs|
  {
    match y.procs[p]
    case Poster(letter, false, false) =>
      var r := Guarded(fault, y.db, S.CreateComment(y.db, PostRow(letter, body, author), now));
      SetProc(y.(db := r.db), p, Poster(letter, r.out == S.Done, r.out != S.Done))
    case _ => y
  }

  /** One step of one process; a step that is not the process's next one does nothing. */
  ghost function Next(cs: Casing, y: Sys, e: Event): Sys {
    match e
    case Deliver(m) => y.(procs := y.procs + [Inbound(m, LookComment, [], false)])
    case Erase(tenant, id, isComment) => y.(procs := y.procs + [Eraser(tenant, id, isComment, false, {})])
    case Post(tenant, ticket, commentId, uuid, domain) =>
      if !Unused(y, commentId) then y
      else
        y.(minted := y.minted + {commentId},
           procs := y.procs + [Poster(Sent(tenant, ticket, commentId, OutboundId(ticket, uuid, domain)), false, false)])
    case Look(p, fault) =>
      if Busy(y, p) then
        var pr := y.procs[p];
        SetProc(y, p, pr.(phase := Looked(y.db, pr.mail, pr.phase, fault)))
      else y
    case Matched(p, ticket, drop, newId, fault) =>
      if Busy(y, p) && y.procs[p].phase.Match? && Unused(y, newId) then
        var pr := y.procs[p];
        var phase := if pr.phase.gone then (if drop then Finished(Dropped) else Upload(false, newId))
                     else if fault then Finished(Failed)
                     else if ticket != "" then Upload(true, ticket)
                     else if drop then Finished(Dropped)
                     else Upload(false, newId);
        SetProc(y.(minted := y.minted + {newId}), p, pr.(phase := phase))
      else y
    case Put(p, newId, fault) => if Busy(y, p) then PutFile(y, p, newId, fault) else y
    case WriteRow(p, newId, now, fault) => if Busy(y, p) then WriteMain(y, p, newId, now, fault) else y
    case Remove(p, key, fault) => if p < |y.procs| then RemoveObject(y, p, key, fault) else y
    case WriteFile(p, now, fault) => if Busy(y, p) then WriteNext(y, p, now, fault) else y
    case Purge(p, fault) => if p < |y.procs| then PurgeRows(y, p, fault) else y
    case WritePost(p, body, author, now, fault) =>
      if p < |y.procs| then RecordPost(y, p, body, author, now, fault) else y
    case Send(p) =>
      if p < |y.procs| && y.procs[p].Poster? && y.procs[p].recorded && !y.procs[p].done then
        SetProc(y.(sent := y.sent + [y.procs[p].letter]), p, y.procs[p].(done := true))
      else y
    case Other(op) =>
      if Permitted(y, op) then y.(db := S.Apply(cs, y.db, op), minted := y.minted + Minted(y, op)) else y
  }

  ghost predicate IsRun(cs: Casing, states: seq<Sys>, events: seq<Event>) {
    |states| == |events| + 1 && states[0] == START &&
    forall i :: 0 <= i < |events| ==> states[i + 1] == Next(cs, states[i], events[i])
  }
}
