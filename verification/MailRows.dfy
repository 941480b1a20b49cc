/**
 * What the rows of an ingested message say (internal/inbound/inbound.go, internal/inbound/ack.go), field by field
 * against the message.
 */
module MailRows {
  import opened Rows
  import opened Pipeline
  import S = Store

  /** A ticket that says what the message says; triage, comments and agents may change the fields not named here. */
  predicate TicketTells(t: Ticket, m: Mail, id: string, now: Time) {
    t.id == id && t.tenant == m.tenant && t.subject == (if m.subject == "" then "(no subject)" else m.subject) &&
    t.description == m.text && t.bodyHTML == m.html && t.source == "email" && t.requesterEmail == m.fromEmail &&
    t.requesterName == m.fromName && t.recipient == m.recipient && t.mailbox == m.mailbox &&
    t.externalId == m.messageId && t.createdBy == "inbound" && t.createdAt == now
  }

  /** A ticket nobody has worked on. */
  predicate Untouched(t: Ticket) {
    t.status == "open" && t.priority == "normal" && t.assignee == "" && t.assigneeName == "" && t.resolvedAt.None? &&
    t.commentCount == 0 && t.lastMessage == ""
  }

  /** A public comment by the requester that says what the message says. */
  predicate ReplyTells(c: Comment, m: Mail, ticket: string, now: Time) {
    c.tenant == m.tenant && c.ticket == ticket && c.body == (if m.text == "" then "(empty message)" else m.text) &&
    !c.isInternal && c.authorKind == "requester" && c.authorId == "" && c.authorName == m.fromName &&
    c.authorEmail == m.fromEmail && c.messageId == m.messageId && c.delivery == "none" && c.createdAt == now
  }

  /** A public comment by the system that records the acknowledgement and whether it was sent. */
  predicate AckTells(c: Comment, tenant: string, ticket: string, body: string, messageId: string, delivered: bool,
                     now: Time) {
    c.tenant == tenant && c.ticket == ticket && c.body == body && !c.isInternal && c.authorKind == "system" &&
    c.authorId == "inbound-mail" && c.authorName == "Auto-acknowledgement" && c.authorEmail == "" &&
    c.messageId == messageId && c.delivery == (if delivered then "sent" else "failed") && c.createdAt == now
  }

  /** An internal comment by the system about what was not stored. */
  predicate NoteTells(c: Comment, tenant: string, ticket: string, note: string, now: Time) {
    c.tenant == tenant && c.ticket == ticket && c.body == note && c.isInternal && c.authorKind == "system" &&
    c.authorId == "" && c.authorName == "Inbound mail" && c.authorEmail == "" && c.messageId == "" &&
    c.delivery == "none" && c.createdAt == now
  }

  /** An attachment row of a ticket, or of one of its comments, for a file, under its own object key. */
  predicate FileTells(a: Attachment, id: string, tenant: string, ticket: string, comment: string, f: File) {
    a.id == id && a.tenant == tenant && a.ticket == ticket && a.comment == comment && a.filename == f.filename &&
    a.contentType == f.contentType && a.size == f.size && a.contentId == f.contentId && a.inlined == f.inlined &&
    a.checksum == f.checksum && a.storageKey == "tenants/" + tenant + "/tickets/" + ticket + "/" + id
  }

  lemma NewTicketTells(m: Mail, id: string, now: Time)
    ensures var t := S.Opened(NewTicket(m, id), now); TicketTells(t, m, id, now) && Untouched(t)
  {
  }

  lemma NewReplyTells(m: Mail, ticket: string, id: string, now: Time)
    ensures ReplyTells(S.Written(NewReply(m, ticket, id), now), m, ticket, now)
  {
  }
}
