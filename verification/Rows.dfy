/** The helpdesk's rows and constants: one datatype per table of the tenant store. */
module Rows {

  datatype Option<+T> = None | Some(value: T)

  /** Instants; zero is the zero time, which the store replaces by its clock. */
  type Time = int
  const ZERO_TIME: Time := 0

  function OrNow(t: Time, now: Time): Time { if t == ZERO_TIME then now else t }

  const STATUS_OPEN := "open"
  const STATUS_RESOLVED := "resolved"
  const STATUS_CLOSED := "closed"
  const STATUSES := [STATUS_OPEN, "in_progress", "pending", STATUS_RESOLVED, STATUS_CLOSED]
  const PRIORITY_NORMAL := "normal"
  const PRIORITIES := ["low", PRIORITY_NORMAL, "high", "urgent"]
  const SOURCE_MANUAL := "manual"
  const SOURCE_EMAIL := "email"
  const DELIVERY_NONE := "none"
  const DELIVERY_SENT := "sent"
  const DELIVERY_FAILED := "failed"
  const ACTOR_INBOUND := "inbound"
  const ACTOR_RULE := "rule"
  const INBOUND_ACTOR_ID := "inbound-mail"
  const KIND_TAG := "tag"
  const MATCH_ALL := "all"
  const MATCH_ANY := "any"
  const FIELD_STATUS := "status"
  const FIELD_PRIORITY := "priority"
  const FIELD_ASSIGNEE := "assignee"
  const NO_SUBJECT := "(no subject)"

  datatype Ticket = Ticket(
    id: string, tenant: string, subject: string, description: string, bodyHTML: string,
    status: string, priority: string, source: string, requesterEmail: string, requesterName: string,
    recipient: string, mailbox: string, externalId: string, assignee: string, assigneeName: string,
    commentCount: int, lastMessage: string, createdBy: string,
    createdAt: Time, updatedAt: Time, resolvedAt: Option<Time>)

  datatype Comment = Comment(
    id: string, tenant: string, ticket: string, body: string, isInternal: bool, authorKind: string,
    authorId: string, authorName: string, authorEmail: string, messageId: string, delivery: string,
    createdAt: Time)

  datatype Attachment = Attachment(
    id: string, tenant: string, ticket: string, comment: string, filename: string, contentType: string,
    size: int, contentId: string, inlined: bool, storageKey: string, checksum: string, createdAt: Time)

  datatype Tag = Tag(
    id: string, tenant: string, name: string, kind: string, color: string, description: string,
    createdAt: Time)

  datatype TagLink = TagLink(tenant: string, ticket: string, tag: string)

  datatype Condition = Condition(field: string, operator: string, value: string)

  datatype Action = Action(
    kind: string, tagKind: string, tagNames: seq<string>, assignee: string, status: string, priority: string)

  datatype Rule = Rule(
    id: string, tenant: string, name: string, enabled: bool, sortOrder: int, combine: string,
    conditions: seq<Condition>, expression: string, actions: seq<Action>, version: int,
    createdAt: Time, updatedAt: Time)

  datatype Mailbox = Mailbox(
    id: string, tenant: string, address: string, displayName: string, active: bool, autoAck: bool,
    autoAckTemplate: string, createdAt: Time, updatedAt: Time)

  datatype History = History(
    id: string, tenant: string, ticket: string, field: string, oldValue: string, newValue: string,
    actorKind: string, actorId: string, createdAt: Time)

  /** A partial update; None leaves the field unchanged. */
  datatype Patch = Patch(subject: Option<string>, description: Option<string>, priority: Option<string>)

  /** The object key of an attachment: tenant-prefixed, never derived from the file name. */
  function AttachmentKey(tenant: string, ticket: string, attachment: string): string {
    "tenants/" + tenant + "/tickets/" + ticket + "/" + attachment
  }
}
