/**
 * The tenant store as a value: seven tables, the tag links and the history, and what each operation
 * of the store does to them. Lookups that the store performs by scanning a table are stated as
 * existence; cascades are stated as filters. The class in Mem.dfy performs the scans and the cascades
 * step by step and is proved against these functions.
 */
module Store {
  import opened Rows
  import opened Text

  datatype Outcome = Done | NotFound | Conflict | NotEmpty | Fault

  datatype Db = Db(
    tickets: map<string, Ticket>,
    comments: map<string, Comment>,
    attachments: map<string, Attachment>,
    tags: map<string, Tag>,
    links: map<string, set<string>>,
    rules: map<string, Rule>,
    mailboxes: map<string, Mailbox>,
    history: seq<History>)

  const EMPTY := Db(map[], map[], map[], map[], map[], map[], map[], [])

  datatype Step = Step(db: Db, out: Outcome)

  /** A delete also answers the object keys of the attachment rows it removed. */
  datatype Purge = Purge(db: Db, out: Outcome, keys: set<string>)

  // ---------------------------------------------------------------- tickets

  predicate HasTicket(s: Db, tenant: string, id: string) {
    id in s.tickets && s.tickets[id].tenant == tenant
  }

  predicate ExternalTaken(tickets: map<string, Ticket>, tenant: string, externalId: string) {
    exists k :: k in tickets && tickets[k].tenant == tenant && tickets[k].externalId == externalId
  }

  predicate MailboxKnown(mailboxes: map<string, Mailbox>, tenant: string, id: string) {
    id in mailboxes && mailboxes[id].tenant == tenant
  }

  /** The row a create writes: unset times and enumerations take their defaults. */
  function Opened(t: Ticket, now: Time): Ticket {
    var created := OrNow(t.createdAt, now);
    t.(createdAt := created,
       updatedAt := OrNow(t.updatedAt, created),
       status := if t.status == "" then STATUS_OPEN else t.status,
       priority := if t.priority == "" then PRIORITY_NORMAL else t.priority,
       source := if t.source == "" then SOURCE_MANUAL else t.source)
  }

  function CreateTicket(s: Db, t: Ticket, now: Time): Step {
    if t.id in s.tickets then Step(s, Conflict)
    else if t.externalId != "" && ExternalTaken(s.tickets, t.tenant, t.externalId) then Step(s, Conflict)
    else if t.mailbox != "" && !MailboxKnown(s.mailboxes, t.tenant, t.mailbox) then Step(s, NotFound)
    else Step(s.(tickets := s.tickets[t.id := Opened(t, now)]), Done)
  }

  function Patched(t: Ticket, p: Patch, at: Time): Ticket {
    t.(subject := if p.subject.Some? then p.subject.value else t.subject,
       description := if p.description.Some? then p.description.value else t.description,
       priority := if p.priority.Some? then p.priority.value else t.priority,
       updatedAt := at)
  }

  function UpdateTicket(s: Db, tenant: string, id: string, p: Patch, at: Time, now: Time): Step {
    if !HasTicket(s, tenant, id) then Step(s, NotFound)
    else Step(s.(tickets := s.tickets[id := Patched(s.tickets[id], p, OrNow(at, now))]), Done)
  }

  function SetAssignee(s: Db, tenant: string, id: string, assignee: string, name: string, at: Time, now: Time): Step {
    if !HasTicket(s, tenant, id) then Step(s, NotFound)
    else
      var t := s.tickets[id].(assignee := assignee, updatedAt := OrNow(at, now),
                              assigneeName := if assignee == "" then "" else name);
      Step(s.(tickets := s.tickets[id := t]), Done)
  }

  /** Entering "resolved" stamps the resolution time; every other status clears it. */
  function Moved(t: Ticket, status: string, at: Time): Ticket {
    t.(status := status, updatedAt := at,
       resolvedAt := if status != STATUS_RESOLVED then None
                     else if t.status != STATUS_RESOLVED || t.resolvedAt.None? then Some(at)
                     else t.resolvedAt)
  }

  function SetStatus(s: Db, tenant: string, id: string, status: string, at: Time, now: Time): Step {
    if !HasTicket(s, tenant, id) then Step(s, NotFound)
    else Step(s.(tickets := s.tickets[id := Moved(s.tickets[id], status, OrNow(at, now))]), Done)
  }

  function HistoryWithout(h: seq<History>, ticket: string): seq<History> {
    if h == [] then []
    else if h[|h| - 1].ticket == ticket then HistoryWithout(h[..|h| - 1], ticket)
    else HistoryWithout(h[..|h| - 1], ticket) + [h[|h| - 1]]
  }

  function KeysOfTicket(attachments: map<string, Attachment>, ticket: string): set<string> {
    set k | k in attachments && attachments[k].ticket == ticket :: attachments[k].storageKey
  }

  /** The cascade matches on the ticket id alone, whatever the tenant of the child row. */
  function DeleteTicket(s: Db, tenant: string, id: string): Purge {
    if !HasTicket(s, tenant, id) then Purge(s, NotFound, {})
    else
      Purge(s.(tickets := s.tickets - {id},
               comments := map k | k in s.comments && s.comments[k].ticket != id :: s.comments[k],
               attachments := map k | k in s.attachments && s.attachments[k].ticket != id :: s.attachments[k],
               links := s.links - {id},
               history := HistoryWithout(s.history, id)),
            Done, KeysOfTicket(s.attachments, id))
  }

  // --------------------------------------------------------------- comments

  predicate MessageTaken(comments: map<string, Comment>, tenant: string, messageId: string) {
    exists k :: k in comments && comments[k].tenant == tenant && comments[k].messageId == messageId
  }

  function Written(c: Comment, now: Time): Comment {
    c.(createdAt := OrNow(c.createdAt, now), delivery := if c.delivery == "" then DELIVERY_NONE else c.delivery)
  }

  /** A new comment counts on its ticket and moves the ticket's thread when it is public. */
  function Commented(t: Ticket, c: Comment): Ticket {
    t.(commentCount := t.commentCount + 1, updatedAt := c.createdAt,
       lastMessage := if c.messageId != "" && !c.isInternal then c.messageId else t.lastMessage)
  }

  function CreateComment(s: Db, c: Comment, now: Time): Step {
    if !HasTicket(s, c.tenant, c.ticket) then Step(s, NotFound)
    else if c.id in s.comments then Step(s, Conflict)
    else if c.messageId != "" && MessageTaken(s.comments, c.tenant, c.messageId) then Step(s, Conflict)
    else
      var row := Written(c, now);
      var t := Commented(s.tickets[c.ticket], row);
      Step(s.(comments := s.comments[c.id := row], tickets := s.tickets[t.id := t]), Done)
  }

  predicate HasComment(s: Db, tenant: string, id: string) {
    id in s.comments && s.comments[id].tenant == tenant
  }

  function SetDelivery(s: Db, tenant: string, id: string, delivery: string): Step {
    if !HasComment(s, tenant, id) then Step(s, NotFound)
    else Step(s.(comments := s.comments[id := s.comments[id].(delivery := delivery)]), Done)
  }

  function KeysOfComment(attachments: map<string, Attachment>, comment: string): set<string> {
    set k | k in attachments && attachments[k].comment == comment :: attachments[k].storageKey
  }

  function Uncommented(tickets: map<string, Ticket>, id: string): map<string, Ticket> {
    if id in tickets && tickets[id].commentCount > 0 then
      var t := tickets[id].(commentCount := tickets[id].commentCount - 1);
      tickets[t.id := t]
    else tickets
  }

  function DeleteComment(s: Db, tenant: string, id: string): Purge {
    if !HasComment(s, tenant, id) then Purge(s, NotFound, {})
    else
      Purge(s.(attachments := map k | k in s.attachments && s.attachments[k].comment != id :: s.attachments[k],
               comments := s.comments - {id},
               tickets := Uncommented(s.tickets, s.comments[id].ticket)),
            Done, KeysOfComment(s.attachments, id))
  }

  // ------------------------------------------------------------ attachments

  predicate KeyTaken(attachments: map<string, Attachment>, key: string) {
    exists k :: k in attachments && attachments[k].storageKey == key
  }

  predicate CommentMatches(comments: map<string, Comment>, a: Attachment) {
    a.comment in comments && comments[a.comment].tenant == a.tenant && comments[a.comment].ticket == a.ticket
  }

  function CreateAttachment(s: Db, a: Attachment, now: Time): Step {
    if !HasTicket(s, a.tenant, a.ticket) then Step(s, NotFound)
    else if a.comment != "" && !CommentMatches(s.comments, a) then Step(s, NotFound)
    else if a.id in s.attachments || KeyTaken(s.attachments, a.storageKey) then Step(s, Conflict)
    else Step(s.(attachments := s.attachments[a.id := a.(createdAt := OrNow(a.createdAt, now))]), Done)
  }

  predicate HasAttachment(s: Db, tenant: string, ticket: string, id: string) {
    id in s.attachments && s.attachments[id].tenant == tenant && s.attachments[id].ticket == ticket
  }

  function DeleteAttachments(s: Db, tenant: string, ticket: string): Purge {
    Purge(s.(attachments := map k | k in s.attachments &&
                                    !(s.attachments[k].tenant == tenant && s.attachments[k].ticket == ticket)
                              :: s.attachments[k]),
          Done,
          set k | k in s.attachments && s.attachments[k].tenant == tenant && s.attachments[k].ticket == ticket
            :: s.attachments[k].storageKey)
  }

  // ------------------------------------------------------------------- tags

  predicate NameTaken(cs: Casing, tags: map<string, Tag>, t: Tag) {
    exists k :: k in tags && tags[k].id != t.id && tags[k].tenant == t.tenant && tags[k].kind == t.kind &&
                cs.fold(tags[k].name) == cs.fold(t.name)
  }

  function CreateTag(cs: Casing, s: Db, t: Tag, now: Time): Step {
    var t := t.(kind := if t.kind == "" then KIND_TAG else t.kind);
    if t.id in s.tags || NameTaken(cs, s.tags, t) then Step(s, Conflict)
    else Step(s.(tags := s.tags[t.id := t.(createdAt := OrNow(t.createdAt, now))]), Done)
  }

  predicate HasTag(s: Db, tenant: string, id: string) {
    id in s.tags && s.tags[id].tenant == tenant
  }

  function UpdateTag(cs: Casing, s: Db, t: Tag): Step {
    if !HasTag(s, t.tenant, t.id) then Step(s, NotFound)
    else
      var t := t.(kind := s.tags[t.id].kind, createdAt := s.tags[t.id].createdAt);
      if NameTaken(cs, s.tags, t) then Step(s, Conflict)
      else Step(s.(tags := s.tags[t.id := t]), Done)
  }

  function LinksWithout(links: map<string, set<string>>, tag: string): map<string, set<string>> {
    map k | k in links :: links[k] - {tag}
  }

  function DeleteTag(s: Db, tenant: string, id: string): Step {
    if !HasTag(s, tenant, id) then Step(s, NotFound)
    else Step(s.(tags := s.tags - {id}, links := LinksWithout(s.links, id)), Done)
  }

  predicate TagsKnown(s: Db, tenant: string, tags: seq<string>) {
    forall g :: g in tags ==> HasTag(s, tenant, g)
  }

  function SetTicketTags(s: Db, tenant: string, ticket: string, tags: seq<string>): Step {
    if !HasTicket(s, tenant, ticket) || !TagsKnown(s, tenant, tags) then Step(s, NotFound)
    else Step(s.(links := s.links[ticket := set g | g in tags]), Done)
  }

  function Linked(links: map<string, set<string>>, ticket: string): set<string> {
    if ticket in links then links[ticket] else {}
  }

  function AddTicketTags(s: Db, tenant: string, ticket: string, tags: seq<string>): Step {
    if !HasTicket(s, tenant, ticket) || !TagsKnown(s, tenant, tags) then Step(s, NotFound)
    else Step(s.(links := s.links[ticket := Linked(s.links, ticket) + set g | g in tags]), Done)
  }

  /** The ids of the tags a ticket of the tenant shows. */
  function TagsOf(s: Db, tenant: string, ticket: string): set<string> {
    if HasTicket(s, tenant, ticket) then set g | g in Linked(s.links, ticket) && HasTag(s, tenant, g)
    else {}
  }

  // ------------------------------------------------------------------ rules

  function CreateRule(s: Db, r: Rule, now: Time): Step {
    if r.id in s.rules then Step(s, Conflict)
    else
      var created := OrNow(r.createdAt, now);
      var row := r.(createdAt := created, updatedAt := OrNow(r.updatedAt, created),
                    version := if r.version <= 0 then 1 else r.version,
                    combine := if r.combine == "" then MATCH_ALL else r.combine);
      Step(s.(rules := s.rules[r.id := row]), Done)
  }

  predicate HasRule(s: Db, tenant: string, id: string) {
    id in s.rules && s.rules[id].tenant == tenant
  }

  /** The version always steps from the stored row, never from the caller's copy. */
  function UpdateRule(s: Db, r: Rule, now: Time): Step {
    if !HasRule(s, r.tenant, r.id) then Step(s, NotFound)
    else
      var row := r.(createdAt := s.rules[r.id].createdAt, version := s.rules[r.id].version + 1, updatedAt := now,
                    combine := if r.combine == "" then MATCH_ALL else r.combine);
      Step(s.(rules := s.rules[r.id := row]), Done)
  }

  function DeleteRule(s: Db, tenant: string, id: string): Step {
    if !HasRule(s, tenant, id) then Step(s, NotFound)
    else Step(s.(rules := s.rules - {id}), Done)
  }

  // -------------------------------------------------------------- mailboxes

  function NormAddr(cs: Casing, a: string): string { cs.lower(TrimSpace(a)) }

  /** Addresses are unique across every tenant. */
  predicate AddressTaken(mailboxes: map<string, Mailbox>, id: string, address: string) {
    exists k :: k in mailboxes && mailboxes[k].id != id && mailboxes[k].address == address
  }

  function CreateMailbox(cs: Casing, s: Db, m: Mailbox, now: Time): Step {
    var m := m.(address := NormAddr(cs, m.address));
    if m.id in s.mailboxes || AddressTaken(s.mailboxes, m.id, m.address) then Step(s, Conflict)
    else
      var created := OrNow(m.createdAt, now);
      var row := m.(createdAt := created, updatedAt := OrNow(m.updatedAt, created));
      Step(s.(mailboxes := s.mailboxes[m.id := row]), Done)
  }

  function UpdateMailbox(cs: Casing, s: Db, m: Mailbox, now: Time): Step {
    if !MailboxKnown(s.mailboxes, m.tenant, m.id) then Step(s, NotFound)
    else
      var m := m.(address := NormAddr(cs, m.address));
      if AddressTaken(s.mailboxes, m.id, m.address) then Step(s, Conflict)
      else
        var row := m.(createdAt := s.mailboxes[m.id].createdAt, updatedAt := now);
        Step(s.(mailboxes := s.mailboxes[m.id := row]), Done)
  }

  predicate MailboxUsed(tickets: map<string, Ticket>, id: string) {
    exists k :: k in tickets && tickets[k].mailbox == id
  }

  function Unrouted(tickets: map<string, Ticket>, mailbox: string): map<string, Ticket> {
    map k | k in tickets :: if tickets[k].mailbox == mailbox then tickets[k].(mailbox := "") else tickets[k]
  }

  /** Tickets of any tenant that name the mailbox lose the reference. */
  function DeleteMailbox(s: Db, tenant: string, id: string, force: bool): Step {
    if !MailboxKnown(s.mailboxes, tenant, id) then Step(s, NotFound)
    else if MailboxUsed(s.tickets, id) && !force then Step(s, NotEmpty)
    else Step(s.(tickets := Unrouted(s.tickets, id), mailboxes := s.mailboxes - {id}), Done)
  }

  // ---------------------------------------------------------------- history

  function AppendHistory(s: Db, h: History, now: Time): Step {
    if !HasTicket(s, h.tenant, h.ticket) then Step(s, NotFound)
    else Step(s.(history := s.history + [h.(createdAt := OrNow(h.createdAt, now))]), Done)
  }

  // ------------------------------------------------------------- operations

  /** Every write of the store, with the clock reading and any minted id it draws. */
  datatype Op =
    | OpCreateTicket(t: Ticket, now: Time)
    | OpUpdateTicket(tenant: string, id: string, p: Patch, at: Time, now: Time)
    | OpSetAssignee(tenant: string, id: string, assignee: string, name: string, at: Time, now: Time)
    | OpSetStatus(tenant: string, id: string, status: string, at: Time, now: Time)
    | OpDeleteTicket(tenant: string, id: string)
    | OpCreateComment(c: Comment, now: Time)
    | OpSetDelivery(tenant: string, id: string, delivery: string)
    | OpDeleteComment(tenant: string, id: string)
    | OpCreateAttachment(a: Attachment, now: Time)
    | OpDeleteAttachments(tenant: string, id: string)
    | OpCreateTag(g: Tag, now: Time)
    | OpUpdateTag(g: Tag)
    | OpDeleteTag(tenant: string, id: string)
    | OpSetTicketTags(tenant: string, id: string, tags: seq<string>)
    | OpAddTicketTags(tenant: string, id: string, tags: seq<string>)
    | OpCreateRule(r: Rule, now: Time)
    | OpUpdateRule(r: Rule, now: Time)
    | OpDeleteRule(tenant: string, id: string)
    | OpCreateMailbox(m: Mailbox, now: Time)
    | OpUpdateMailbox(m: Mailbox, now: Time)
    | OpDeleteMailbox(tenant: string, id: string, force: bool)
    | OpAppendHistory(h: History, now: Time)

  function Owner(op: Op): string {
    match op
    case OpCreateTicket(t, _) => t.tenant
    case OpCreateComment(c, _) => c.tenant
    case OpCreateAttachment(a, _) => a.tenant
    case OpCreateTag(g, _) => g.tenant
    case OpUpdateTag(g) => g.tenant
    case OpCreateRule(r, _) => r.tenant
    case OpUpdateRule(r, _) => r.tenant
    case OpCreateMailbox(m, _) => m.tenant
    case OpUpdateMailbox(m, _) => m.tenant
    case OpAppendHistory(h, _) => h.tenant
    case _ => op.tenant
  }

  function Apply(cs: Casing, s: Db, op: Op): Db {
    match op
    case OpCreateTicket(t, now) => CreateTicket(s, t, now).db
    case OpUpdateTicket(tenant, id, p, at, now) => UpdateTicket(s, tenant, id, p, at, now).db
    case OpSetAssignee(tenant, id, a, n, at, now) => SetAssignee(s, tenant, id, a, n, at, now).db
    case OpSetStatus(tenant, id, status, at, now) => SetStatus(s, tenant, id, status, at, now).db
    case OpDeleteTicket(tenant, id) => DeleteTicket(s, tenant, id).db
    case OpCreateComment(c, now) => CreateComment(s, c, now).db
    case OpSetDelivery(tenant, id, d) => SetDelivery(s, tenant, id, d).db
    case OpDeleteComment(tenant, id) => DeleteComment(s, tenant, id).db
    case OpCreateAttachment(a, now) => CreateAttachment(s, a, now).db
    case OpDeleteAttachments(tenant, id) => DeleteAttachments(s, tenant, id).db
    case OpCreateTag(g, now) => CreateTag(cs, s, g, now).db
    case OpUpdateTag(g) => UpdateTag(cs, s, g).db
    case OpDeleteTag(tenant, id) => DeleteTag(s, tenant, id).db
    case OpSetTicketTags(tenant, id, tags) => SetTicketTags(s, tenant, id, tags).db
    case OpAddTicketTags(tenant, id, tags) => AddTicketTags(s, tenant, id, tags).db
    case OpCreateRule(r, now) => CreateRule(s, r, now).db
    case OpUpdateRule(r, now) => UpdateRule(s, r, now).db
    case OpDeleteRule(tenant, id) => DeleteRule(s, tenant, id).db
    case OpCreateMailbox(m, now) => CreateMailbox(cs, s, m, now).db
    case OpUpdateMailbox(m, now) => UpdateMailbox(cs, s, m, now).db
    case OpDeleteMailbox(tenant, id, force) => DeleteMailbox(s, tenant, id, force).db
    case OpAppendHistory(h, now) => AppendHistory(s, h, now).db
  }

  /** A run applies the operations in order. */
  function Run(cs: Casing, s: Db, ops: seq<Op>): Db {
    if ops == [] then s else Apply(cs, Run(cs, s, ops[..|ops| - 1]), ops[|ops| - 1])
  }
}
