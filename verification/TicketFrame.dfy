/** What a call on one ticket of one tenant may change, table by table. */
module TicketFrame {
  import opened Rows
  import opened Text
  import opened Store
  import opened StoreIsolation

  predicate Ours(tickets: map<string, Ticket>, tenant: string, ticket: string) {
    ticket in tickets && tickets[ticket].tenant == tenant
  }

  /** Only the tenant's ticket changes hands with its old self, or is new. */
  ghost predicate OneTicket(a: map<string, Ticket>, b: map<string, Ticket>, tenant: string, ticket: string) {
    (forall k :: k in a && (k != ticket || a[k].tenant != tenant) ==> k in b && b[k] == a[k]) &&
    (forall k :: k in b && k !in a ==> k == ticket && b[k].tenant == tenant) &&
    (Ours(a, tenant, ticket) ==> Ours(b, tenant, ticket))
  }

  /** No row is changed or lost, and every new one is of this kind. */
  ghost predicate Adds<V>(a: map<string, V>, b: map<string, V>, kind: V -> bool) {
    (forall k :: k in a ==> k in b && b[k] == a[k]) && (forall k :: k in b && k !in a ==> kind(b[k]))
  }

  function CommentOn(tenant: string, ticket: string): Comment -> bool {
    (c: Comment) => c.tenant == tenant && c.ticket == ticket
  }
  function FileOn(tenant: string, ticket: string): Attachment -> bool {
    (a: Attachment) => a.tenant == tenant && a.ticket == ticket
  }
  function TagFor(tenant: string): Tag -> bool { (g: Tag) => g.tenant == tenant }

  /** No other ticket's tags change, and this one loses none. */
  ghost predicate OneLinked(a: map<string, set<string>>, b: map<string, set<string>>, ticket: string) {
    Linked(a, ticket) <= Linked(b, ticket) && forall k :: k != ticket ==>
      (k in b <==> k in a) && (k in a ==> b[k] == a[k])
  }

  /** The history only grows, by rows of the ticket. */
  ghost predicate LogsOn(a: seq<History>, b: seq<History>, tenant: string, ticket: string) {
    a <= b && forall i :: |a| <= i < |b| ==> b[i].tenant == tenant && b[i].ticket == ticket
  }

  /**
   * The frame of a call on one ticket: every other ticket is as it was, at most this one is new, every new comment,
   * attachment and history row is on it, every new tag is the tenant's, and nothing else changes or goes.
   */
  ghost predicate Touches(a: Db, b: Db, tenant: string, ticket: string) {
    OneTicket(a.tickets, b.tickets, tenant, ticket) && Adds(a.comments, b.comments, CommentOn(tenant, ticket)) &&
    Adds(a.attachments, b.attachments, FileOn(tenant, ticket)) && Adds(a.tags, b.tags, TagFor(tenant)) &&
    OneLinked(a.links, b.links, ticket) && (b.links == a.links || Ours(b.tickets, tenant, ticket)) &&
    LogsOn(a.history, b.history, tenant, ticket) && b.rules == a.rules && b.mailboxes == a.mailboxes
  }

  lemma TouchesNothing(a: Db, tenant: string, ticket: string)
    ensures Touches(a, a, tenant, ticket)
  {
  }

  lemma TouchesTwice(a: Db, b: Db, c: Db, tenant: string, ticket: string)
    requires Touches(a, b, tenant, ticket) && Touches(b, c, tenant, ticket)
    ensures Touches(a, c, tenant, ticket)
  {
    AddsTwice(a.comments, b.comments, c.comments, CommentOn(tenant, ticket));
    AddsTwice(a.attachments, b.attachments, c.attachments, FileOn(tenant, ticket));
    AddsTwice(a.tags, b.tags, c.tags, TagFor(tenant));
    LogsTwice(a.history, b.history, c.history, tenant, ticket);
    OneTicketTwice(a.tickets, b.tickets, c.tickets, tenant, ticket);
    hide Adds, LogsOn, CommentOn, FileOn, TagFor, OneTicket;
  }

  lemma OneTicketTwice(a: map<string, Ticket>, b: map<string, Ticket>, c: map<string, Ticket>, tenant: string,
                       ticket: string)
    requires OneTicket(a, b, tenant, ticket) && OneTicket(b, c, tenant, ticket)
    ensures OneTicket(a, c, tenant, ticket) && (Ours(b, tenant, ticket) ==> Ours(c, tenant, ticket))
  {
  }

  lemma AddsTwice<V>(a: map<string, V>, b: map<string, V>, c: map<string, V>, kind: V -> bool)
    requires Adds(a, b, kind) && Adds(b, c, kind)
    ensures Adds(a, c, kind)
  {
  }

  lemma LogsTwice(a: seq<History>, b: seq<History>, c: seq<History>, tenant: string, ticket: string)
    requires LogsOn(a, b, tenant, ticket) && LogsOn(b, c, tenant, ticket)
    ensures LogsOn(a, c, tenant, ticket)
  {
    assert forall i :: 0 <= i < |b| ==> c[i] == b[i];
  }

  // ---------------------------------------------------------------------- single calls

  /** A ticket rewritten, its history grown. */
  lemma RowTouches(a: Db, b: Db, tenant: string, ticket: string, t: Ticket)
    requires Ours(a.tickets, tenant, ticket) && t.tenant == tenant && LogsOn(a.history, b.history, tenant, ticket)
    requires b == a.(tickets := a.tickets[ticket := t], history := b.history)
    ensures Touches(a, b, tenant, ticket)
  {
  }

  lemma NewTicketTouches(a: Db, t: Ticket, now: Time)
    ensures Touches(a, CreateTicket(a, t, now).db, t.tenant, t.id)
  {
    hide ExternalTaken, MailboxKnown;
    TouchesNothing(a, t.tenant, t.id);
    var b := CreateTicket(a, t, now).db;
    assert b == a || b == a.(tickets := a.tickets[t.id := Opened(t, now)]);
  }

  lemma CommentTouches(a: Db, c: Comment, now: Time)
    requires c.ticket in a.tickets ==> a.tickets[c.ticket].id == c.ticket
    ensures Touches(a, CreateComment(a, c, now).db, c.tenant, c.ticket)
  {
    hide MessageTaken;
    TouchesNothing(a, c.tenant, c.ticket);
  }

  /** A comment that came with the change may still take its delivery state. */
  lemma DeliveryTouches(a: Db, b: Db, tenant: string, ticket: string, id: string, delivery: string)
    requires Touches(a, b, tenant, ticket) && id !in a.comments
    ensures Touches(a, SetDelivery(b, tenant, id, delivery).db, tenant, ticket)
  {
    hide OneTicket, OneLinked, LogsOn, FileOn, TagFor, Ours;
  }

  lemma LinksTouch(a: Db, tenant: string, ticket: string, tags: seq<string>)
    ensures Touches(a, AddTicketTags(a, tenant, ticket, tags).db, tenant, ticket)
  {
    hide TagsKnown;
    TouchesNothing(a, tenant, ticket);
  }

  lemma TagsTouch(a: Db, b: Db, tenant: string, ticket: string)
    requires b == a.(tags := b.tags) && Adds(a.tags, b.tags, TagFor(tenant))
    ensures Touches(a, b, tenant, ticket)
  {
  }

  lemma FileTouches(a: Db, f: Attachment, now: Time)
    ensures Touches(a, CreateAttachment(a, f, now).db, f.tenant, f.ticket)
  {
    hide KeyTaken, CommentMatches;
    TouchesNothing(a, f.tenant, f.ticket);
  }

  // ------------------------------------------------------------------------- isolation

  lemma AddsIsolate<V>(a: map<string, V>, b: map<string, V>, kind: V -> bool, owner: V -> string, other: string)
    requires Adds(a, b, kind) && forall v :: kind(v) ==> owner(v) != other
    ensures Mine(b, owner, other) == Mine(a, owner, other)
  {
  }

  lemma TicketsIsolate(a: map<string, Ticket>, b: map<string, Ticket>, tenant: string, ticket: string, other: string)
    requires OneTicket(a, b, tenant, ticket) && other != tenant
    ensures Mine(b, TicketOwner, other) == Mine(a, TicketOwner, other)
    ensures forall k :: (k in b && b[k].tenant == other) <==> (k in a && a[k].tenant == other)
  {
    forall k ensures (k in b && b[k].tenant == other) <==> (k in a && a[k].tenant == other) {
      if k in b && k in a && k == ticket && a[k].tenant == tenant { assert Ours(b, tenant, ticket); }
    }
  }

  lemma LinksIsolate(a: Db, b: Db, tenant: string, ticket: string, other: string)
    requires OneLinked(a.links, b.links, ticket) && (b.links == a.links || Ours(b.tickets, tenant, ticket)) &&
             other != tenant
    requires forall k :: (k in b.tickets && b.tickets[k].tenant == other) <==>
               (k in a.tickets && a.tickets[k].tenant == other)
    ensures LinksOf(b.links, b.tickets, other) == LinksOf(a.links, a.tickets, other)
  {
  }

  lemma {:induction false} LogsIsolate(a: seq<History>, b: seq<History>, tenant: string, ticket: string, other: string)
    requires LogsOn(a, b, tenant, ticket) && other != tenant
    ensures HistoryOf(b, other) == HistoryOf(a, other)
  {
    if |a| < |b| {
      var n := |b| - 1;
      assert a <= b[..n];
      LogsIsolate(a, b[..n], tenant, ticket, other);
    } else {
      assert a == b;
    }
  }

  /** No other tenant notices. */
  lemma TouchesIsolates(a: Db, b: Db, tenant: string, ticket: string, other: string)
    requires Touches(a, b, tenant, ticket) && other != tenant
    ensures Of(b, other) == Of(a, other)
  {
    TicketsIsolate(a.tickets, b.tickets, tenant, ticket, other);
    LinksIsolate(a, b, tenant, ticket, other);
    AddsIsolate(a.comments, b.comments, CommentOn(tenant, ticket), CommentOwner, other);
    AddsIsolate(a.attachments, b.attachments, FileOn(tenant, ticket), AttachmentOwner, other);
    AddsIsolate(a.tags, b.tags, TagFor(tenant), TagOwner, other);
    LogsIsolate(a.history, b.history, tenant, ticket, other);
    hide Mine, LinksOf, HistoryOf, Adds, OneTicket;
  }
}
