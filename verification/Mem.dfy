/**
 * The in-memory store: tables held in maps and changed in place, unique guards and cascades done by
 * scanning. Every method is proved against the value-level operation of the same name; an armed failure
 * returns Fault and changes nothing.
 */
module Memstore {
  import opened Rows
  import opened Text
  import opened Listing
  import S = Store
  import V = StoreValid
  import L = StoreLaws

  /** Scans a table for a row that satisfies p. */
  method Find<R>(m: map<string, R>, p: R -> bool) returns (k: Option<string>)
    ensures k.Some? ==> k.value in m && p(m[k.value])
    ensures k.None? ==> forall j :: j in m ==> !p(m[j])
  {
    var rest := m.Keys;
    while rest != {}
      invariant rest <= m.Keys && forall j :: j in m && j !in rest ==> !p(m[j])
      decreases |rest|
    {
      var j :| j in rest;
      if p(m[j]) { return Some(j); }
      rest := rest - {j};
    }
    k := None;
  }

  /** Deletes the rows that satisfy p while iterating; gone holds each of them once. */
  method Sweep<R>(m: map<string, R>, p: R -> bool) returns (kept: map<string, R>, gone: seq<R>)
    ensures kept == map k | k in m && !p(m[k]) :: m[k]
    ensures forall r :: r in gone <==> exists k :: k in m && p(m[k]) && m[k] == r
  {
    kept, gone := m, [];
    var rest := m.Keys;
    while rest != {}
      invariant rest <= kept.Keys <= m.Keys && forall k :: k in kept ==> kept[k] == m[k]
      invariant forall k :: k in m ==> (k in kept <==> k in rest || !p(m[k]))
      invariant forall r :: r in gone <==> exists k :: k in m && k !in rest && p(m[k]) && m[k] == r
      decreases |rest|
    {
      var k :| k in rest;
      rest := rest - {k};
      if p(m[k]) {
        kept, gone := kept - {k}, gone + [m[k]];
      }
    }
  }

  /** The rows that satisfy p, each once per key, in no particular order. */
  method Collect<R>(m: map<string, R>, p: R -> bool) returns (rows: seq<R>)
    ensures forall r :: r in rows <==> exists k :: k in m && p(m[k]) && m[k] == r
  {
    var _, gone := Sweep(m, p);
    rows := gone;
  }

  function TextKey(s: string): Key { [Str(s)] }

  /** The rows of the tags a ticket shows, each once, in listing order. */
  ghost predicate TagRowsOf(cs: Casing, s: S.Db, tenant: string, id: string, rows: seq<Tag>) {
    Sorted(rows, TagKey(cs)) && |rows| == |S.TagsOf(s, tenant, id)| &&
    forall t :: t in rows <==> exists g :: g in S.TagsOf(s, tenant, id) && s.tags[g] == t
  }

  lemma Shuffled<T>(xs: seq<T>, ys: seq<T>)
    requires multiset(xs) == multiset(ys)
    ensures |xs| == |ys| && forall x :: x in xs <==> x in ys
  {
    assert |multiset(xs)| == |xs| && |multiset(ys)| == |ys|;
    assert forall x :: x in xs <==> x in multiset(xs);
    assert forall x :: x in ys <==> x in multiset(ys);
  }

  /** Sweeps attachment rows and answers their object keys in order. */
  method SweepAttachments(m: map<string, Attachment>, p: Attachment -> bool)
    returns (kept: map<string, Attachment>, keys: seq<string>)
    ensures kept == map k | k in m && !p(m[k]) :: m[k]
    ensures Sorted(keys, TextKey)
    ensures forall key :: key in keys <==> exists k :: k in m && p(m[k]) && m[k].storageKey == key
  {
    var gone;
    kept, gone := Sweep(m, p);
    var found := [];
    for i := 0 to |gone|
      invariant forall key :: key in found <==> exists j :: 0 <= j < i && gone[j].storageKey == key
    {
      found := found + [gone[i].storageKey];
    }
    keys := SortBy(found, TextKey);
    SortBySorts(found, TextKey);
    forall key ensures key in keys <==> exists k :: k in m && p(m[k]) && m[k].storageKey == key {
      assert key in keys <==> key in multiset(keys);
      assert key in found <==> key in multiset(found);
      if key in found {
        var j :| 0 <= j < |gone| && gone[j].storageKey == key;
        assert gone[j] in gone;
      }
      if k :| k in m && p(m[k]) && m[k].storageKey == key {
        assert m[k] in gone;
      }
    }
  }

  method SweepTicket(attachments: map<string, Attachment>, comments: map<string, Comment>, id: string)
    returns (files: map<string, Attachment>, keys: seq<string>, talk: map<string, Comment>)
    ensures files == map k | k in attachments && attachments[k].ticket != id :: attachments[k]
    ensures talk == map k | k in comments && comments[k].ticket != id :: comments[k]
    ensures Sorted(keys, TextKey) && (set k | k in keys) == S.KeysOfTicket(attachments, id)
  {
    hide Sorted;
    files, keys := SweepAttachments(attachments, (a: Attachment) => a.ticket == id);
    var gone;
    talk, gone := Sweep(comments, (c: Comment) => c.ticket == id);
  }

  method SweepComment(attachments: map<string, Attachment>, id: string)
    returns (files: map<string, Attachment>, keys: seq<string>)
    ensures files == map k | k in attachments && attachments[k].comment != id :: attachments[k]
    ensures Sorted(keys, TextKey) && (set k | k in keys) == S.KeysOfComment(attachments, id)
  {
    hide Sorted;
    files, keys := SweepAttachments(attachments, (a: Attachment) => a.comment == id);
  }

  method SweepHistory(history: seq<History>, id: string) returns (kept: seq<History>)
    ensures kept == S.HistoryWithout(history, id)
  {
    kept := [];
    for i := 0 to |history|
      invariant kept == S.HistoryWithout(history[..i], id)
    {
      assert history[..i + 1][..i] == history[..i];
      if history[i].ticket != id { kept := kept + [history[i]]; }
    }
    assert history[..|history|] == history;
  }

  /** Clears the mailbox of every ticket that names it. */
  method Unroute(tickets: map<string, Ticket>, id: string) returns (out: map<string, Ticket>)
    ensures out == S.Unrouted(tickets, id)
  {
    out := tickets;
    var rest := tickets.Keys;
    while rest != {}
      invariant rest <= tickets.Keys == out.Keys
      invariant forall k :: k in tickets ==> out[k] == if k in rest then tickets[k] else S.Unrouted(tickets, id)[k]
      decreases |rest|
    {
      var k :| k in rest;
      rest := rest - {k};
      if tickets[k].mailbox == id { out := out[k := out[k].(mailbox := "")]; }
    }
  }

  class Mem {
    const cs: Casing
    var tickets: map<string, Ticket>
    var comments: map<string, Comment>
    var attachments: map<string, Attachment>
    var tags: map<string, Tag>
    var links: map<string, set<string>>
    var rules: map<string, Rule>
    var mailboxes: map<string, Mailbox>
    var history: seq<History>
    var failNext: set<string>

    constructor (cs: Casing)
      ensures this.cs == cs && State() == S.EMPTY && failNext == {}
    {
      this.cs := cs;
      tickets, comments, attachments, tags, links := map[], map[], map[], map[], map[];
      rules, mailboxes, history, failNext := map[], map[], [], {};
    }

    function State(): S.Db
      reads this
    {
      S.Db(tickets, comments, attachments, tags, links, rules, mailboxes, history)
    }

    /** What a call does when a failure may be armed for it. */
    static function Guard(armed: bool, s: S.Db, r: S.Step): S.Step {
      if armed then S.Step(s, S.Fault) else r
    }

    static function GuardPurge(armed: bool, s: S.Db, r: S.Purge): S.Purge {
      if armed then S.Purge(s, S.Fault, {}) else r
    }

    method Fail(name: string) returns (armed: bool)
      modifies this`failNext
      ensures armed == (name in old(failNext)) && failNext == old(failNext) - {name}
    {
      armed := name in failNext;
      failNext := failNext - {name};
    }

    // -------------------------------------------------------------- tickets

    method PutTicket(t: Ticket, now: Time) returns (out: S.Outcome)
      modifies this`tickets
      ensures S.Step(State(), out) == S.CreateTicket(old(State()), t, now)
    {
      if t.id in tickets { return S.Conflict; }
      if t.externalId != "" {
        var x := Find(tickets, (x: Ticket) => x.tenant == t.tenant && x.externalId == t.externalId);
        if x.Some? { return S.Conflict; }
      }
      if t.mailbox != "" && (t.mailbox !in mailboxes || mailboxes[t.mailbox].tenant != t.tenant) {
        return S.NotFound;
      }
      var row := t;
      row := row.(createdAt := OrNow(row.createdAt, now));
      row := row.(updatedAt := OrNow(row.updatedAt, row.createdAt));
      if row.status == "" { row := row.(status := STATUS_OPEN); }
      if row.priority == "" { row := row.(priority := PRIORITY_NORMAL); }
      if row.source == "" { row := row.(source := SOURCE_MANUAL); }
      tickets := tickets[t.id := row];
      out := S.Done;
    }

    method CreateTicket(t: Ticket, now: Time) returns (out: S.Outcome)
      modifies this`tickets, this`failNext
      ensures failNext == old(failNext) - {"CreateTicket"}
      ensures S.Step(State(), out) ==
              Guard("CreateTicket" in old(failNext), old(State()), S.CreateTicket(old(State()), t, now))
      ensures out != S.Fault ==> L.CreatesTicket(old(State()), S.Step(State(), out), t, now)
    {
      var armed := Fail("CreateTicket");
      if armed { return S.Fault; }
      L.CreateTicketLaw(State(), t, now);
      hide S.CreateTicket, L.CreatesTicket;
      out := PutTicket(t, now);
    }

    method GetTicket(tenant: string, id: string) returns (out: S.Outcome, t: Option<Ticket>)
      modifies this`failNext
      ensures failNext == old(failNext) - {"GetTicket"}
      ensures out == if "GetTicket" in old(failNext) then S.Fault
                     else if S.HasTicket(State(), tenant, id) then S.Done else S.NotFound
      ensures t == if out == S.Done then Some(tickets[id]) else None
    {
      var armed := Fail("GetTicket");
      if armed { return S.Fault, None; }
      if id !in tickets || tickets[id].tenant != tenant { return S.NotFound, None; }
      return S.Done, Some(tickets[id]);
    }

    method FindTicketByExternalID(tenant: string, externalId: string) returns (out: S.Outcome, t: Option<Ticket>)
      modifies this`failNext
      ensures failNext == old(failNext) - {"FindTicketByExternalID"}
      ensures out == if "FindTicketByExternalID" in old(failNext) then S.Fault
                     else if externalId != "" && S.ExternalTaken(tickets, tenant, externalId) then S.Done
                     else S.NotFound
      ensures out == S.Done ==> t.Some? && exists k :: k in tickets && tickets[k] == t.value &&
                                                       t.value.tenant == tenant && t.value.externalId == externalId
    {
      var armed := Fail("FindTicketByExternalID");
      if armed { return S.Fault, None; }
      if externalId == "" { return S.NotFound, None; }
      var k := Find(tickets, (x: Ticket) => x.tenant == tenant && x.externalId == externalId);
      if k.None? { return S.NotFound, None; }
      return S.Done, Some(tickets[k.value]);
    }

    method UpdateTicket(tenant: string, id: string, p: Patch, at: Time, now: Time) returns (out: S.Outcome)
      modifies this`tickets, this`failNext
      ensures failNext == old(failNext) - {"UpdateTicket"}
      ensures S.Step(State(), out) ==
              Guard("UpdateTicket" in old(failNext), old(State()), S.UpdateTicket(old(State()), tenant, id, p, at, now))
      ensures out != S.Fault ==> L.UpdatesTicket(old(State()), S.Step(State(), out), tenant, id, p, at, now)
    {
      L.UpdateTicketLaw(State(), tenant, id, p, at, now);
      hide L.UpdatesTicket;
      var armed := Fail("UpdateTicket");
      if armed { return S.Fault; }
      if id !in tickets || tickets[id].tenant != tenant { return S.NotFound; }
      var t := tickets[id];
      if p.subject.Some? { t := t.(subject := p.subject.value); }
      if p.description.Some? { t := t.(description := p.description.value); }
      if p.priority.Some? { t := t.(priority := p.priority.value); }
      tickets := tickets[id := t.(updatedAt := OrNow(at, now))];
      out := S.Done;
    }

    method SetAssignee(tenant: string, id: string, assignee: string, name: string, at: Time, now: Time)
      returns (out: S.Outcome)
      modifies this`tickets, this`failNext
      ensures failNext == old(failNext) - {"SetAssignee"}
      ensures S.Step(State(), out) ==
              Guard("SetAssignee" in old(failNext), old(State()),
                    S.SetAssignee(old(State()), tenant, id, assignee, name, at, now))
      ensures out != S.Fault ==>
                L.AssignsTicket(old(State()), S.Step(State(), out), tenant, id, assignee, name, at, now)
    {
      L.SetAssigneeLaw(State(), tenant, id, assignee, name, at, now);
      hide L.AssignsTicket;
      var armed := Fail("SetAssignee");
      if armed { return S.Fault; }
      if id !in tickets || tickets[id].tenant != tenant { return S.NotFound; }
      var t := tickets[id].(assignee := assignee, assigneeName := name);
      if assignee == "" { t := t.(assigneeName := ""); }
      tickets := tickets[id := t.(updatedAt := OrNow(at, now))];
      out := S.Done;
    }

    method SetStatus(tenant: string, id: string, status: string, at: Time, now: Time) returns (out: S.Outcome)
      modifies this`tickets, this`failNext
      ensures failNext == old(failNext) - {"SetStatus"}
      ensures S.Step(State(), out) ==
              Guard("SetStatus" in old(failNext), old(State()), S.SetStatus(old(State()), tenant, id, status, at, now))
      ensures out != S.Fault ==> L.MovesTicket(old(State()), S.Step(State(), out), tenant, id, status, at, now)
    {
      L.SetStatusLaw(State(), tenant, id, status, at, now);
      hide L.MovesTicket;
      var armed := Fail("SetStatus");
      if armed { return S.Fault; }
      if id !in tickets || tickets[id].tenant != tenant { return S.NotFound; }
      var t, stamp := tickets[id], OrNow(at, now);
      if status == STATUS_RESOLVED {
        if t.status != STATUS_RESOLVED || t.resolvedAt.None? { t := t.(resolvedAt := Some(stamp)); }
      } else {
        t := t.(resolvedAt := None);
      }
      tickets := tickets[id := t.(status := status, updatedAt := stamp)];
      out := S.Done;
    }

    method DropTicket(tenant: string, id: string) returns (out: S.Outcome, keys: seq<string>)
      modifies this`tickets, this`comments, this`attachments, this`links, this`history
      ensures Sorted(keys, TextKey)
      ensures S.Purge(State(), out, set k | k in keys) == S.DeleteTicket(old(State()), tenant, id)
    {
      if id !in tickets || tickets[id].tenant != tenant { return S.NotFound, []; }
      hide Sorted, S.HistoryWithout, S.KeysOfTicket;
      attachments, keys, comments := SweepTicket(attachments, comments, id);
      links := links - {id};
      history := SweepHistory(history, id);
      tickets := tickets - {id};
      out := S.Done;
    }

    method DeleteTicket(tenant: string, id: string) returns (out: S.Outcome, keys: seq<string>)
      modifies this`tickets, this`comments, this`attachments, this`links, this`history, this`failNext
      ensures failNext == old(failNext) - {"DeleteTicket"} && Sorted(keys, TextKey)
      ensures S.Purge(State(), out, set k | k in keys) ==
              GuardPurge("DeleteTicket" in old(failNext), old(State()), S.DeleteTicket(old(State()), tenant, id))
      ensures out != S.Fault ==> L.DeletesTicket(old(State()), S.Purge(State(), out, set k | k in keys), tenant, id)
    {
      var armed := Fail("DeleteTicket");
      if armed { return S.Fault, []; }
      L.DeleteTicketLaw(State(), tenant, id);
      hide S.DeleteTicket, L.DeletesTicket;
      out, keys := DropTicket(tenant, id);
    }

    // ------------------------------------------------------------- comments

    method PutComment(c: Comment, now: Time) returns (out: S.Outcome)
      modifies this`comments, this`tickets
      ensures S.Step(State(), out) == S.CreateComment(old(State()), c, now)
    {
      if c.ticket !in tickets || tickets[c.ticket].tenant != c.tenant { return S.NotFound; }
      var t := tickets[c.ticket];
      if c.id in comments { return S.Conflict; }
      if c.messageId != "" {
        var x := Find(comments, (x: Comment) => x.tenant == c.tenant && x.messageId == c.messageId);
        if x.Some? { return S.Conflict; }
      }
      var row := c.(createdAt := OrNow(c.createdAt, now));
      if row.delivery == "" { row := row.(delivery := DELIVERY_NONE); }
      comments := comments[c.id := row];
      t := t.(commentCount := t.commentCount + 1);
      if row.messageId != "" && !row.isInternal { t := t.(lastMessage := row.messageId); }
      t := t.(updatedAt := row.createdAt);
      tickets := tickets[t.id := t];
      out := S.Done;
    }

    method CreateComment(c: Comment, now: Time) returns (out: S.Outcome)
      modifies this`comments, this`tickets, this`failNext
      ensures failNext == old(failNext) - {"CreateComment"}
      ensures S.Step(State(), out) ==
              Guard("CreateComment" in old(failNext), old(State()), S.CreateComment(old(State()), c, now))
      ensures out != S.Fault ==> L.CreatesComment(old(State()), S.Step(State(), out), c, now)
    {
      var armed := Fail("CreateComment");
      if armed { return S.Fault; }
      L.CreateCommentLaw(State(), c, now);
      hide S.CreateComment, L.CreatesComment;
      out := PutComment(c, now);
    }

    method GetComment(tenant: string, id: string) returns (out: S.Outcome, c: Option<Comment>)
      modifies this`failNext
      ensures failNext == old(failNext) - {"GetComment"}
      ensures out == if "GetComment" in old(failNext) then S.Fault
                     else if S.HasComment(State(), tenant, id) then S.Done else S.NotFound
      ensures c == if out == S.Done then Some(comments[id]) else None
    {
      var armed := Fail("GetComment");
      if armed { return S.Fault, None; }
      if id !in comments || comments[id].tenant != tenant { return S.NotFound, None; }
      return S.Done, Some(comments[id]);
    }

    method SetCommentDelivery(tenant: string, id: string, delivery: string) returns (out: S.Outcome)
      modifies this`comments, this`failNext
      ensures failNext == old(failNext) - {"SetCommentDelivery"}
      ensures S.Step(State(), out) ==
              Guard("SetCommentDelivery" in old(failNext), old(State()),
                    S.SetDelivery(old(State()), tenant, id, delivery))
      ensures out != S.Fault ==> L.Delivers(old(State()), S.Step(State(), out), tenant, id, delivery)
    {
      L.SetDeliveryLaw(State(), tenant, id, delivery);
      hide L.Delivers;
      var armed := Fail("SetCommentDelivery");
      if armed { return S.Fault; }
      if id !in comments || comments[id].tenant != tenant { return S.NotFound; }
      comments := comments[id := comments[id].(delivery := delivery)];
      out := S.Done;
    }

    method DropComment(tenant: string, id: string) returns (out: S.Outcome, keys: seq<string>)
      modifies this`tickets, this`comments, this`attachments
      ensures Sorted(keys, TextKey)
      ensures S.Purge(State(), out, set k | k in keys) == S.DeleteComment(old(State()), tenant, id)
    {
      if id !in comments || comments[id].tenant != tenant { return S.NotFound, []; }
      var c := comments[id];
      hide Sorted, S.KeysOfComment;
      attachments, keys := SweepComment(attachments, id);
      comments := comments - {id};
      if c.ticket in tickets && tickets[c.ticket].commentCount > 0 {
        var t := tickets[c.ticket];
        tickets := tickets[t.id := t.(commentCount := t.commentCount - 1)];
      }
      out := S.Done;
    }

    method DeleteComment(tenant: string, id: string) returns (out: S.Outcome, keys: seq<string>)
      modifies this`tickets, this`comments, this`attachments, this`failNext
      ensures failNext == old(failNext) - {"DeleteComment"} && Sorted(keys, TextKey)
      ensures S.Purge(State(), out, set k | k in keys) ==
              GuardPurge("DeleteComment" in old(failNext), old(State()), S.DeleteComment(old(State()), tenant, id))
      ensures out != S.Fault ==> L.DeletesComment(old(State()), S.Purge(State(), out, set k | k in keys), tenant, id)
    {
      var armed := Fail("DeleteComment");
      if armed { return S.Fault, []; }
      L.DeleteCommentLaw(State(), tenant, id);
      hide S.DeleteComment, L.DeletesComment;
      out, keys := DropComment(tenant, id);
    }

    method FindCommentByMessageID(tenant: string, messageId: string) returns (out: S.Outcome, c: Option<Comment>)
      modifies this`failNext
      ensures failNext == old(failNext) - {"FindCommentByMessageID"}
      ensures out == if "FindCommentByMessageID" in old(failNext) then S.Fault
                     else if messageId != "" && S.MessageTaken(comments, tenant, messageId) then S.Done
                     else S.NotFound
      ensures out == S.Done ==> c.Some? && exists k :: k in comments && comments[k] == c.value &&
                                                       c.value.tenant == tenant && c.value.messageId == messageId
    {
      var armed := Fail("FindCommentByMessageID");
      if armed { return S.Fault, None; }
      if messageId == "" { return S.NotFound, None; }
      var k := Find(comments, (x: Comment) => x.tenant == tenant && x.messageId == messageId);
      if k.None? { return S.NotFound, None; }
      return S.Done, Some(comments[k.value]);
    }

    // ---------------------------------------------------------- attachments

    method PutAttachment(a: Attachment, now: Time) returns (out: S.Outcome)
      modifies this`attachments
      ensures S.Step(State(), out) == S.CreateAttachment(old(State()), a, now)
    {
      if a.ticket !in tickets || tickets[a.ticket].tenant != a.tenant { return S.NotFound; }
      if a.comment != "" {
        if a.comment !in comments || comments[a.comment].tenant != a.tenant || comments[a.comment].ticket != a.ticket {
          return S.NotFound;
        }
      }
      if a.id in attachments { return S.Conflict; }
      var x := Find(attachments, (x: Attachment) => x.storageKey == a.storageKey);
      if x.Some? { return S.Conflict; }
      attachments := attachments[a.id := a.(createdAt := OrNow(a.createdAt, now))];
      out := S.Done;
    }

    method CreateAttachment(a: Attachment, now: Time) returns (out: S.Outcome)
      modifies this`attachments, this`failNext
      ensures failNext == old(failNext) - {"CreateAttachment"}
      ensures S.Step(State(), out) ==
              Guard("CreateAttachment" in old(failNext), old(State()), S.CreateAttachment(old(State()), a, now))
      ensures out != S.Fault ==> L.CreatesAttachment(old(State()), S.Step(State(), out), a, now)
    {
      var armed := Fail("CreateAttachment");
      if armed { return S.Fault; }
      L.CreateAttachmentLaw(State(), a, now);
      hide S.CreateAttachment, L.CreatesAttachment;
      out := PutAttachment(a, now);
    }

    method GetAttachment(tenant: string, ticket: string, id: string) returns (out: S.Outcome)
      modifies this`failNext
      ensures failNext == old(failNext) - {"GetAttachment"}
      ensures out == if "GetAttachment" in old(failNext) then S.Fault
                     else if S.HasAttachment(State(), tenant, ticket, id) then S.Done else S.NotFound
    {
      var armed := Fail("GetAttachment");
      if armed { return S.Fault; }
      if id !in attachments || attachments[id].tenant != tenant || attachments[id].ticket != ticket {
        return S.NotFound;
      }
      out := S.Done;
    }

    // ----------------------------------------------------------------- tags

    method TagConflict(t: Tag) returns (taken: bool)
      ensures taken == S.NameTaken(cs, tags, t)
    {
      var fold := cs.fold;
      var x := Find(tags, (x: Tag) => x.id != t.id && x.tenant == t.tenant && x.kind == t.kind &&
                                      fold(x.name) == fold(t.name));
      taken := x.Some?;
    }

    method PutTag(t: Tag, now: Time) returns (out: S.Outcome)
      modifies this`tags
      ensures S.Step(State(), out) == S.CreateTag(cs, old(State()), t, now)
    {
      var row := t;
      if row.kind == "" { row := row.(kind := KIND_TAG); }
      var taken := TagConflict(row);
      if row.id in tags || taken { return S.Conflict; }
      tags := tags[row.id := row.(createdAt := OrNow(row.createdAt, now))];
      out := S.Done;
    }

    method CreateTag(t: Tag, now: Time) returns (out: S.Outcome)
      modifies this`tags, this`failNext
      ensures failNext == old(failNext) - {"CreateTag"}
      ensures S.Step(State(), out) ==
              Guard("CreateTag" in old(failNext), old(State()), S.CreateTag(cs, old(State()), t, now))
      ensures out != S.Fault ==> L.CreatesTag(cs, old(State()), S.Step(State(), out), t, now)
    {
      var armed := Fail("CreateTag");
      if armed { return S.Fault; }
      L.CreateTagLaw(cs, State(), t, now);
      hide S.CreateTag, L.CreatesTag;
      out := PutTag(t, now);
    }

    method GetTag(tenant: string, id: string) returns (out: S.Outcome)
      modifies this`failNext
      ensures failNext == old(failNext) - {"GetTag"}
      ensures out == if "GetTag" in old(failNext) then S.Fault
                     else if S.HasTag(State(), tenant, id) then S.Done else S.NotFound
    {
      var armed := Fail("GetTag");
      if armed { return S.Fault; }
      out := if id !in tags || tags[id].tenant != tenant then S.NotFound else S.Done;
    }

    method ReplaceTag(t: Tag) returns (out: S.Outcome)
      modifies this`tags
      ensures S.Step(State(), out) == S.UpdateTag(cs, old(State()), t)
    {
      if t.id !in tags || tags[t.id].tenant != t.tenant { return S.NotFound; }
      var row := t.(kind := tags[t.id].kind, createdAt := tags[t.id].createdAt);
      var taken := TagConflict(row);
      if taken { return S.Conflict; }
      tags := tags[t.id := row];
      out := S.Done;
    }

    method UpdateTag(t: Tag) returns (out: S.Outcome)
      modifies this`tags, this`failNext
      ensures failNext == old(failNext) - {"UpdateTag"}
      ensures S.Step(State(), out) ==
              Guard("UpdateTag" in old(failNext), old(State()), S.UpdateTag(cs, old(State()), t))
      ensures out != S.Fault ==> L.UpdatesTag(cs, old(State()), S.Step(State(), out), t)
    {
      var armed := Fail("UpdateTag");
      if armed { return S.Fault; }
      L.UpdateTagLaw(cs, State(), t);
      hide S.UpdateTag, L.UpdatesTag;
      out := ReplaceTag(t);
    }

    method DropTag(tenant: string, id: string) returns (out: S.Outcome)
      modifies this`tags, this`links
      ensures S.Step(State(), out) == S.DeleteTag(old(State()), tenant, id)
    {
      if id !in tags || tags[id].tenant != tenant { return S.NotFound; }
      tags := tags - {id};
      var rest := links.Keys;
      while rest != {}
        invariant rest <= links.Keys == old(links).Keys
        invariant forall k :: k in links ==> links[k] == if k in rest then old(links)[k] else old(links)[k] - {id}
        decreases |rest|
        modifies this`links
      {
        var k :| k in rest;
        rest := rest - {k};
        links := links[k := links[k] - {id}];
      }
      assert links == S.LinksWithout(old(links), id);
      out := S.Done;
    }

    method DeleteTag(tenant: string, id: string) returns (out: S.Outcome)
      modifies this`tags, this`links, this`failNext
      ensures failNext == old(failNext) - {"DeleteTag"}
      ensures S.Step(State(), out) ==
              Guard("DeleteTag" in old(failNext), old(State()), S.DeleteTag(old(State()), tenant, id))
      ensures out != S.Fault ==> L.DeletesTag(old(State()), S.Step(State(), out), tenant, id)
    {
      var armed := Fail("DeleteTag");
      if armed { return S.Fault; }
      L.DeleteTagLaw(State(), tenant, id);
      hide S.DeleteTag, L.DeletesTag;
      out := DropTag(tenant, id);
    }

    /** The tag of that kind and folded name, created under the new id when the tenant has none. */
    method EnsureTagByName(tenant: string, kind: string, name: string, newId: string, now: Time)
      returns (out: S.Outcome, tag: Option<Tag>)
      modifies this`tags, this`failNext
      ensures failNext == old(failNext) - {"EnsureTagByName"}
      ensures "EnsureTagByName" in old(failNext) ==> out == S.Fault && State() == old(State())
      ensures out == S.Done ==> tag.Some? && tag.value.tenant == tenant &&
                                tag.value.kind == (if kind == "" then KIND_TAG else kind) &&
                                cs.fold(tag.value.name) == cs.fold(name) &&
                                exists k :: k in tags && tags[k] == tag.value
      ensures State() == old(State()) ||
              State() == S.CreateTag(cs, old(State()), Tag(newId, tenant, name, if kind == "" then KIND_TAG else kind,
                                                           "", "", now), now).db
      ensures V.Valid(cs, old(State())) && out != S.Done ==> "EnsureTagByName" in old(failNext) || newId in old(tags)
    {
      var armed := Fail("EnsureTagByName");
      if armed { return S.Fault, None; }
      var kind := if kind == "" then KIND_TAG else kind;
      var fold := cs.fold;
      var k := Find(tags, (x: Tag) => x.tenant == tenant && x.kind == kind && fold(x.name) == fold(name));
      if k.Some? { return S.Done, Some(tags[k.value]); }
      var t := Tag(newId, tenant, name, kind, "", "", now);
      var taken := TagConflict(t);
      if t.id in tags || taken { return S.Conflict, None; }
      tags := tags[t.id := t.(createdAt := OrNow(t.createdAt, now))];
      assert State() == S.CreateTag(cs, old(State()), t, now).db;
      return S.Done, Some(tags[t.id]);
    }

    method CheckTags(tenant: string, ticket: string, ids: seq<string>) returns (ok: bool)
      ensures ok == (S.HasTicket(State(), tenant, ticket) && S.TagsKnown(State(), tenant, ids))
    {
      if ticket !in tickets || tickets[ticket].tenant != tenant { return false; }
      for i := 0 to |ids|
        invariant forall j :: 0 <= j < i ==> S.HasTag(State(), tenant, ids[j])
      {
        if ids[i] !in tags || tags[ids[i]].tenant != tenant {
          assert ids[i] in ids;
          return false;
        }
      }
      ok := true;
    }

    method ReplaceLinks(tenant: string, ticket: string, ids: seq<string>) returns (out: S.Outcome)
      modifies this`links
      ensures S.Step(State(), out) == S.SetTicketTags(old(State()), tenant, ticket, ids)
    {
      var ok := CheckTags(tenant, ticket, ids);
      if !ok { return S.NotFound; }
      var set' := {};
      for i := 0 to |ids|
        invariant set' == set g | g in ids[..i]
      {
        assert ids[..i + 1] == ids[..i] + [ids[i]];
        set' := set' + {ids[i]};
      }
      assert ids[..|ids|] == ids;
      links := links[ticket := set'];
      out := S.Done;
    }

    method SetTicketTags(tenant: string, ticket: string, ids: seq<string>) returns (out: S.Outcome)
      modifies this`links, this`failNext
      ensures failNext == old(failNext) - {"SetTicketTags"}
      ensures S.Step(State(), out) ==
              Guard("SetTicketTags" in old(failNext), old(State()), S.SetTicketTags(old(State()), tenant, ticket, ids))
      ensures out != S.Fault ==> L.ReplacesTags(old(State()), S.Step(State(), out), tenant, ticket, ids)
    {
      var armed := Fail("SetTicketTags");
      if armed { return S.Fault; }
      L.SetTicketTagsLaw(State(), tenant, ticket, ids);
      hide S.SetTicketTags, L.ReplacesTags;
      out := ReplaceLinks(tenant, ticket, ids);
    }

    method LinkTags(tenant: string, ticket: string, ids: seq<string>) returns (out: S.Outcome)
      modifies this`links
      ensures S.Step(State(), out) == S.AddTicketTags(old(State()), tenant, ticket, ids)
    {
      var ok := CheckTags(tenant, ticket, ids);
      if !ok { return S.NotFound; }
      if ticket !in links { links := links[ticket := {}]; }
      for i := 0 to |ids|
        invariant ticket in links && links == old(links)[ticket := links[ticket]]
        invariant forall g :: g in links[ticket] <==> g in S.Linked(old(links), ticket) || g in ids[..i]
        modifies this`links
      {
        assert ids[..i + 1] == ids[..i] + [ids[i]];
        links := links[ticket := links[ticket] + {ids[i]}];
      }
      assert ids[..|ids|] == ids;
      assert links[ticket] == S.Linked(old(links), ticket) + set g | g in ids;
      out := S.Done;
    }

    method AddTicketTags(tenant: string, ticket: string, ids: seq<string>) returns (out: S.Outcome)
      modifies this`links, this`failNext
      ensures failNext == old(failNext) - {"AddTicketTags"}
      ensures S.Step(State(), out) ==
              Guard("AddTicketTags" in old(failNext), old(State()), S.AddTicketTags(old(State()), tenant, ticket, ids))
      ensures out != S.Fault ==> L.AddsTags(old(State()), S.Step(State(), out), tenant, ticket, ids)
    {
      var armed := Fail("AddTicketTags");
      if armed { return S.Fault; }
      L.AddTicketTagsLaw(State(), tenant, ticket, ids);
      hide S.AddTicketTags, L.AddsTags;
      out := LinkTags(tenant, ticket, ids);
    }

    /** The tags one ticket shows, in listing order. */
    method TagRows(tenant: string, id: string) returns (rows: seq<Tag>)
      ensures TagRowsOf(cs, State(), tenant, id, rows)
    {
      hide SortBy;
      var shown: set<string> := {};
      if id in tickets && tickets[id].tenant == tenant {
        shown := set g | g in S.Linked(links, id) && g in tags && tags[g].tenant == tenant;
      }
      assert shown == S.TagsOf(State(), tenant, id);
      var found, rest := [], shown;
      while rest != {}
        invariant rest <= shown && |found| + |rest| == |shown|
        invariant forall t :: t in found <==> exists g :: g in shown && g !in rest && tags[g] == t
        decreases rest
      {
        var g :| g in rest;
        assert forall t :: t in found + [tags[g]] <==> t in found || t == tags[g];
        found, rest := found + [tags[g]], rest - {g};
      }
      rows := SortBy(found, TagKey(cs));
      SortBySorts(found, TagKey(cs));
      Shuffled(found, rows);
    }

    /** Each asked ticket of the tenant that shows any tags, with its tags in listing order. */
    method TagsForTickets(tenant: string, ids: seq<string>) returns (out: S.Outcome, have: map<string, seq<Tag>>)
      modifies this`failNext
      ensures failNext == old(failNext) - {"TagsForTickets"}
      ensures out == if "TagsForTickets" in old(failNext) then S.Fault else S.Done
      ensures out == S.Done ==> forall id :: id in have <==> id in ids && S.TagsOf(State(), tenant, id) != {}
      ensures out == S.Done ==> forall id :: id in have ==> TagRowsOf(cs, State(), tenant, id, have[id])
    {
      var armed := Fail("TagsForTickets");
      if armed { return S.Fault, map[]; }
      have := map[];
      hide Sorted, S.TagsOf;
      for i := 0 to |ids|
        invariant failNext == old(failNext) - {"TagsForTickets"}
        invariant forall id :: id in have <==> id in ids[..i] && S.TagsOf(State(), tenant, id) != {}
        invariant forall id :: id in have ==> TagRowsOf(cs, State(), tenant, id, have[id])
      {
        assert ids[..i + 1] == ids[..i] + [ids[i]];
        var rows := TagRows(tenant, ids[i]);
        assert |S.TagsOf(State(), tenant, ids[i])| == 0 <==> S.TagsOf(State(), tenant, ids[i]) == {};
        if rows != [] { have := have[ids[i] := rows]; }
      }
      assert ids[..|ids|] == ids;
      out := S.Done;
    }

    // ---------------------------------------------------------------- rules

    method PutRule(r: Rule, now: Time) returns (out: S.Outcome)
      modifies this`rules
      ensures S.Step(State(), out) == S.CreateRule(old(State()), r, now)
    {
      if r.id in rules { return S.Conflict; }
      var row := r.(createdAt := OrNow(r.createdAt, now));
      row := row.(updatedAt := OrNow(row.updatedAt, row.createdAt));
      if row.version <= 0 { row := row.(version := 1); }
      if row.combine == "" { row := row.(combine := MATCH_ALL); }
      rules := rules[r.id := row];
      out := S.Done;
    }

    method CreateRule(r: Rule, now: Time) returns (out: S.Outcome)
      modifies this`rules, this`failNext
      ensures failNext == old(failNext) - {"CreateRule"}
      ensures S.Step(State(), out) ==
              Guard("CreateRule" in old(failNext), old(State()), S.CreateRule(old(State()), r, now))
      ensures out != S.Fault ==> L.CreatesRule(old(State()), S.Step(State(), out), r, now)
    {
      var armed := Fail("CreateRule");
      if armed { return S.Fault; }
      L.CreateRuleLaw(State(), r, now);
      hide S.CreateRule, L.CreatesRule;
      out := PutRule(r, now);
    }

    method GetRule(tenant: string, id: string) returns (out: S.Outcome, r: Option<Rule>)
      modifies this`failNext
      ensures failNext == old(failNext) - {"GetRule"}
      ensures out == if "GetRule" in old(failNext) then S.Fault
                     else if S.HasRule(State(), tenant, id) then S.Done else S.NotFound
      ensures r == if out == S.Done then Some(rules[id]) else None
    {
      var armed := Fail("GetRule");
      if armed { return S.Fault, None; }
      if id !in rules || rules[id].tenant != tenant { return S.NotFound, None; }
      return S.Done, Some(rules[id]);
    }

    method ReplaceRule(r: Rule, now: Time) returns (out: S.Outcome)
      modifies this`rules
      ensures S.Step(State(), out) == S.UpdateRule(old(State()), r, now)
    {
      if r.id !in rules || rules[r.id].tenant != r.tenant { return S.NotFound; }
      var row := r.(createdAt := rules[r.id].createdAt, version := rules[r.id].version + 1, updatedAt := now);
      if row.combine == "" { row := row.(combine := MATCH_ALL); }
      rules := rules[r.id := row];
      out := S.Done;
    }

    method UpdateRule(r: Rule, now: Time) returns (out: S.Outcome)
      modifies this`rules, this`failNext
      ensures failNext == old(failNext) - {"UpdateRule"}
      ensures S.Step(State(), out) ==
              Guard("UpdateRule" in old(failNext), old(State()), S.UpdateRule(old(State()), r, now))
      ensures out != S.Fault ==> L.UpdatesRule(old(State()), S.Step(State(), out), r, now)
    {
      var armed := Fail("UpdateRule");
      if armed { return S.Fault; }
      L.UpdateRuleLaw(State(), r, now);
      hide S.UpdateRule, L.UpdatesRule;
      out := ReplaceRule(r, now);
    }

    method DeleteRule(tenant: string, id: string) returns (out: S.Outcome)
      modifies this`rules, this`failNext
      ensures failNext == old(failNext) - {"DeleteRule"}
      ensures S.Step(State(), out) ==
              Guard("DeleteRule" in old(failNext), old(State()), S.DeleteRule(old(State()), tenant, id))
      ensures out != S.Fault ==> L.DeletesRule(old(State()), S.Step(State(), out), tenant, id)
    {
      L.DeleteRuleLaw(State(), tenant, id);
      hide L.DeletesRule;
      var armed := Fail("DeleteRule");
      if armed { return S.Fault; }
      if id !in rules || rules[id].tenant != tenant { return S.NotFound; }
      rules := rules - {id};
      out := S.Done;
    }

    // ------------------------------------------------------------ mailboxes

    method PutMailbox(m: Mailbox, now: Time) returns (out: S.Outcome)
      modifies this`mailboxes
      ensures S.Step(State(), out) == S.CreateMailbox(cs, old(State()), m, now)
    {
      var row := m.(address := S.NormAddr(cs, m.address));
      var x := Find(mailboxes, (x: Mailbox) => x.id != row.id && x.address == row.address);
      if row.id in mailboxes || x.Some? { return S.Conflict; }
      row := row.(createdAt := OrNow(row.createdAt, now));
      row := row.(updatedAt := OrNow(row.updatedAt, row.createdAt));
      mailboxes := mailboxes[row.id := row];
      out := S.Done;
    }

    method CreateMailbox(m: Mailbox, now: Time) returns (out: S.Outcome)
      modifies this`mailboxes, this`failNext
      ensures failNext == old(failNext) - {"CreateMailbox"}
      ensures S.Step(State(), out) ==
              Guard("CreateMailbox" in old(failNext), old(State()), S.CreateMailbox(cs, old(State()), m, now))
      ensures out != S.Fault ==> L.CreatesMailbox(cs, old(State()), S.Step(State(), out), m, now)
    {
      var armed := Fail("CreateMailbox");
      if armed { return S.Fault; }
      L.CreateMailboxLaw(cs, State(), m, now);
      hide S.CreateMailbox, L.CreatesMailbox;
      out := PutMailbox(m, now);
    }

    method GetMailbox(tenant: string, id: string) returns (out: S.Outcome)
      modifies this`failNext
      ensures failNext == old(failNext) - {"GetMailbox"}
      ensures out == if "GetMailbox" in old(failNext) then S.Fault
                     else if S.MailboxKnown(mailboxes, tenant, id) then S.Done else S.NotFound
    {
      var armed := Fail("GetMailbox");
      if armed { return S.Fault; }
      out := if id !in mailboxes || mailboxes[id].tenant != tenant then S.NotFound else S.Done;
    }

    method ReplaceMailbox(m: Mailbox, now: Time) returns (out: S.Outcome)
      modifies this`mailboxes
      ensures S.Step(State(), out) == S.UpdateMailbox(cs, old(State()), m, now)
    {
      if m.id !in mailboxes || mailboxes[m.id].tenant != m.tenant { return S.NotFound; }
      var row := m.(address := S.NormAddr(cs, m.address));
      var x := Find(mailboxes, (x: Mailbox) => x.id != row.id && x.address == row.address);
      if x.Some? { return S.Conflict; }
      mailboxes := mailboxes[row.id := row.(createdAt := mailboxes[m.id].createdAt, updatedAt := now)];
      out := S.Done;
    }

    method UpdateMailbox(m: Mailbox, now: Time) returns (out: S.Outcome)
      modifies this`mailboxes, this`failNext
      ensures failNext == old(failNext) - {"UpdateMailbox"}
      ensures S.Step(State(), out) ==
              Guard("UpdateMailbox" in old(failNext), old(State()), S.UpdateMailbox(cs, old(State()), m, now))
      ensures out != S.Fault ==> L.UpdatesMailbox(cs, old(State()), S.Step(State(), out), m, now)
    {
      var armed := Fail("UpdateMailbox");
      if armed { return S.Fault; }
      L.UpdateMailboxLaw(cs, State(), m, now);
      hide S.UpdateMailbox, L.UpdatesMailbox;
      out := ReplaceMailbox(m, now);
    }

    method DropMailbox(tenant: string, id: string, force: bool) returns (out: S.Outcome)
      modifies this`mailboxes, this`tickets
      ensures S.Step(State(), out) == S.DeleteMailbox(old(State()), tenant, id, force)
    {
      if id !in mailboxes || mailboxes[id].tenant != tenant { return S.NotFound; }
      var used := Find(tickets, (t: Ticket) => t.mailbox == id);
      if used.Some? && !force { return S.NotEmpty; }
      tickets := Unroute(tickets, id);
      mailboxes := mailboxes - {id};
      out := S.Done;
    }

    method DeleteMailbox(tenant: string, id: string, force: bool) returns (out: S.Outcome)
      modifies this`mailboxes, this`tickets, this`failNext
      ensures failNext == old(failNext) - {"DeleteMailbox"}
      ensures S.Step(State(), out) ==
              Guard("DeleteMailbox" in old(failNext), old(State()), S.DeleteMailbox(old(State()), tenant, id, force))
      ensures out != S.Fault ==> L.DeletesMailbox(old(State()), S.Step(State(), out), tenant, id, force)
    {
      var armed := Fail("DeleteMailbox");
      if armed { return S.Fault; }
      L.DeleteMailboxLaw(State(), tenant, id, force);
      hide S.DeleteMailbox, L.DeletesMailbox;
      out := DropMailbox(tenant, id, force);
    }

    /** System scope: the mailbox of any tenant that holds the normalised address. */
    method RouteMailbox(address: string) returns (out: S.Outcome, m: Option<Mailbox>)
      modifies this`failNext
      ensures failNext == old(failNext) - {"RouteMailbox"}
      ensures out == S.Done ==> m.Some? && m.value.address == S.NormAddr(cs, address) &&
                                exists k :: k in mailboxes && mailboxes[k] == m.value
      ensures "RouteMailbox" !in old(failNext) ==>
                (out == S.Done <==> S.NormAddr(cs, address) != "" &&
                                    exists k :: k in mailboxes && mailboxes[k].address == S.NormAddr(cs, address))
      // Addresses are unique across tenants, so no other mailbox could have answered.
      ensures out == S.Done && V.UniqueAddress(mailboxes) ==>
                forall k :: k in mailboxes && mailboxes[k].address == S.NormAddr(cs, address) ==>
                  mailboxes[k] == m.value
    {
      var armed := Fail("RouteMailbox");
      if armed { return S.Fault, None; }
      var a := S.NormAddr(cs, address);
      var k := Find(mailboxes, (x: Mailbox) => x.address == a && a != "");
      if k.None? { return S.NotFound, None; }
      return S.Done, Some(mailboxes[k.value]);
    }

    // -------------------------------------------------------------- history

    method PutHistory(h: History, now: Time) returns (out: S.Outcome)
      modifies this`history
      ensures S.Step(State(), out) == S.AppendHistory(old(State()), h, now)
    {
      if h.ticket !in tickets || tickets[h.ticket].tenant != h.tenant { return S.NotFound; }
      history := history + [h.(createdAt := OrNow(h.createdAt, now))];
      out := S.Done;
    }

    method AppendHistory(h: History, now: Time) returns (out: S.Outcome)
      modifies this`history, this`failNext
      ensures failNext == old(failNext) - {"AppendHistory"}
      ensures S.Step(State(), out) ==
              Guard("AppendHistory" in old(failNext), old(State()), S.AppendHistory(old(State()), h, now))
      ensures out != S.Fault ==> L.LogsChange(old(State()), S.Step(State(), out), h, now)
    {
      var armed := Fail("AppendHistory");
      if armed { return S.Fault; }
      L.AppendHistoryLaw(State(), h, now);
      hide S.AppendHistory, L.LogsChange;
      out := PutHistory(h, now);
    }
  }
}
