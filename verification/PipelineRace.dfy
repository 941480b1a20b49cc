/**
 * Two deliveries of one message at once. The store refuses a second comment and a second root with the same
 * Message-ID, but nothing refuses a root beside a comment: when that happens, how a run gets there, and what
 * excludes it.
 */
module PipelineRace {
  import opened Rows
  import opened Text
  import opened Pipeline
  import opened PipelineSafety
  import opened PipelineMail
  import opened Threading
  import S = Store
  import V = StoreValid

  ghost predicate Said(db: S.Db, tenant: string, id: string) { exists k :: CommentIs(db.comments, k, tenant, id) }

  ghost predicate Rooted(db: S.Db, tenant: string, id: string) { exists k :: RootIs(db.tickets, k, tenant, id) }

  // --------------------------------------------------------------- two writes, exactly

  /** An ingestion about to write its row: a reply to a ticket that is there, or a new ticket under a new id. */
  predicate Ready(y: Sys, p: nat, m: Mail, reply: bool, ticket: string) {
    p < |y.procs| && y.procs[p].Inbound? && y.procs[p].mail == m && y.procs[p].phase == Upload(reply, ticket) &&
    |y.procs[p].staged| >= |m.files| &&
    if reply then S.HasTicket(y.db, m.tenant, ticket)
    else ticket !in y.db.tickets && (m.mailbox == "" || S.MailboxKnown(y.db.mailboxes, m.tenant, m.mailbox))
  }

  lemma ReplyDone(cs: Casing, db: S.Db, m: Mail, ticket: string, id: string, now: Time)
    requires V.Valid(cs, db) && S.HasTicket(db, m.tenant, ticket) && id !in db.comments && m.messageId != ""
    ensures var r := S.CreateComment(db, NewReply(m, ticket, id), now);
            (Said(db, m.tenant, m.messageId) ==> r == S.Step(db, S.Conflict)) &&
            (!Said(db, m.tenant, m.messageId) ==> r.out == S.Done) && Said(r.db, m.tenant, m.messageId) &&
            (Rooted(r.db, m.tenant, m.messageId) <==> Rooted(db, m.tenant, m.messageId)) &&
            r.db.tickets.Keys == db.tickets.Keys && r.db.mailboxes == db.mailboxes &&
            (forall k :: k in db.tickets ==> r.db.tickets[k].tenant == db.tickets[k].tenant)
  {
    hide V.References, V.Uniqueness, V.Counted;
    assert V.KeysMatch(db);
    var r, t := S.CreateComment(db, NewReply(m, ticket, id), now), m.tenant;
    TakenIsSaid(db, t, m.messageId);
    if r.out == S.Done { assert CommentIs(r.db.comments, id, t, m.messageId); }
    assert forall k :: RootIs(r.db.tickets, k, t, m.messageId) <==> RootIs(db.tickets, k, t, m.messageId);
  }

  lemma RootDone(db: S.Db, m: Mail, ticket: string, now: Time)
    requires ticket !in db.tickets && (m.mailbox == "" || S.MailboxKnown(db.mailboxes, m.tenant, m.mailbox)) &&
             m.messageId != ""
    ensures var r := S.CreateTicket(db, NewTicket(m, ticket), now);
            (Rooted(db, m.tenant, m.messageId) ==> r == S.Step(db, S.Conflict)) &&
            (!Rooted(db, m.tenant, m.messageId) ==> r.out == S.Done) && Rooted(r.db, m.tenant, m.messageId) &&
            r.db.comments == db.comments && r.db.mailboxes == db.mailboxes &&
            r.db.tickets.Keys <= db.tickets.Keys + {ticket} &&
            (forall k :: k in db.tickets ==> k in r.db.tickets && r.db.tickets[k].tenant == db.tickets[k].tenant)
  {
    hide S.MailboxKnown;
    var r, t := S.CreateTicket(db, NewTicket(m, ticket), now), m.tenant;
    assert S.ExternalTaken(db.tickets, t, m.messageId) <==> Rooted(db, t, m.messageId) by {
      assert forall k :: RootIs(db.tickets, k, t, m.messageId) <==>
                         k in db.tickets && db.tickets[k].tenant == t && db.tickets[k].externalId == m.messageId;
    }
    if r.out == S.Done { assert RootIs(r.db.tickets, ticket, t, m.messageId); }
  }

  /** A write puts the message on record, in its own way only. */
  lemma Writes(cs: Casing, y: Sys, p: nat, m: Mail, reply: bool, ticket: string, id: string, now: Time)
    requires V.Valid(cs, y.db) && Ready(y, p, m, reply, ticket) && Unused(y, id) && id !in y.db.comments &&
             m.messageId != ""
    ensures var y' := Next(cs, y, WriteRow(p, id, now, false));
            (Said(y'.db, m.tenant, m.messageId) <==> reply || Said(y.db, m.tenant, m.messageId)) &&
            (Rooted(y'.db, m.tenant, m.messageId) <==> !reply || Rooted(y.db, m.tenant, m.messageId)) &&
            y'.db == S.Apply(cs, y.db, if reply then S.OpCreateComment(NewReply(m, ticket, id), now)
                                       else S.OpCreateTicket(NewTicket(m, ticket), now)) &&
            y'.minted == y.minted + {id} && |y'.procs| == |y.procs| && y'.procs == y.procs[p := y'.procs[p]]
  {
    hide V.Valid, S.CreateComment, S.CreateTicket, Said, Rooted, S.MailboxKnown;
    var y' := Next(cs, y, WriteRow(p, id, now, false));
    if reply { ReplyDone(cs, y.db, m, ticket, id, now); } else {
      RootDone(y.db, m, ticket, now);
      SaidBy(y.db, y'.db, m.tenant, m.messageId);
    }
  }

  lemma SaidBy(a: S.Db, b: S.Db, tenant: string, id: string)
    requires b.comments == a.comments
    ensures Said(b, tenant, id) <==> Said(a, tenant, id)
  {
  }

  /** One ingestion's write leaves another ready. */
  lemma StaysReady(cs: Casing, y: Sys, p: nat, m: Mail, reply: bool, ticket: string, id: string, now: Time,
                   q: nat, m': Mail, reply': bool, ticket': string)
    requires V.Valid(cs, y.db) && Ready(y, p, m, reply, ticket) && Unused(y, id) && id !in y.db.comments &&
             m.messageId != ""
    requires p != q && Ready(y, q, m', reply', ticket') && (!reply && !reply' ==> ticket != ticket')
    ensures Ready(Next(cs, y, WriteRow(p, id, now, false)), q, m', reply', ticket')
  {
    hide V.Valid, S.CreateComment, S.CreateTicket, Said, Rooted, S.MailboxKnown;
    Writes(cs, y, p, m, reply, ticket, id, now);
    hide Next;
    if reply { ReplyDone(cs, y.db, m, ticket, id, now); } else { RootDone(y.db, m, ticket, now); }
  }

  /**
   * Two deliveries of one message past the duplicate check, nothing failing: the message ends up as a comment and
   * as a root exactly when one of them resolved to a ticket and the other did not (unless a record was there before).
   */
  lemma RaceExactly(cs: Casing, y: Sys, p: nat, q: nat, m: Mail, m': Mail, fp: bool, fq: bool, tp: string, tq: string,
                    id: string, other: string, now: Time, later: Time)
    requires V.Valid(cs, y.db) && p != q && Ready(y, p, m, fp, tp) && Ready(y, q, m', fq, tq)
    requires m.messageId != "" && m'.messageId == m.messageId && m'.tenant == m.tenant && (!fp && !fq ==> tp != tq)
    requires Unused(y, id) && Unused(y, other) && id != other && id !in y.db.comments && other !in y.db.comments
    requires !Said(y.db, m.tenant, m.messageId) && !Rooted(y.db, m.tenant, m.messageId)
    ensures var db := Next(cs, Next(cs, y, WriteRow(p, id, now, false)), WriteRow(q, other, later, false)).db;
            (Said(db, m.tenant, m.messageId) && Rooted(db, m.tenant, m.messageId)) <==> fp != fq
  {
    hide V.Valid, Next, Ready, Said, Rooted, S.Apply;
    var y1 := Next(cs, y, WriteRow(p, id, now, false));
    Writes(cs, y, p, m, fp, tp, id, now);
    StaysReady(cs, y, p, m, fp, tp, id, now, q, m', fq, tq);
    var op := if fp then S.OpCreateComment(NewReply(m, tp, id), now) else S.OpCreateTicket(NewTicket(m, tp), now);
    V.ApplyKeepsValid(cs, y.db, op);
    ApplyFollows(cs, y.db, op);
    Writes(cs, y1, q, m', fq, tq, other, later);
  }

  /** The message is recorded as a comment of this ticket. */
  ghost predicate SaidOn(db: S.Db, tenant: string, id: string, ticket: string) {
    exists k :: CommentIs(db.comments, k, tenant, id) && db.comments[k].ticket == ticket
  }

  lemma ReplyRecorded(cs: Casing, y: Sys, p: nat, m: Mail, ticket: string, id: string, now: Time)
    requires V.Valid(cs, y.db) && Ready(y, p, m, true, ticket) && Unused(y, id) && id !in y.db.comments &&
             m.messageId != ""
    ensures var y' := Next(cs, y, WriteRow(p, id, now, false));
            if Said(y.db, m.tenant, m.messageId) then
              y'.db == y.db && y'.procs[p].phase == Discard(ThenDuplicate(ticket))
            else forall t :: SaidOn(y'.db, m.tenant, m.messageId, t) <==> t == ticket
  {
    hide V.Valid, S.MessageTaken, S.HasTicket;
    var db, t := y.db, m.tenant;
    TakenIsSaid(db, t, m.messageId);
    if !Said(db, t, m.messageId) {
      var y' := Next(cs, y, WriteRow(p, id, now, false));
      assert CommentIs(y'.db.comments, id, t, m.messageId) && y'.db.comments[id].ticket == ticket;
      assert forall k :: CommentIs(y'.db.comments, k, t, m.messageId) ==>
               k == id || CommentIs(db.comments, k, t, m.messageId);
    }
  }

  lemma TakenIsSaid(db: S.Db, tenant: string, id: string)
    ensures S.MessageTaken(db.comments, tenant, id) <==> Said(db, tenant, id)
  {
    assert forall k :: CommentIs(db.comments, k, tenant, id) <==>
                       k in db.comments && db.comments[k].tenant == tenant && db.comments[k].messageId == id;
  }

  /**
   * Two deliveries of one message, both resolved to a ticket: the second is answered as a duplicate of the ticket it
   * resolved to, and that is the ticket the message is recorded on exactly when both resolved to the same one.
   */
  lemma DuplicateNamesExactly(cs: Casing, y: Sys, p: nat, q: nat, m: Mail, m': Mail, tp: string, tq: string, id: string,
                              other: string, now: Time, later: Time)
    requires V.Valid(cs, y.db) && p != q && Ready(y, p, m, true, tp) && Ready(y, q, m', true, tq)
    requires m.messageId != "" && m'.messageId == m.messageId && m'.tenant == m.tenant
    requires Unused(y, id) && Unused(y, other) && id != other && id !in y.db.comments && other !in y.db.comments
    requires !Said(y.db, m.tenant, m.messageId)
    ensures var y' := Next(cs, Next(cs, y, WriteRow(p, id, now, false)), WriteRow(q, other, later, false));
            y'.procs[q].phase == Discard(ThenDuplicate(tq)) && (SaidOn(y'.db, m.tenant, m.messageId, tq) <==> tp == tq)
  {
    hide V.Valid, Next, Ready, Said, SaidOn, S.Apply;
    var y1 := Next(cs, y, WriteRow(p, id, now, false));
    Writes(cs, y, p, m, true, tp, id, now);
    ReplyRecorded(cs, y, p, m, tp, id, now);
    StaysReady(cs, y, p, m, true, tp, id, now, q, m', true, tq);
    var op := S.OpCreateComment(NewReply(m, tp, id), now);
    V.ApplyKeepsValid(cs, y.db, op);
    ApplyFollows(cs, y.db, op);
    ReplyRecorded(cs, y1, q, m', tq, other, later);
    Writes(cs, y1, q, m', true, tq, other, later);
  }

  // ------------------------------------------------------------------ a run that gets there

  lemma Extends(cs: Casing, states: seq<Sys>, events: seq<Event>, e: Event)
    requires IsRun(cs, states, events)
    ensures IsRun(cs, states + [Next(cs, states[|events|], e)], events + [e])
  {
    hide Next;
    var states', events' := states + [Next(cs, states[|events|], e)], events + [e];
    forall i | 0 <= i < |events'| ensures states'[i + 1] == Next(cs, states'[i], events'[i]) {
      if i < |events| { assert states[i + 1] == Next(cs, states[i], events[i]); }
    }
  }

  lemma Unfound(db: S.Db, tenant: string, id: string)
    requires id != ""
    ensures !Said(db, tenant, id) ==> FindComment(db, tenant, id).None?
    ensures !Rooted(db, tenant, id) ==> FindRoot(db, tenant, id).None?
  {
  }

  /** A message on no record passes the duplicate check and resolves as given. */
  lemma Arrives(cs: Casing, states: seq<Sys>, events: seq<Event>, m: Mail, ticket: string, newId: string)
    returns (states': seq<Sys>, events': seq<Event>)
    requires IsRun(cs, states, events) && m.messageId != "" && Unused(states[|events|], newId)
    requires !Said(states[|events|].db, m.tenant, m.messageId) && !Rooted(states[|events|].db, m.tenant, m.messageId)
    ensures IsRun(cs, states', events') && |events'| == |events| + 4 && states <= states' && events <= events'
    ensures var y := states[|events|];
            events'[|events| + 3] == Matched(|y.procs|, ticket, false, newId, false) &&
            states'[|events| + 3].db == y.db &&
            states'[|events'|] == y.(procs := y.procs +
              [Inbound(m, if ticket != "" then Upload(true, ticket) else Upload(false, newId), [], false)],
                                     minted := y.minted + {newId})
  {
    var y, p := states[|events|], |states[|events|].procs|;
    Unfound(y.db, m.tenant, m.messageId);
    hide Said, Rooted, IsRun, FindComment, FindRoot;
    var y1 := Next(cs, y, Deliver(m));
    assert y1 == y.(procs := y.procs + [Inbound(m, LookComment, [], false)]);
    var y2 := Next(cs, y1, Look(p, false));
    assert y2 == y.(procs := y.procs + [Inbound(m, LookTicket, [], false)]);
    var y3 := Next(cs, y2, Look(p, false));
    assert y3 == y.(procs := y.procs + [Inbound(m, Match(false), [], false)]);
    var y4 := Next(cs, y3, Matched(p, ticket, false, newId, false));
    hide Next;
    Last(cs, states, events);
    Extends(cs, states, events, Deliver(m));
    Extends(cs, states + [y1], events + [Deliver(m)], Look(p, false));
    Extends(cs, states + [y1] + [y2], events + [Deliver(m)] + [Look(p, false)], Look(p, false));
    Extends(cs, states + [y1] + [y2] + [y3], events + [Deliver(m)] + [Look(p, false)] + [Look(p, false)],
            Matched(p, ticket, false, newId, false));
    states' := states + [y1] + [y2] + [y3] + [y4];
    events' := events + [Deliver(m)] + [Look(p, false)] + [Look(p, false)] + [Matched(p, ticket, false, newId, false)];
  }

  lemma Last(cs: Casing, states: seq<Sys>, events: seq<Event>)
    requires IsRun(cs, states, events)
    ensures |states| == |events| + 1
  {
  }

  lemma NothingMatches(tenant: string, ids: seq<string>, text: string, subject: string)
    ensures Matches(S.EMPTY, tenant, ids, text, subject, NoMatch)
  {
  }

  lemma RootMatches(cs: Casing, db: S.Db, tenant: string, id: string, k: string, text: string, subject: string)
    requires V.Valid(cs, db) && id != "" && RootIs(db.tickets, k, tenant, id) && db.comments == map[]
    ensures Matches(db, tenant, [id], text, subject, Found(k, BY_EXTERNAL_ID))
  {
    RootFound(cs, db, tenant, id, k);
    assert V.KeysMatch(db);
    hide V.Valid;
    assert FirstRoot(db, tenant, [id], 0);
    assert !NoRoot(db, tenant, [id], 1) by { assert FindRoot(db, tenant, [id][0]).Some?; }
  }

  predicate Six(ids: seq<string>) {
    |ids| == 6 && (forall i :: 0 <= i < 6 ==> |ids[i]| == 36) && (forall i, j :: 0 <= i < j < 6 ==> ids[i] != ids[j])
  }

  /** A reply that resolved to no ticket, and then the ticket of the message it answers. */
  lemma EarlyReply(cs: Casing, a: Mail, m: Mail, ids: seq<string>, now: Time)
    returns (states: seq<Sys>, events: seq<Event>)
    requires a.tenant == m.tenant && a.messageId != "" && m.messageId != "" && a.messageId != m.messageId
    requires a.files == [] && m.files == [] && a.mailbox == "" && m.mailbox == "" && Six(ids)
    ensures IsRun(cs, states, events) && |events| == 9
    ensures events[3] == Matched(0, "", false, ids[0], false) && states[3].db == S.EMPTY
    ensures var y := states[9];
            |y.procs| == 2 && y.procs[0] == Inbound(m, Upload(false, ids[0]), [], false) &&
            y.minted == {ids[0], ids[1], ids[2]} &&
            y.db == S.CreateTicket(S.EMPTY, NewTicket(a, ids[1]), now).db
  {
    hide Next, V.Valid;
    V.EmptyIsValid(cs);
    var s0, e0: seq<Event> := [START], [];
    var s1, e1 := Arrives(cs, s0, e0, m, "", ids[0]);
    var s2, e2 := Arrives(cs, s1, e1, a, "", ids[1]);
    hide IsRun;
    var y := s2[8];
    assert y.db == S.EMPTY && y.minted == {ids[0], ids[1]};
    assert Ready(y, 1, a, false, ids[1]);
    Writes(cs, y, 1, a, false, ids[1], ids[2], now);
    Extends(cs, s2, e2, WriteRow(1, ids[2], now, false));
    states, events := s2 + [Next(cs, y, WriteRow(1, ids[2], now, false))], e2 + [WriteRow(1, ids[2], now, false)];
  }

  /**
   * The race happens: a reply is delivered before the message it answers, resolves to no ticket, and is delivered
   * again once that message has its ticket. Every look-up is answered as the store then stands; both deliveries
   * write, and the reply is a comment of the one ticket and the root of another.
   */
  lemma RaceRecordsBoth(cs: Casing, a: Mail, m: Mail, ids: seq<string>, now: Time)
    returns (states: seq<Sys>, events: seq<Event>)
    requires a.tenant == m.tenant && a.messageId != "" && m.messageId != "" && a.messageId != m.messageId
    requires a.files == [] && m.files == [] && a.mailbox == "" && m.mailbox == "" && Six(ids)
    ensures IsRun(cs, states, events) && |events| == 15
    ensures events[3] == Matched(0, "", false, ids[0], false) &&
            Matches(states[3].db, m.tenant, [a.messageId], m.text, m.subject, NoMatch)
    ensures events[12] == Matched(2, ids[1], false, ids[3], false) &&
            Matches(states[12].db, m.tenant, [a.messageId], m.text, m.subject, Found(ids[1], BY_EXTERNAL_ID))
    ensures Said(states[15].db, m.tenant, m.messageId) && Rooted(states[15].db, m.tenant, m.messageId)
  {
    hide Next, V.Valid, Matches, S.CreateTicket, Said, Rooted;
    NothingMatches(m.tenant, [a.messageId], m.text, m.subject);
    FirstRow(cs, a, m, ids[1], now);
    var s1, e1 := EarlyReply(cs, a, m, ids, now);
    RootMatches(cs, s1[9].db, m.tenant, a.messageId, ids[1], m.text, m.subject);
    var s2, e2 := Arrives(cs, s1, e1, m, ids[1], ids[3]);
    var y := s2[13];
    assert Ready(y, 2, m, true, ids[1]) && Ready(y, 0, m, false, ids[0]);
    RaceExactly(cs, y, 2, 0, m, m, true, false, ids[1], ids[0], ids[4], ids[5], now, now);
    states, events := TwoMore(cs, s2, e2, WriteRow(2, ids[4], now, false), WriteRow(0, ids[5], now, false));
  }

  lemma TwoMore(cs: Casing, states: seq<Sys>, events: seq<Event>, e: Event, f: Event)
    returns (states': seq<Sys>, events': seq<Event>)
    requires IsRun(cs, states, events)
    ensures IsRun(cs, states', events') && |events'| == |events| + 2 && states <= states' && events <= events'
    ensures states'[|events'|] == Next(cs, Next(cs, states[|events|], e), f)
  {
    hide Next, IsRun;
    Last(cs, states, events);
    var y := Next(cs, states[|events|], e);
    Extends(cs, states, events, e);
    Extends(cs, states + [y], events + [e], f);
    states', events' := states + [y] + [Next(cs, y, f)], events + [e] + [f];
    Last(cs, states', events');
  }

  /** The first ticket of an empty store. */
  lemma FirstRow(cs: Casing, a: Mail, m: Mail, id: string, now: Time)
    requires a.messageId != m.messageId && a.mailbox == "" && a.tenant == m.tenant
    ensures var db := S.CreateTicket(S.EMPTY, NewTicket(a, id), now).db;
            V.Valid(cs, db) && db.comments == map[] && db.tickets.Keys == {id} &&
            RootIs(db.tickets, id, a.tenant, a.messageId) &&
            !Said(db, m.tenant, m.messageId) && !Rooted(db, m.tenant, m.messageId)
  {
    hide V.Valid;
    V.EmptyIsValid(cs);
    V.ApplyKeepsValid(cs, S.EMPTY, S.OpCreateTicket(NewTicket(a, id), now));
  }

  // -------------------------------------------------------------------- what excludes it

  /** The roots a call leaves are the ones there were, or the one it creates. */
  ghost predicate RootsFollow(a: map<string, Ticket>, b: map<string, Ticket>, op: S.Op) {
    forall k :: k in b ==> (k in a && SameRoot(a[k], b[k])) || (op.OpCreateTicket? && SameRoot(op.t, b[k]))
  }

  predicate SameRoot(a: Ticket, b: Ticket) { b.tenant == a.tenant && b.externalId == a.externalId }

  /** One row rewritten or created; the others stay. */
  lemma OneRowFollows(a: map<string, Ticket>, id: string, t: Ticket, op: S.Op)
    requires (id in a && SameRoot(a[id], t)) || (op.OpCreateTicket? && SameRoot(op.t, t))
    ensures RootsFollow(a, a[id := t], op)
  {
  }

  lemma FewerFollow(a: map<string, Ticket>, b: map<string, Ticket>, op: S.Op)
    requires forall k :: k in b ==> k in a && SameRoot(a[k], b[k])
    ensures RootsFollow(a, b, op)
  {
  }

  lemma CreateRoots(cs: Casing, db: S.Db, op: S.Op)
    requires op.OpCreateTicket?
    ensures RootsFollow(db.tickets, S.Apply(cs, db, op).tickets, op)
  {
    hide S.ExternalTaken, S.MailboxKnown, RootsFollow;
    FewerFollow(db.tickets, db.tickets, op);
    OneRowFollows(db.tickets, op.t.id, S.Opened(op.t, op.now), op);
  }

  lemma ChangeRoots(cs: Casing, db: S.Db, op: S.Op)
    requires op.OpUpdateTicket? || op.OpSetAssignee? || op.OpSetStatus?
    ensures RootsFollow(db.tickets, S.Apply(cs, db, op).tickets, op)
  {
    hide RootsFollow;
    FewerFollow(db.tickets, db.tickets, op);
    var b := S.Apply(cs, db, op).tickets;
    if S.HasTicket(db, op.tenant, op.id) { OneRowFollows(db.tickets, op.id, b[op.id], op); }
  }

  lemma RemoveRoots(cs: Casing, db: S.Db, op: S.Op)
    requires op.OpDeleteTicket? || op.OpDeleteMailbox?
    ensures RootsFollow(db.tickets, S.Apply(cs, db, op).tickets, op)
  {
    hide S.MailboxKnown, S.MailboxUsed, S.HistoryWithout, S.KeysOfTicket, RootsFollow, S.Unrouted;
    var b := S.Apply(cs, db, op).tickets;
    FewerFollow(db.tickets, db.tickets, op);
    if op.OpDeleteTicket? {
      FewerFollow(db.tickets, db.tickets - {op.id}, op);
    } else {
      UnroutedRoots(db.tickets, op.id, op);
    }
  }

  lemma UnroutedRoots(tickets: map<string, Ticket>, mailbox: string, op: S.Op)
    ensures RootsFollow(tickets, S.Unrouted(tickets, mailbox), op)
  {
  }

  lemma SayRoots(db: S.Db, c: Comment, now: Time, op: S.Op)
    requires c.ticket in db.tickets ==> db.tickets[c.ticket].id == c.ticket
    ensures RootsFollow(db.tickets, S.CreateComment(db, c, now).db.tickets, op)
  {
    hide S.MessageTaken, RootsFollow;
    FewerFollow(db.tickets, db.tickets, op);
    if S.HasTicket(db, c.tenant, c.ticket) {
      OneRowFollows(db.tickets, c.ticket, S.Commented(db.tickets[c.ticket], S.Written(c, now)), op);
    }
  }

  lemma UnsayRoots(tickets: map<string, Ticket>, id: string, op: S.Op)
    requires id in tickets ==> tickets[id].id == id
    ensures RootsFollow(tickets, S.Uncommented(tickets, id), op)
  {
    hide RootsFollow;
    FewerFollow(tickets, tickets, op);
    if id in tickets { OneRowFollows(tickets, id, tickets[id].(commentCount := tickets[id].commentCount - 1), op); }
  }

  lemma CommentRoots(cs: Casing, db: S.Db, op: S.Op)
    requires V.KeysMatch(db) && (op.OpCreateComment? || op.OpDeleteComment?)
    ensures RootsFollow(db.tickets, S.Apply(cs, db, op).tickets, op)
  {
    hide S.CreateComment, S.Uncommented, S.KeysOfComment, RootsFollow;
    FewerFollow(db.tickets, db.tickets, op);
    if op.OpCreateComment? { SayRoots(db, op.c, op.now, op); }
    else if S.HasComment(db, op.tenant, op.id) { UnsayRoots(db.tickets, db.comments[op.id].ticket, op); }
  }

  predicate TouchesTickets(op: S.Op) {
    op.OpCreateTicket? || op.OpUpdateTicket? || op.OpSetAssignee? || op.OpSetStatus? ||
    op.OpDeleteTicket? || op.OpDeleteMailbox? ||
    op.OpCreateComment? || op.OpDeleteComment?
  }

  lemma TicketsUntouched(cs: Casing, db: S.Db, op: S.Op)
    requires !TouchesTickets(op)
    ensures S.Apply(cs, db, op).tickets == db.tickets
  {
    hide S.MailboxKnown, S.KeyTaken, S.CommentMatches, S.NameTaken, S.TagsKnown, S.AddressTaken, S.NormAddr,
      S.LinksWithout;
  }

  lemma ApplyRoots(cs: Casing, db: S.Db, op: S.Op)
    requires V.Valid(cs, db)
    ensures RootsFollow(db.tickets, S.Apply(cs, db, op).tickets, op)
  {
    assert V.KeysMatch(db);
    hide V.Valid, V.KeysMatch, S.Apply;
    if !TouchesTickets(op) { TicketsUntouched(cs, db, op); }
    else if op.OpCreateTicket? { CreateRoots(cs, db, op); }
    else if op.OpDeleteTicket? || op.OpDeleteMailbox? { RemoveRoots(cs, db, op); }
    else if op.OpCreateComment? || op.OpDeleteComment? { CommentRoots(cs, db, op); }
    else { ChangeRoots(cs, db, op); }
  }

  /** The call creates no row with this Message-ID. */
  predicate Strange(op: S.Op, tenant: string, id: string) {
    (op.OpCreateTicket? ==> op.t.tenant != tenant || op.t.externalId != id) &&
    (op.OpCreateComment? ==> op.c.tenant != tenant || op.c.messageId != id)
  }

  /** No new record of this Message-ID. */
  ghost predicate Fewer(a: S.Db, b: S.Db, tenant: string, id: string) {
    (forall k :: CommentIs(b.comments, k, tenant, id) ==> CommentIs(a.comments, k, tenant, id)) &&
    (forall k :: RootIs(b.tickets, k, tenant, id) ==> RootIs(a.tickets, k, tenant, id))
  }

  lemma CreatedRow(db: S.Db, c: Comment, now: Time)
    ensures var r := S.CreateComment(db, c, now).db.comments;
            r == db.comments || r == db.comments[c.id := S.Written(c, now)]
    ensures S.Written(c, now).tenant == c.tenant && S.Written(c, now).messageId == c.messageId
  {
    hide S.MessageTaken, S.HasTicket, S.Commented;
  }

  lemma CommentsFewer(cs: Casing, db: S.Db, op: S.Op, tenant: string, id: string)
    requires Strange(op, tenant, id)
    ensures forall k :: CommentIs(S.Apply(cs, db, op).comments, k, tenant, id) ==> CommentIs(db.comments, k, tenant, id)
  {
    hide S.CreateComment, S.Written;
    if op.OpCreateComment? {
      CreatedRow(db, op.c, op.now);
    } else {
      ApplyFollows(cs, db, op);
      hide S.Apply;
    }
  }

  lemma ApplyFewer(cs: Casing, db: S.Db, op: S.Op, tenant: string, id: string)
    requires V.Valid(cs, db) && Strange(op, tenant, id)
    ensures Fewer(db, S.Apply(cs, db, op), tenant, id)
  {
    hide V.Valid, S.Apply, CommentIs;
    ApplyRoots(cs, db, op);
    CommentsFewer(cs, db, op, tenant, id);
  }

  lemma FewerRecords(a: S.Db, b: S.Db, tenant: string, id: string)
    requires Fewer(a, b, tenant, id)
    ensures (Said(b, tenant, id) ==> Said(a, tenant, id)) && (Rooted(b, tenant, id) ==> Rooted(a, tenant, id))
  {
  }

  /** An ingestion of the message. */
  predicate Of(pr: Proc, tenant: string, id: string) {
    pr.Inbound? && pr.mail.tenant == tenant && pr.mail.messageId == id
  }

  /** Past the first look-up of the duplicate check, the row still to be written. */
  predicate Between(phase: Phase) {
    phase.LookTicket? || phase.Match? || phase.Upload? || phase == Discard(ThenNewTicket)
  }

  /** At most one ingestion of the message is between its duplicate check and its row. */
  ghost predicate Alone(y: Sys, tenant: string, id: string) {
    forall p, q :: 0 <= p < q < |y.procs| && Of(y.procs[p], tenant, id) && Of(y.procs[q], tenant, id) ==>
      !Between(y.procs[p].phase) || !Between(y.procs[q].phase)
  }

  /** Only ingestions bring the Message-ID. */
  predicate Foreign(e: Event, tenant: string, id: string) {
    (e.Post? ==> e.tenant != tenant || OutboundId(e.ticket, e.uuid, e.domain) != id) &&
    (e.Other? ==> Strange(e.op, tenant, id))
  }

  ghost predicate Unwritten(db: S.Db, phase: Phase, tenant: string, id: string) {
    Between(phase) ==> !Said(db, tenant, id) && (phase.LookTicket? || !Rooted(db, tenant, id))
  }

  ghost predicate ProcClear(db: S.Db, pr: Proc, tenant: string, id: string) {
    (Of(pr, tenant, id) ==> Unwritten(db, pr.phase, tenant, id)) &&
    (pr.Poster? ==> pr.letter.tenant != tenant || pr.letter.messageId != id)
  }

  /** Not both records; and none while an ingestion is about to write one. */
  ghost predicate Clear(y: Sys, tenant: string, id: string) {
    !(Said(y.db, tenant, id) && Rooted(y.db, tenant, id)) &&
    forall p :: 0 <= p < |y.procs| ==> ProcClear(y.db, y.procs[p], tenant, id)
  }

  lemma FewerClear(a: S.Db, b: S.Db, pr: Proc, tenant: string, id: string)
    requires ProcClear(a, pr, tenant, id) && Fewer(a, b, tenant, id)
    ensures ProcClear(b, pr, tenant, id)
  {
    FewerRecords(a, b, tenant, id);
    hide Said, Rooted, Fewer;
  }

  /** A step of one process that adds no record of the message. */
  lemma KeepsClear(y: Sys, y': Sys, p: nat, tenant: string, id: string)
    requires Clear(y, tenant, id) && Fewer(y.db, y'.db, tenant, id)
    requires p < |y.procs| == |y'.procs| && y'.procs == y.procs[p := y'.procs[p]]
    requires ProcClear(y'.db, y'.procs[p], tenant, id)
    ensures Clear(y', tenant, id)
  {
    FewerRecords(y.db, y'.db, tenant, id);
    hide Said, Rooted, Fewer, ProcClear;
    forall q | 0 <= q < |y'.procs| ensures ProcClear(y'.db, y'.procs[q], tenant, id) {
      if q != p { FewerClear(y.db, y'.db, y.procs[q], tenant, id); }
    }
  }

  lemma SameFewer(a: S.Db, b: S.Db, tenant: string, id: string)
    requires b.comments == a.comments && b.tickets == a.tickets
    ensures Fewer(a, b, tenant, id)
  {
  }

  lemma StartClear(cs: Casing, y: Sys, e: Event, tenant: string, id: string)
    requires Clear(y, tenant, id) && Foreign(e, tenant, id) && (e.Deliver? || e.Erase? || e.Post?)
    ensures Clear(Next(cs, y, e), tenant, id)
  {
    hide Said, Rooted;
  }

  lemma LookClear(cs: Casing, y: Sys, e: Event, tenant: string, id: string)
    requires Clear(y, tenant, id) && e.Look? && id != ""
    ensures Clear(Next(cs, y, e), tenant, id)
  {
    hide Said, Rooted, FindComment, FindRoot, Fewer;
    Unfound'(y.db, tenant, id);
    SameFewer(y.db, y.db, tenant, id);
    var y' := Next(cs, y, e);
    if Busy(y, e.p) { assert ProcClear(y.db, y.procs[e.p], tenant, id); KeepsClear(y, y', e.p, tenant, id); }
  }

  lemma Unfound'(db: S.Db, tenant: string, id: string)
    requires id != ""
    ensures FindComment(db, tenant, id).None? ==> !Said(db, tenant, id)
    ensures FindRoot(db, tenant, id).None? ==> !Rooted(db, tenant, id)
  {
  }

  /** Matching, uploading and removing change no row. */
  lemma MoveClear(cs: Casing, y: Sys, e: Event, tenant: string, id: string)
    requires Clear(y, tenant, id) && (e.Matched? || e.Put? || e.Remove? || e.Send?)
    ensures Clear(Next(cs, y, e), tenant, id)
  {
    hide Said, Rooted, Fewer;
    SameFewer(y.db, y.db, tenant, id);
    var y' := Next(cs, y, e);
    if e.p < |y.procs| { assert ProcClear(y.db, y.procs[e.p], tenant, id); KeepsClear(y, y', e.p, tenant, id); }
  }

  lemma FileClear(cs: Casing, y: Sys, e: Event, tenant: string, id: string)
    requires Clear(y, tenant, id) && e.WriteFile? && V.Valid(cs, y.db)
    ensures Clear(Next(cs, y, e), tenant, id)
  {
    hide Said, Rooted, Fewer, V.Valid, S.CreateAttachment;
    SameFewer(y.db, y.db, tenant, id);
    var y' := Next(cs, y, e);
    if Busy(y, e.p) {
      var pr := y.procs[e.p];
      if pr.phase.Record? && pr.staged != [] {
        ApplyFewer(cs, y.db, S.OpCreateAttachment(pr.staged[0].(comment := pr.phase.comment), e.now), tenant, id);
      }
      assert ProcClear(y.db, pr, tenant, id);
      KeepsClear(y, y', e.p, tenant, id);
    }
  }

  lemma PurgeClear(cs: Casing, y: Sys, e: Event, tenant: string, id: string)
    requires Clear(y, tenant, id) && e.Purge? && V.Valid(cs, y.db)
    ensures Clear(Next(cs, y, e), tenant, id)
  {
    hide Said, Rooted, Fewer, V.Valid, S.DeleteComment, S.DeleteTicket;
    SameFewer(y.db, y.db, tenant, id);
    var y' := Next(cs, y, e);
    if e.p < |y.procs| && y.procs[e.p].Eraser? {
      ApplyFewer(cs, y.db, S.OpDeleteComment(y.procs[e.p].tenant, y.procs[e.p].id), tenant, id);
      ApplyFewer(cs, y.db, S.OpDeleteTicket(y.procs[e.p].tenant, y.procs[e.p].id), tenant, id);
      KeepsClear(y, y', e.p, tenant, id);
    }
  }

  lemma PostClear(cs: Casing, y: Sys, e: Event, tenant: string, id: string)
    requires Clear(y, tenant, id) && e.WritePost? && V.Valid(cs, y.db)
    ensures Clear(Next(cs, y, e), tenant, id)
  {
    hide Said, Rooted, Fewer, V.Valid, S.CreateComment;
    SameFewer(y.db, y.db, tenant, id);
    var y' := Next(cs, y, e);
    if e.p < |y.procs| && y.procs[e.p].Poster? {
      assert ProcClear(y.db, y.procs[e.p], tenant, id);
      ApplyFewer(cs, y.db, S.OpCreateComment(PostRow(y.procs[e.p].letter, e.body, e.author), e.now), tenant, id);
      KeepsClear(y, y', e.p, tenant, id);
    }
  }

  lemma OtherClear(cs: Casing, y: Sys, e: Event, tenant: string, id: string)
    requires Clear(y, tenant, id) && e.Other? && V.Valid(cs, y.db) && Foreign(e, tenant, id)
    ensures Clear(Next(cs, y, e), tenant, id)
  {
    hide Said, Rooted, Fewer, V.Valid, S.Apply, ProcClear;
    var y' := Next(cs, y, e);
    if Permitted(y, e.op) {
      ApplyFewer(cs, y.db, e.op, tenant, id);
      FewerRecords(y.db, y'.db, tenant, id);
      forall q | 0 <= q < |y'.procs| ensures ProcClear(y'.db, y'.procs[q], tenant, id) {
        FewerClear(y.db, y'.db, y.procs[q], tenant, id);
      }
    }
  }

  /** The row of another message. */
  lemma OtherRowClear(cs: Casing, y: Sys, e: Event, tenant: string, id: string)
    requires Clear(y, tenant, id) && e.WriteRow? && V.Valid(cs, y.db) && Busy(y, e.p) && !Of(y.procs[e.p], tenant, id)
    ensures Clear(Next(cs, y, e), tenant, id)
  {
    hide Said, Rooted, Fewer, V.Valid, S.CreateComment, S.CreateTicket, Clear;
    SameFewer(y.db, y.db, tenant, id);
    var pr := y.procs[e.p];
    if pr.phase.Upload? {
      ApplyFewer(cs, y.db, S.OpCreateComment(NewReply(pr.mail, pr.phase.ticket, e.newId), e.now), tenant, id);
      ApplyFewer(cs, y.db, S.OpCreateTicket(NewTicket(pr.mail, pr.phase.ticket), e.now), tenant, id);
      KeepsClear(y, Next(cs, y, e), e.p, tenant, id);
    }
  }

  /** A reply's row makes no root, and a ticket's row no comment. */
  lemma OneKind(cs: Casing, db: S.Db, m: Mail, reply: bool, ticket: string, newId: string, now: Time, fault: bool)
    requires V.Valid(cs, db) && m.messageId != "" && !Said(db, m.tenant, m.messageId) &&
             !Rooted(db, m.tenant, m.messageId)
    ensures var (db', phase) := RowWritten(db, m, reply, ticket, newId, now, fault);
            !(Said(db', m.tenant, m.messageId) && Rooted(db', m.tenant, m.messageId)) &&
            (phase.Record? || (phase.Discard? && db' == db))
  {
    hide V.Valid, S.MessageTaken, S.ExternalTaken, S.MailboxKnown, S.HasTicket;
    if reply {
      var op := S.OpCreateComment(NewReply(m, ticket, newId), now);
      ApplyRoots(cs, db, op);
      assert forall k :: RootIs(S.Apply(cs, db, op).tickets, k, m.tenant, m.messageId) ==>
               RootIs(db.tickets, k, m.tenant, m.messageId);
    }
  }

  lemma OwnRowClear(cs: Casing, y: Sys, e: Event, tenant: string, id: string)
    requires Clear(y, tenant, id) && Alone(y, tenant, id) && e.WriteRow? && V.Valid(cs, y.db) && Busy(y, e.p) &&
             id != ""
    requires Of(y.procs[e.p], tenant, id)
    ensures Clear(Next(cs, y, e), tenant, id)
  {
    hide Said, Rooted, V.Valid, RowWritten;
    var y', pr := Next(cs, y, e), y.procs[e.p];
    if pr.phase.Upload? && |pr.staged| >= |pr.mail.files| && Unused(y, e.newId) {
      assert ProcClear(y.db, pr, tenant, id);
      OneKind(cs, y.db, pr.mail, pr.phase.reply, pr.phase.ticket, e.newId, e.now, e.fault);
      forall q | 0 <= q < |y'.procs| ensures ProcClear(y'.db, y'.procs[q], tenant, id) {
        assert ProcClear(y.db, y.procs[q], tenant, id);
      }
    }
  }

  lemma NextClear(cs: Casing, y: Sys, e: Event, tenant: string, id: string)
    requires Clear(y, tenant, id) && Alone(y, tenant, id) && Foreign(e, tenant, id) && V.Valid(cs, y.db) && id != ""
    ensures Clear(Next(cs, y, e), tenant, id)
  {
    hide Clear, Alone, Foreign, V.Valid, PutFile, WriteMain, RemoveObject, WriteNext, PurgeRows, RecordPost, Looked,
      S.Apply;
    match e
    case Deliver(_) => StartClear(cs, y, e, tenant, id);
    case Erase(_, _, _) => StartClear(cs, y, e, tenant, id);
    case Post(_, _, _, _, _) => StartClear(cs, y, e, tenant, id);
    case Look(_, _) => LookClear(cs, y, e, tenant, id);
    case WriteRow(_, _, _, _) =>
      if Busy(y, e.p) {
        if Of(y.procs[e.p], tenant, id) {
          OwnRowClear(cs, y, e, tenant, id);
        } else {
          OtherRowClear(cs, y, e, tenant, id);
        }
      }
    case WriteFile(_, _, _) => FileClear(cs, y, e, tenant, id);
    case Purge(_, _) => PurgeClear(cs, y, e, tenant, id);
    case WritePost(_, _, _, _, _) => PostClear(cs, y, e, tenant, id);
    case Other(_) => OtherClear(cs, y, e, tenant, id);
    case _ => MoveClear(cs, y, e, tenant, id);
  }

  /**
   * If the ingestions of a message are never two at once between duplicate check and row, and nothing else brings
   * its Message-ID, then in no state of the run is it recorded both as a comment and as a root.
   */
  lemma {:induction false} AloneRecordsOnce(cs: Casing, states: seq<Sys>, events: seq<Event>, n: nat, tenant: string,
                                            id: string)
    requires IsRun(cs, states, events) && n <= |events| && id != ""
    requires forall i :: 0 <= i < n ==> Alone(states[i], tenant, id) && Foreign(events[i], tenant, id)
    ensures !(Said(states[n].db, tenant, id) && Rooted(states[n].db, tenant, id)) && Clear(states[n], tenant, id)
  {
    hide Next, Safe, Mailing, Alone, Foreign;
    if n > 0 {
      AloneRecordsOnce(cs, states, events, n - 1, tenant, id);
      RunsAreSafe(cs, states, events, n - 1);
      SafeIsValid(cs, states[n - 1]);
      assert states[n - 1 + 1] == Next(cs, states[n - 1], events[n - 1]);
      hide Clear;
      NextClear(cs, states[n - 1], events[n - 1], tenant, id);
      ClearOnce(states[n], tenant, id);
    }
  }

  lemma SafeIsValid(cs: Casing, y: Sys)
    requires Safe(cs, y)
    ensures V.Valid(cs, y.db)
  {
    hide V.Valid;
  }

  lemma ClearOnce(y: Sys, tenant: string, id: string)
    requires Clear(y, tenant, id)
    ensures !(Said(y.db, tenant, id) && Rooted(y.db, tenant, id))
  {
  }
}
