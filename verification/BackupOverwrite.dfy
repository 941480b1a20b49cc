/**
 * What an import leaves in the rows that were there (internal/backup/backup.go): overwriting, each carries what the
 * document says of it last; otherwise it stays as it was.
 */
module BackupOverwrite {
  import opened Rows
  import opened Text
  import opened Store
  import opened StoreLaws
  import opened Backup
  import R = BackupRepeat
  import Y = BackupRetry

  // ------------------------------------------------------------------- tickets

  /** Row i is the last of the list with that id. */
  predicate LastTicket(rows: seq<Ticket>, id: string, i: int) {
    0 <= i < |rows| && rows[i].id == id && forall k :: i < k < |rows| ==> rows[k].id != id
  }

  /** Row i is the last with that id that gives a status. */
  predicate LastStatus(rows: seq<Ticket>, id: string, i: int) {
    0 <= i < |rows| && rows[i].id == id && rows[i].status != "" &&
    forall k :: i < k < |rows| && rows[k].id == id ==> rows[k].status == ""
  }

  predicate LastPriority(rows: seq<Ticket>, id: string, i: int) {
    0 <= i < |rows| && rows[i].id == id && rows[i].priority != "" &&
    forall k :: i < k < |rows| && rows[k].id == id ==> rows[k].priority == ""
  }

  /** The texts and the assignee are the row's; a blank subject has its stand-in, and no assignee has no name. */
  predicate Says(row: Ticket, t: Ticket) {
    t.subject == (if TrimSpace(row.subject) == "" then "(no subject)" else row.subject) &&
    t.description == row.description && t.assignee == row.assignee &&
    t.assigneeName == (if row.assignee == "" then "" else row.assigneeName)
  }

  /** Everything but the fields an overwrite writes. */
  predicate KeptRest(was: Ticket, t: Ticket) {
    t == was.(subject := t.subject, description := t.description, assignee := t.assignee,
              assigneeName := t.assigneeName, status := t.status, priority := t.priority, updatedAt := t.updatedAt,
              resolvedAt := t.resolvedAt)
  }

  /** The ticket carries what the rows with its id say last, and is as it was where they say nothing. */
  ghost predicate Carries(was: Ticket, t: Ticket, rows: seq<Ticket>) {
    KeptRest(was, t) && (forall i :: LastTicket(rows, was.id, i) ==> Says(rows[i], t)) &&
    (forall i :: LastStatus(rows, was.id, i) ==>
       t.status == rows[i].status && (t.resolvedAt.Some? <==> t.status == "resolved")) &&
    (forall i :: LastPriority(rows, was.id, i) ==> t.priority == rows[i].priority) &&
    ((forall i :: 0 <= i < |rows| ==> rows[i].id != was.id) ==> t == was) &&
    ((forall i :: 0 <= i < |rows| && rows[i].id == was.id ==> rows[i].status == "") ==>
       t.status == was.status && t.resolvedAt == was.resolvedAt) &&
    ((forall i :: 0 <= i < |rows| && rows[i].id == was.id ==> rows[i].priority == "") ==> t.priority == was.priority)
  }

  /** One row written over a ticket. */
  predicate WrittenOver(row: Ticket, was: Ticket, t: Ticket) {
    KeptRest(was, t) && Says(row, t) && t.status == (if row.status == "" then was.status else row.status) &&
    (if row.status == "" then t.resolvedAt == was.resolvedAt
     else (t.resolvedAt.Some? <==> t.status == "resolved")) &&
    t.priority == (if row.priority == "" then was.priority else row.priority)
  }

  lemma CarriesNothing(was: Ticket)
    ensures Carries(was, was, [])
  {
  }

  lemma CarriesMore(was: Ticket, t: Ticket, t': Ticket, rows: seq<Ticket>, row: Ticket)
    requires Carries(was, t, rows)
    requires if row.id == was.id then WrittenOver(row, t, t') else t' == t
    ensures Carries(was, t', rows + [row])
  {
    var n, more := |rows|, rows + [row];
    assert forall i :: 0 <= i < n ==> more[i] == rows[i];
    forall i | LastTicket(more, was.id, i) ensures Says(more[i], t') {
      if i < n {
        assert more[n].id != was.id;
        assert LastTicket(rows, was.id, i);
      }
    }
    forall i | LastStatus(more, was.id, i)
      ensures t'.status == more[i].status && (t'.resolvedAt.Some? <==> t'.status == "resolved")
    {
      if i < n { assert LastStatus(rows, was.id, i); }
    }
    forall i | LastPriority(more, was.id, i) ensures t'.priority == more[i].priority {
      if i < n { assert LastPriority(rows, was.id, i); }
    }
    assert more[n] == row;
    if forall i :: 0 <= i < |more| ==> more[i].id != was.id {
      forall i | 0 <= i < n ensures rows[i].id != was.id { assert more[i].id != was.id; }
    }
    if forall i :: 0 <= i < |more| && more[i].id == was.id ==> more[i].status == "" {
      forall i | 0 <= i < n && rows[i].id == was.id ensures rows[i].status == "" { assert more[i].status == ""; }
    }
    if forall i :: 0 <= i < |more| && more[i].id == was.id ==> more[i].priority == "" {
      forall i | 0 <= i < n && rows[i].id == was.id ensures rows[i].priority == "" { assert more[i].priority == ""; }
    }
  }

  /** What a ticket takes from another one with its id. */
  predicate Takes(given: Ticket, was: Ticket, t: Ticket) {
    KeptRest(was, t) && t.subject == given.subject && t.description == given.description &&
    t.assignee == given.assignee && t.assigneeName == (if given.assignee == "" then "" else given.assigneeName) &&
    t.status == (if given.status == "" then was.status else given.status) &&
    (if given.status == "" then t.resolvedAt == was.resolvedAt
     else (t.resolvedAt.Some? <==> t.status == "resolved")) &&
    t.priority == (if given.priority == "" then was.priority else given.priority)
  }

  /** The three store calls of an overwrite together. */
  ghost predicate Overwrites(s: Db, r: Step, t: Ticket) {
    if !HasTicket(s, t.tenant, t.id) then r == Step(s, NotFound)
    else
      r.out == Done && r.db == s.(tickets := r.db.tickets) && OneRow(s.tickets, r.db.tickets, t.id) &&
      Takes(t, s.tickets[t.id], r.db.tickets[t.id])
  }

  lemma OverwriteTakes(s: Db, t: Ticket, now: Time)
    ensures Overwrites(s, OverwriteTicket(s, t, now), t)
  {
    hide UpdateTicket, SetStatus, SetAssignee;
    var at, p := OrNow(t.updatedAt, now), PatchOf(t);
    var a := UpdateTicket(s, t.tenant, t.id, p, at, now);
    UpdateTicketLaw(s, t.tenant, t.id, p, at, now);
    var b := if t.status != "" then SetStatus(a.db, t.tenant, t.id, t.status, at, now) else a;
    SetStatusLaw(a.db, t.tenant, t.id, t.status, at, now);
    SetAssigneeLaw(b.db, t.tenant, t.id, t.assignee, t.assigneeName, at, now);
  }

  lemma OverwriteLaw(s: Db, row: Ticket, target: string, known: set<string>, now: Time)
    requires HasTicket(s, target, row.id)
    ensures var r := OverwriteTicket(s, Prepared(row, target, known), now);
            r.out == Done && r.db == s.(tickets := r.db.tickets) && OneRow(s.tickets, r.db.tickets, row.id) &&
            WrittenOver(row, s.tickets[row.id], r.db.tickets[row.id])
  {
    hide OverwriteTicket, TrimSpace, OneRow;
    OverwriteTakes(s, Prepared(row, target, known), now);
  }

  /** One row of the document, as a ticket the tenant has sees it. */
  lemma RowOn(j: Job, l: Load, known: set<string>, i: nat, row: Ticket, id: string)
    requires HasTicket(l.db, j.target, id)
    ensures var e := TicketRow(j, l, known, i, row).db;
            HasTicket(e, j.target, id) &&
            if j.overwrite && row.id == id then WrittenOver(row, l.db.tickets[id], e.tickets[id])
            else e.tickets[id] == l.db.tickets[id]
  {
    hide OverwriteTicket, CreateTicket, WrittenOver, TrimSpace;
    var t := Prepared(row, j.target, known);
    if HasTicket(l.db, j.target, row.id) {
      OverwriteLaw(l.db, row, j.target, known, j.clock(CTickets, i));
      OverKeepsTenant(l.db.tickets[row.id], row,
                      OverwriteTicket(l.db, t, j.clock(CTickets, i)).db.tickets[row.id]);
    } else {
      CreateTicketLaw(l.db, t, j.clock(CTickets, i));
    }
  }

  lemma OverKeepsTenant(was: Ticket, row: Ticket, t: Ticket)
    requires WrittenOver(row, was, t)
    ensures t.tenant == was.tenant && t.id == was.id
  {
  }

  lemma {:induction false} RowsCarry(j: Job, s: Db, known: set<string>, rows: seq<Ticket>, id: string)
    requires HasTicket(s, j.target, id) && s.tickets[id].id == id
    ensures var e := TicketRows(j, s, known, rows).db;
            HasTicket(e, j.target, id) &&
            if j.overwrite then Carries(s.tickets[id], e.tickets[id], rows) else e.tickets[id] == s.tickets[id]
  {
    hide TicketRow, Carries, WrittenOver;
    if rows == [] {
      CarriesNothing(s.tickets[id]);
    } else {
      var n := |rows| - 1;
      var l := TicketRows(j, s, known, rows[..n]);
      RowsCarry(j, s, known, rows[..n], id);
      RowOn(j, l, known, n, rows[n], id);
      assert rows == rows[..n] + [rows[n]];
      if j.overwrite {
        CarriesMore(s.tickets[id], l.db.tickets[id], TicketRows(j, s, known, rows).db.tickets[id], rows[..n], rows[n]);
      }
    }
  }

  // ----------------------------------------------------------- tickets that are new

  /** A new ticket says what its row says; it keeps its mailbox if the tenant has it, and its counters start over. */
  predicate Enters(row: Ticket, t: Ticket, target: string, known: set<string>, now: Time) {
    t.id == row.id && t.tenant == target &&
    t.subject == (if TrimSpace(row.subject) == "" then "(no subject)" else row.subject) &&
    t.description == row.description && t.bodyHTML == row.bodyHTML && t.requesterEmail == row.requesterEmail &&
    t.requesterName == row.requesterName && t.recipient == row.recipient && t.externalId == row.externalId &&
    t.mailbox == (if row.mailbox in known then row.mailbox else "") && t.assignee == row.assignee &&
    t.assigneeName == row.assigneeName && t.createdBy == row.createdBy && t.resolvedAt == row.resolvedAt &&
    t.commentCount == 0 && t.lastMessage == "" && Filled(row.status, "open", t.status) &&
    Filled(row.priority, "normal", t.priority) && Filled(row.source, "manual", t.source) &&
    Stamp(row.createdAt, now, t.createdAt) && Stamp(row.updatedAt, t.createdAt, t.updatedAt)
  }

  lemma PreparedEnters(row: Ticket, t: Ticket, target: string, known: set<string>, now: Time)
    requires TicketKept(Prepared(row, target, known), t, now)
    ensures Enters(row, t, target, known, now)
  {
    hide TrimSpace;
  }

  /** Row i brought the ticket in; what later rows with its id say was written over it, if anything is. */
  ghost predicate Entered(j: Job, known: set<string>, rows: seq<Ticket>, i: int, first: Ticket, t: Ticket) {
    0 <= i < |rows| && Enters(rows[i], first, j.target, known, j.clock(CTickets, i)) &&
    if j.overwrite then Carries(first, t, rows[i + 1..]) else t == first
  }

  lemma {:induction false} RowsEnter(j: Job, s: Db, known: set<string>, rows: seq<Ticket>, id: string)
    returns (i: int, first: Ticket)
    requires id in TicketRows(j, s, known, rows).created
    ensures var e := TicketRows(j, s, known, rows).db;
            HasTicket(e, j.target, id) && first.id == id && Entered(j, known, rows, i, first, e.tickets[id])
  {
    hide TicketRow, Carries, WrittenOver, Enters;
    var n := |rows| - 1;
    var l, l' := TicketRows(j, s, known, rows[..n]), TicketRows(j, s, known, rows);
    RowEnters(j, l, known, n, rows[n]);
    if id in l.created {
      i, first := RowsEnter(j, s, known, rows[..n], id);
      RowOn(j, l, known, n, rows[n], id);
      assert rows[i + 1..] == rows[..n][i + 1..] + [rows[n]];
      if j.overwrite { CarriesMore(first, l.db.tickets[id], l'.db.tickets[id], rows[..n][i + 1..], rows[n]); }
    } else {
      i, first := n, l'.db.tickets[id];
      CarriesNothing(first);
      assert rows[n + 1..] == [];
      EntersId(rows[n], first, j.target, known, j.clock(CTickets, n));
    }
  }

  lemma EntersId(row: Ticket, t: Ticket, target: string, known: set<string>, now: Time)
    requires Enters(row, t, target, known, now)
    ensures t.id == row.id
  {
  }

  lemma RowEnters(j: Job, l: Load, known: set<string>, i: nat, row: Ticket)
    ensures var l' := TicketRow(j, l, known, i, row);
            l'.created <= l.created + {row.id} &&
            (row.id in l'.created && row.id !in l.created ==>
               HasTicket(l'.db, j.target, row.id) &&
               Enters(row, l'.db.tickets[row.id], j.target, known, j.clock(CTickets, i)))
  {
    hide OverwriteTicket, CreateTicket, Enters, TrimSpace;
    var t := Prepared(row, j.target, known);
    var r := CreateTicket(l.db, t, j.clock(CTickets, i));
    CreateTicketLaw(l.db, t, j.clock(CTickets, i));
    if r.out == Done { PreparedEnters(row, r.db.tickets[row.id], j.target, known, j.clock(CTickets, i)); }
  }

  // ------------------------------------------------------------ after the tickets

  /** Only what comments count may differ. */
  predicate Counted(t: Ticket, t': Ticket) {
    t' == t.(commentCount := t'.commentCount, updatedAt := t'.updatedAt, lastMessage := t'.lastMessage)
  }

  ghost predicate AllCounted(a: map<string, Ticket>, b: map<string, Ticket>) {
    forall k :: k in a ==> k in b && b[k].id == k && Counted(a[k], b[k])
  }

  lemma CommentAdds(s: Db, c: Comment, now: Time)
    requires R.TicketKeys(s.tickets)
    ensures AllCounted(s.tickets, CreateComment(s, c, now).db.tickets) &&
            R.TicketKeys(CreateComment(s, c, now).db.tickets)
  {
    hide CreateComment;
    CreateCommentLaw(s, c, now);
  }

  lemma {:induction false} CommentsCount(j: Job, s: Db, rows: seq<Comment>)
    requires R.TicketKeys(s.tickets)
    ensures AllCounted(s.tickets, Comments(j, s, rows).db.tickets) && R.TicketKeys(Comments(j, s, rows).db.tickets)
  {
    hide CreateComment;
    if rows != [] {
      var n := |rows| - 1;
      CommentsCount(j, s, rows[..n]);
      var l := Comments(j, s, rows[..n]);
      CommentAdds(l.db, rows[n].(tenant := j.target), j.clock(CComments, n));
    }
  }

  // ------------------------------------------------------------- rules, tags, mailboxes

  predicate LastRule(rows: seq<Rule>, id: string, i: int) {
    0 <= i < |rows| && rows[i].id == id && forall k :: i < k < |rows| ==> rows[k].id != id
  }

  function RulesNamed(rows: seq<Rule>, id: string): nat {
    if rows == [] then 0
    else RulesNamed(rows[..|rows| - 1], id) + if rows[|rows| - 1].id == id then 1 else 0
  }

  /** The rule says what its last row says, one version on for every row, or stays as it was. */
  ghost predicate RuleCarries(was: Rule, r: Rule, rows: seq<Rule>) {
    (forall i :: LastRule(rows, was.id, i) ==> RuleSays(rows[i].(tenant := was.tenant), r)) &&
    ((forall i :: 0 <= i < |rows| ==> rows[i].id != was.id) ==> r == was) &&
    r.version == was.version + RulesNamed(rows, was.id) && r.createdAt == was.createdAt && r.id == was.id &&
    r.tenant == was.tenant
  }

  lemma RuleCarriesMore(was: Rule, r: Rule, r': Rule, rows: seq<Rule>, row: Rule)
    requires RuleCarries(was, r, rows)
    requires if row.id == was.id then RuleSays(row.(tenant := was.tenant), r') && r'.version == r.version + 1 &&
                                      r'.createdAt == r.createdAt
             else r' == r
    ensures RuleCarries(was, r', rows + [row])
  {
    var n, more := |rows|, rows + [row];
    assert forall i :: 0 <= i < n ==> more[i] == rows[i];
    assert more[..n] == rows;
    assert more[n] == row;
    forall i | LastRule(more, was.id, i) ensures RuleSays(more[i].(tenant := was.tenant), r') {
      if i < n {
        assert more[n].id != was.id;
        assert LastRule(rows, was.id, i);
      }
    }
    if forall i :: 0 <= i < |more| ==> more[i].id != was.id {
      forall i | 0 <= i < n ensures rows[i].id != was.id { assert more[i].id != was.id; }
    }
  }

  lemma RuleRowOn(j: Job, l: Load, i: nat, row: Rule, id: string)
    requires HasRule(l.db, j.target, id)
    ensures var e := RuleRow(j, l, i, row).db;
            HasRule(e, j.target, id) && e == l.db.(rules := e.rules) &&
            if j.overwrite && row.id == id then
              RuleSays(row.(tenant := j.target), e.rules[id]) && e.rules[id].version == l.db.rules[id].version + 1 &&
              e.rules[id].createdAt == l.db.rules[id].createdAt
            else e.rules[id] == l.db.rules[id]
  {
    hide CreateRule, UpdateRule;
    var r := row.(tenant := j.target);
    CreateRuleLaw(l.db, r, j.clock(CRules, i));
    UpdateRuleLaw(l.db, r, j.clock(CRules, i));
  }

  lemma {:induction false} RulesCarry(j: Job, s: Db, rows: seq<Rule>, id: string)
    requires HasRule(s, j.target, id) && s.rules[id].id == id
    ensures var e := Rules(j, s, rows).db;
            HasRule(e, j.target, id) &&
            if j.overwrite then RuleCarries(s.rules[id], e.rules[id], rows) else e.rules[id] == s.rules[id]
  {
    hide RuleRow, RuleSays;
    if rows != [] {
      var n := |rows| - 1;
      hide RuleCarries;
      RulesCarry(j, s, rows[..n], id);
      var l := Rules(j, s, rows[..n]);
      RuleRowOn(j, l, n, rows[n], id);
      assert rows == rows[..n] + [rows[n]];
      if j.overwrite {
        RuleCarriesMore(s.rules[id], l.db.rules[id], Rules(j, s, rows).db.rules[id], rows[..n], rows[n]);
      }
    }
  }

  /** The row is taken: when its turn comes, no other tag of the tenant has its name. */
  ghost predicate TagTaken(j: Job, s: Db, rows: seq<Tag>, was: Tag, i: int) {
    0 <= i < |rows| && rows[i].id == was.id &&
    !NameHeld(j.cs, Tags(j, s, rows[..i]).db.tags, was.id, was.tenant, was.kind, rows[i].name)
  }

  ghost predicate LastTag(j: Job, s: Db, rows: seq<Tag>, was: Tag, i: int) {
    TagTaken(j, s, rows, was, i) && forall k :: i < k < |rows| ==> !TagTaken(j, s, rows, was, k)
  }

  /** The tag is as the last row taken says, or as it was. */
  ghost predicate TagCarries(j: Job, s: Db, rows: seq<Tag>, was: Tag, t: Tag) {
    (forall i :: LastTag(j, s, rows, was, i) ==> TagHolds(rows[i].(tenant := was.tenant), was, t)) &&
    ((forall i :: !TagTaken(j, s, rows, was, i)) ==> t == was) && t.kind == was.kind && t.createdAt == was.createdAt
  }

  lemma TagRowOn(j: Job, l: Load, i: nat, row: Tag, id: string)
    requires HasTag(l.db, j.target, id)
    ensures var e := TagRow(j, l, i, row).db;
            HasTag(e, j.target, id) &&
            if j.overwrite && row.id == id &&
               !NameHeld(j.cs, l.db.tags, id, j.target, l.db.tags[id].kind, row.name) then
              TagHolds(row.(tenant := j.target), l.db.tags[id], e.tags[id])
            else e.tags[id] == l.db.tags[id]
  {
    hide CreateTag, UpdateTag, NameHeld;
    var t := row.(tenant := j.target);
    CreateTagLaw(j.cs, l.db, t, j.clock(CTags, i));
    UpdateTagLaw(j.cs, l.db, t);
  }

  lemma {:induction false} TagsCarry(j: Job, s: Db, rows: seq<Tag>, id: string)
    requires HasTag(s, j.target, id) && s.tags[id].id == id
    ensures var e := Tags(j, s, rows).db;
            HasTag(e, j.target, id) &&
            if j.overwrite then TagCarries(j, s, rows, s.tags[id], e.tags[id]) else e.tags[id] == s.tags[id]
  {
    hide TagRow, TagHolds, NameHeld;
    if rows != [] {
      var n := |rows| - 1;
      hide TagCarries;
      TagsCarry(j, s, rows[..n], id);
      TagRowOn(j, Tags(j, s, rows[..n]), n, rows[n], id);
      if j.overwrite { TagCarriesMore(j, s, rows, id); }
    }
  }

  lemma TagCarriesMore(j: Job, s: Db, rows: seq<Tag>, id: string)
    requires rows != [] && id in s.tags && s.tags[id].id == id && s.tags[id].tenant == j.target
    requires var n := |rows| - 1;
             var a, b := Tags(j, s, rows[..n]).db, Tags(j, s, rows).db;
             id in a.tags && id in b.tags && TagCarries(j, s, rows[..n], s.tags[id], a.tags[id]) &&
             if rows[n].id == id && !NameHeld(j.cs, a.tags, id, j.target, a.tags[id].kind, rows[n].name) then
               TagHolds(rows[n].(tenant := j.target), a.tags[id], b.tags[id])
             else b.tags[id] == a.tags[id]
    ensures TagCarries(j, s, rows, s.tags[id], Tags(j, s, rows).db.tags[id])
  {
    hide NameHeld, Tags;
    var n, was := |rows| - 1, s.tags[id];
    var a, b := Tags(j, s, rows[..n]).db.tags[id], Tags(j, s, rows).db.tags[id];
    forall i | 0 <= i < n ensures TagTaken(j, s, rows, was, i) <==> TagTaken(j, s, rows[..n], was, i) {
      assert rows[..n][..i] == rows[..i];
    }
    forall i | LastTag(j, s, rows, was, i) ensures TagHolds(rows[i].(tenant := was.tenant), was, b) {
      if i < n {
        assert !TagTaken(j, s, rows, was, n);
        assert LastTag(j, s, rows[..n], was, i);
      }
    }
    if forall i :: !TagTaken(j, s, rows, was, i) {
      assert !TagTaken(j, s, rows, was, n);
      assert forall i :: !TagTaken(j, s, rows[..n], was, i);
    }
  }

  /** The mailbox a row brings: the tenant's, with a normalised address. */
  function Brought(j: Job, m: Mailbox): Mailbox { m.(tenant := j.target, address := j.cs.lower(TrimSpace(m.address))) }

  /** The row is taken: when its turn comes, no other mailbox has its address. */
  ghost predicate MailboxTaken(j: Job, s: Db, rows: seq<Mailbox>, id: string, i: int) {
    0 <= i < |rows| && rows[i].id == id &&
    !AddressHeld(j.cs, Mailboxes(j, s, rows[..i]).db.mailboxes, Brought(j, rows[i]))
  }

  ghost predicate LastMailbox(j: Job, s: Db, rows: seq<Mailbox>, id: string, i: int) {
    MailboxTaken(j, s, rows, id, i) && forall k :: i < k < |rows| ==> !MailboxTaken(j, s, rows, id, k)
  }

  ghost predicate MailboxCarries(j: Job, s: Db, rows: seq<Mailbox>, was: Mailbox, m: Mailbox) {
    (forall i :: LastMailbox(j, s, rows, was.id, i) ==> MailboxSays(j.cs, Brought(j, rows[i]), m)) &&
    ((forall i :: !MailboxTaken(j, s, rows, was.id, i)) ==> m == was) && m.createdAt == was.createdAt
  }

  lemma MailboxRowOn(j: Job, l: Load, i: nat, row: Mailbox, id: string)
    requires MailboxKnown(l.db.mailboxes, j.target, id)
    ensures var a, b := l.db.mailboxes, MailboxRow(j, l, i, row).db.mailboxes;
            MailboxKnown(b, j.target, id) &&
            if j.overwrite && row.id == id && !AddressHeld(j.cs, a, Brought(j, row)) then
              MailboxSays(j.cs, Brought(j, row), b[id]) && b[id].createdAt == a[id].createdAt
            else b[id] == a[id]
  {
    hide CreateMailbox, UpdateMailbox, AddressHeld, TrimSpace;
    CreateMailboxLaw(j.cs, l.db, Brought(j, row), j.clock(CMailboxes, i));
    UpdateMailboxLaw(j.cs, l.db, Brought(j, row), j.clock(CMailboxes, i));
  }

  lemma {:induction false} MailboxesCarry(j: Job, s: Db, rows: seq<Mailbox>, id: string)
    requires MailboxKnown(s.mailboxes, j.target, id) && s.mailboxes[id].id == id
    ensures var e := Mailboxes(j, s, rows).db.mailboxes;
            MailboxKnown(e, j.target, id) &&
            if j.overwrite then MailboxCarries(j, s, rows, s.mailboxes[id], e[id]) else e[id] == s.mailboxes[id]
  {
    hide MailboxRow, MailboxSays, AddressHeld, Brought;
    if rows != [] {
      var n := |rows| - 1;
      hide MailboxCarries;
      MailboxesCarry(j, s, rows[..n], id);
      MailboxRowOn(j, Mailboxes(j, s, rows[..n]), n, rows[n], id);
      if j.overwrite {
        MailboxCarriesMore(j, s, rows, s.mailboxes[id], Mailboxes(j, s, rows[..n]).db.mailboxes[id],
                           Mailboxes(j, s, rows).db.mailboxes[id]);
      }
    }
  }

  lemma MailboxCarriesMore(j: Job, s: Db, rows: seq<Mailbox>, was: Mailbox, a: Mailbox, b: Mailbox)
    requires rows != [] && MailboxCarries(j, s, rows[..|rows| - 1], was, a)
    requires MailboxTaken(j, s, rows, was.id, |rows| - 1) ==>
               MailboxSays(j.cs, Brought(j, rows[|rows| - 1]), b) && b.createdAt == a.createdAt
    requires !MailboxTaken(j, s, rows, was.id, |rows| - 1) ==> b == a
    ensures MailboxCarries(j, s, rows, was, b)
  {
    hide MailboxTaken, MailboxSays, Brought, TrimSpace;
    var n, id := |rows| - 1, was.id;
    var front := rows[..n];
    forall i: int
      ensures MailboxTaken(j, s, front, id, i) <==> MailboxTaken(j, s, rows, id, i) && i < n
      ensures MailboxTaken(j, s, rows, id, i) ==> 0 <= i < |rows|
    {
      EarlierTaken(j, s, rows, id, i);
    }
    forall i | 0 <= i < |rows| && LastMailbox(j, s, rows, id, i) ensures MailboxSays(j.cs, Brought(j, rows[i]), b) {
      if i < n {
        assert !MailboxTaken(j, s, rows, id, n);
        assert LastMailbox(j, s, front, id, i);
      }
    }
    if forall i :: !MailboxTaken(j, s, rows, id, i) {
      assert !MailboxTaken(j, s, rows, id, n);
      assert forall i :: !MailboxTaken(j, s, front, id, i);
    }
  }

  lemma EarlierTaken(j: Job, s: Db, rows: seq<Mailbox>, id: string, i: int)
    requires rows != []
    ensures MailboxTaken(j, s, rows[..|rows| - 1], id, i) <==> MailboxTaken(j, s, rows, id, i) && i < |rows| - 1
    ensures MailboxTaken(j, s, rows, id, i) ==> 0 <= i < |rows|
  {
    hide AddressHeld, Mailboxes, Brought;
    var front := rows[..|rows| - 1];
    if 0 <= i < |front| { assert front[..i] == rows[..i]; }
  }

  // ---------------------------------------------------------------- whole imports

  lemma {:induction false} TagsOnly(j: Job, s: Db, rows: seq<Tag>)
    ensures Tags(j, s, rows).db == s.(tags := Tags(j, s, rows).db.tags)
  {
    hide NameTaken;
    if rows != [] { TagsOnly(j, s, rows[..|rows| - 1]); }
  }

  lemma {:induction false} MailboxesOnly(j: Job, s: Db, rows: seq<Mailbox>)
    ensures Mailboxes(j, s, rows).db == s.(mailboxes := Mailboxes(j, s, rows).db.mailboxes)
  {
    hide AddressTaken, NormAddr;
    if rows != [] { MailboxesOnly(j, s, rows[..|rows| - 1]); }
  }

  lemma {:induction false} RulesOnly(j: Job, s: Db, rows: seq<Rule>)
    ensures Rules(j, s, rows).db == s.(rules := Rules(j, s, rows).db.rules)
  {
    if rows != [] { RulesOnly(j, s, rows[..|rows| - 1]); }
  }

  lemma {:induction false} TicketsOnly(j: Job, s: Db, known: set<string>, rows: seq<Ticket>)
    ensures TicketRows(j, s, known, rows).db == s.(tickets := TicketRows(j, s, known, rows).db.tickets)
  {
    hide TicketRow;
    if rows != [] {
      var n := |rows| - 1;
      TicketsOnly(j, s, known, rows[..n]);
      RowOnly(j, TicketRows(j, s, known, rows[..n]), known, n, rows[n]);
    }
  }

  lemma RowOnly(j: Job, l: Load, known: set<string>, i: nat, row: Ticket)
    ensures TicketRow(j, l, known, i, row).db == l.db.(tickets := TicketRow(j, l, known, i, row).db.tickets)
  {
    hide OverwriteTicket, CreateTicket, WrittenOver, TrimSpace;
    if HasTicket(l.db, j.target, row.id) { OverwriteLaw(l.db, row, j.target, known, j.clock(CTickets, i)); }
    CreateTicketLaw(l.db, Prepared(row, j.target, known), j.clock(CTickets, i));
  }

  lemma {:induction false} LinksOnly(target: string, s: Db, rows: seq<TagLink>, ids: seq<string>)
    ensures LinkRows(target, s, rows, ids).db == s.(links := LinkRows(target, s, rows, ids).db.links)
  {
    hide Unlinked, TagsFor, TagsOf;
    if ids != [] { LinksOnly(target, s, rows, ids[..|ids| - 1]); }
  }

  lemma {:induction false} CommentsOnly(j: Job, s: Db, rows: seq<Comment>)
    ensures var e := Comments(j, s, rows).db; e == s.(comments := e.comments, tickets := e.tickets)
  {
    hide MessageTaken, Commented, Written;
    if rows != [] { CommentsOnly(j, s, rows[..|rows| - 1]); }
  }

  lemma {:induction false} AttachmentsOnly(j: Job, s: Db, rows: seq<Attachment>)
    ensures Attachments(j, s, rows).db == s.(attachments := Attachments(j, s, rows).db.attachments)
  {
    hide KeyTaken, CommentMatches, OwnKey;
    if rows != [] { AttachmentsOnly(j, s, rows[..|rows| - 1]); }
  }

  /** Where each table of the result comes from. */
  lemma TablesOf(j: Job, s: Db, d: Doc)
    ensures var r := Import(j, s, d);
            var e := Result(r);
            e.tags == Tags(j, s, d.tags).db.tags && r.tags.db.mailboxes == s.mailboxes &&
            e.mailboxes == r.mailboxes.db.mailboxes && r.mailboxes.db.rules == s.rules && e.rules == r.rules.db.rules &&
            r.rules.db.tickets == s.tickets && r.links.db.tickets == r.tickets.db.tickets &&
            e.tickets == r.comments.db.tickets
  {
    hide Tags, Mailboxes, Rules, TicketRows, LinkRows, Comments, Histories, Attachments, Order;
    var r := Import(j, s, d);
    TagsOnly(j, s, d.tags);
    MailboxesOnly(j, r.tags.db, d.mailboxes);
    RulesOnly(j, r.mailboxes.db, d.rules);
    TicketsOnly(j, r.rules.db, KnownMailboxes(r.rules.db.mailboxes, j.target), d.tickets);
    LinksOnly(j.target, r.tickets.db, d.links, Order(d.links));
    CommentsOnly(j, r.links.db, d.comments);
    R.HistoriesOnlyAppend(j, r.comments.db, r.tickets.created, d.history);
    AttachmentsOnly(j, r.history.db, d.attachments);
  }

  lemma StaysKeyed(j: Job, s: Db, d: Doc)
    requires R.TicketKeys(s.tickets)
    ensures R.TicketKeys(Import(j, s, d).links.db.tickets)
  {
    hide Tags, Mailboxes, Rules, TicketRows, LinkRows, Comments, Histories, Attachments, Order, R.TicketKeys;
    var r := Import(j, s, d);
    TablesOf(j, s, d);
    Y.TicketsInsert(j, r.rules.db, KnownMailboxes(r.rules.db.mailboxes, j.target), d.tickets);
  }

  /** What a ticket the tenant had carries after the import. */
  ghost predicate TicketAfter(j: Job, was: Ticket, t: Ticket, rows: seq<Ticket>) {
    exists mid :: (if j.overwrite then Carries(was, mid, rows) else mid == was) && Counted(mid, t)
  }

  /** What a ticket the import brought carries after it. */
  ghost predicate TicketBrought(j: Job, known: set<string>, t: Ticket, rows: seq<Ticket>) {
    exists i, first, mid :: Entered(j, known, rows, i, first, mid) && Counted(mid, t)
  }

  /**
   * An overwriting import leaves every ticket the tenant had with what the document says of it last, and every ticket
   * it brings with what its row says, comment counters apart; any other import leaves the tenant's tickets as they
   * were.
   */
  lemma ImportCarriesTickets(j: Job, s: Db, d: Doc, id: string)
    requires R.TicketKeys(s.tickets)
    ensures var r := Import(j, s, d);
            var e := Result(r);
            (HasTicket(s, j.target, id) ==>
               HasTicket(e, j.target, id) && TicketAfter(j, s.tickets[id], e.tickets[id], d.tickets)) &&
            (id in r.tickets.created ==>
               HasTicket(e, j.target, id) &&
               TicketBrought(j, KnownMailboxes(r.mailboxes.db.mailboxes, j.target), e.tickets[id], d.tickets))
  {
    hide Tags, Mailboxes, Rules, TicketRows, LinkRows, Comments, Histories, Attachments, Order, Carries, Entered,
      KnownMailboxes;
    var r := Import(j, s, d);
    TablesOf(j, s, d);
    RulesOnly(j, r.mailboxes.db, d.rules);
    StaysKeyed(j, s, d);
    CommentsCount(j, r.links.db, d.comments);
    var known := KnownMailboxes(r.rules.db.mailboxes, j.target);
    if HasTicket(s, j.target, id) {
      RowsCarry(j, r.rules.db, known, d.tickets, id);
      var mid, t := r.tickets.db.tickets[id], r.comments.db.tickets[id];
      assert Counted(mid, t);
    }
    if id in r.tickets.created {
      var i, first := RowsEnter(j, r.rules.db, known, d.tickets, id);
      var mid, t := r.tickets.db.tickets[id], r.comments.db.tickets[id];
      assert Counted(mid, t);
    }
  }

  /** The same for rules, tags and mailboxes, where a name or an address held by another row refuses a row. */
  lemma ImportCarriesTables(j: Job, s: Db, d: Doc, id: string)
    ensures var e := Result(Import(j, s, d));
            (HasRule(s, j.target, id) && s.rules[id].id == id ==>
               id in e.rules &&
               if j.overwrite then RuleCarries(s.rules[id], e.rules[id], d.rules) else e.rules[id] == s.rules[id]) &&
            (HasTag(s, j.target, id) && s.tags[id].id == id ==>
               id in e.tags &&
               if j.overwrite then TagCarries(j, s, d.tags, s.tags[id], e.tags[id]) else e.tags[id] == s.tags[id])
    ensures var r := Import(j, s, d);
            var a, b := s.mailboxes, Result(r).mailboxes;
            MailboxKnown(a, j.target, id) && a[id].id == id ==>
              id in b &&
              if j.overwrite then MailboxCarries(j, r.tags.db, d.mailboxes, a[id], b[id]) else b[id] == a[id]
  {
    hide Tags, Mailboxes, Rules, TicketRows, LinkRows, Comments, Histories, Attachments, Order, RuleCarries, TagCarries,
      MailboxCarries;
    var r := Import(j, s, d);
    TablesOf(j, s, d);
    if HasRule(s, j.target, id) && s.rules[id].id == id { RulesCarry(j, r.mailboxes.db, d.rules, id); }
    if HasTag(s, j.target, id) && s.tags[id].id == id { TagsCarry(j, s, d.tags, id); }
    if MailboxKnown(s.mailboxes, j.target, id) && s.mailboxes[id].id == id {
      MailboxesCarry(j, r.tags.db, d.mailboxes, id);
    }
  }
}
