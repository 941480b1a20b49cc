/** Loading a document row by row (internal/backup/backup.go): the loops, proved against the functions of Backup. */
module Importer {
  import opened Rows
  import opened Text
  import opened Listing
  import opened Memstore
  import opened Backup
  import S = Store
  import V = StoreValid
  import BackupRepeat
  import BackupScope
  import opened BackupCut
  import opened BackupOverwrite

  type Counts = map<Collection, nat>

  function Tally(counts: Counts, c: Collection): nat { if c in counts then counts[c] else 0 }

  /** The counters of one collection are those of a load. */
  predicate Shows(imported: Counts, skipped: Counts, c: Collection, l: Load) {
    Tally(imported, c) == l.imported && Tally(skipped, c) == l.skipped
  }

  predicate SameElsewhere(a: Counts, b: Counts, c: Collection) {
    forall x: Collection :: x != c ==> Tally(a, x) == Tally(b, x)
  }

  /** A refused write leaves the store as it was; the store itself reports no fault. */
  predicate Clean(s: S.Db, r: S.Step) { r.out != S.Fault && (r.out != S.Done ==> r.db == s) }

  lemma TagClean(cs: Casing, s: S.Db, t: Tag, now: Time)
    ensures Clean(s, S.CreateTag(cs, s, t, now)) && Clean(s, S.UpdateTag(cs, s, t))
  {
  }

  lemma MailboxClean(cs: Casing, s: S.Db, m: Mailbox, now: Time)
    ensures Clean(s, S.CreateMailbox(cs, s, m, now)) && Clean(s, S.UpdateMailbox(cs, s, m, now))
  {
  }

  lemma RuleClean(s: S.Db, r: Rule, now: Time)
    ensures Clean(s, S.CreateRule(s, r, now)) && Clean(s, S.UpdateRule(s, r, now))
  {
  }

  lemma TicketClean(s: S.Db, t: Ticket, now: Time)
    ensures Clean(s, S.CreateTicket(s, t, now))
  {
  }

  lemma CommentClean(s: S.Db, c: Comment, now: Time)
    ensures Clean(s, S.CreateComment(s, c, now))
  {
  }

  lemma HistoryClean(s: S.Db, h: History, now: Time)
    ensures Clean(s, S.AppendHistory(s, h, now))
  {
  }

  lemma FileClean(s: S.Db, a: Attachment, now: Time)
    ensures Clean(s, S.CreateAttachment(s, a, now))
  {
  }

  lemma LinkClean(s: S.Db, tenant: string, ticket: string, tags: seq<string>)
    ensures Clean(s, S.AddTicketTags(s, tenant, ticket, tags))
  {
  }

  /** Loading one collection leaves what the counters of another show. */
  lemma Carry(i: Counts, s: Counts, i': Counts, s': Counts, c: Collection, x: Collection, l: Load)
    requires SameElsewhere(i, i', c) && SameElsewhere(s, s', c) && x != c && Shows(i, s, x, l)
    ensures Shows(i', s', x, l)
  {
  }

  /** Nothing counted yet in these collections. */
  predicate Zero(imported: Counts, skipped: Counts, cs: set<Collection>) {
    forall c :: c in cs ==> Tally(imported, c) == Tally(skipped, c) == 0
  }

  lemma StaysZero(i: Counts, s: Counts, i': Counts, s': Counts, c: Collection, cs: set<Collection>)
    requires SameElsewhere(i, i', c) && SameElsewhere(s, s', c) && Zero(i, s, cs)
    ensures Zero(i', s', cs - {c})
  {
  }

  lemma ZeroAt(i: Counts, s: Counts, c: Collection, cs: set<Collection>)
    requires Zero(i, s, cs) && c in cs
    ensures Tally(i, c) == Tally(s, c) == 0
  {
  }

  lemma StartsAtZero(cs: set<Collection>)
    ensures Zero(map[], map[], cs)
  {
  }

  const CHILDREN := {CTagLinks, CComments, CHistory, CAttachments}
  const ALL := {CTags, CMailboxes, CRules, CTickets} + CHILDREN

  /** The counters of the first four collections stay. */
  predicate OthersSame(i: Counts, s: Counts, i': Counts, s': Counts) {
    forall c :: c !in CHILDREN ==> Tally(i', c) == Tally(i, c) && Tally(s', c) == Tally(s, c)
  }

  lemma ParentsSame(i: Counts, s: Counts, i': Counts, s': Counts, c: Collection)
    requires SameElsewhere(i, i', c) && SameElsewhere(s, s', c) && c in CHILDREN
    ensures OthersSame(i, s, i', s')
  {
  }

  lemma SameOthers(i: Counts, s: Counts, i': Counts, s': Counts, i'': Counts, s'': Counts)
    requires OthersSame(i, s, i', s') && OthersSame(i', s', i'', s'')
    ensures OthersSame(i, s, i'', s'')
  {
  }

  /** The first four collections of an import, and the last four. */
  datatype ParentLoads = ParentLoads(tags: Load, mailboxes: Load, rules: Load, tickets: Load)
  datatype ChildLoads = ChildLoads(links: Load, comments: Load, history: Load, attachments: Load)

  function Parents(j: Job, s: S.Db, d: Doc): ParentLoads {
    var tags := Tags(j, s, d.tags);
    var mailboxes := Mailboxes(j, tags.db, d.mailboxes);
    var rules := Rules(j, mailboxes.db, d.rules);
    ParentLoads(tags, mailboxes, rules, Tickets(j, rules.db, d.tickets))
  }

  function Children(j: Job, s: S.Db, created: set<string>, d: Doc): ChildLoads {
    var links := Links(j, s, d.links);
    var comments := Comments(j, links.db, d.comments);
    var history := Histories(j, comments.db, created, d.history);
    ChildLoads(links, comments, history, Attachments(j, history.db, d.attachments))
  }

  predicate ShowsParents(imported: Counts, skipped: Counts, r: ParentLoads) {
    Shows(imported, skipped, CTags, r.tags) && Shows(imported, skipped, CMailboxes, r.mailboxes) &&
    Shows(imported, skipped, CRules, r.rules) && Shows(imported, skipped, CTickets, r.tickets)
  }

  predicate ShowsChildren(imported: Counts, skipped: Counts, r: ChildLoads) {
    Shows(imported, skipped, CTagLinks, r.links) && Shows(imported, skipped, CComments, r.comments) &&
    Shows(imported, skipped, CHistory, r.history) && Shows(imported, skipped, CAttachments, r.attachments)
  }

  /** The counters of every collection. */
  predicate Reports(imported: Counts, skipped: Counts, r: Report) {
    ShowsParents(imported, skipped, ParentLoads(r.tags, r.mailboxes, r.rules, r.tickets)) &&
    ShowsChildren(imported, skipped, ChildLoads(r.links, r.comments, r.history, r.attachments))
  }

  /** The target's rows only: a valid store stays valid and no other tenant notices. */
  ghost predicate Within(j: Job, a: S.Db, b: S.Db) { V.Valid(j.cs, a) ==> BackupScope.Confined(j.cs, j.target, a, b) }

  lemma WithinTwice(j: Job, a: S.Db, b: S.Db, c: S.Db)
    requires Within(j, a, b) && Within(j, b, c)
    ensures Within(j, a, c)
  {
    hide V.Valid, BackupScope.Confined;
    if V.Valid(j.cs, a) { BackupScope.Inherits(j.cs, j.target, a, b, c); }
  }

  lemma NothingWithin(j: Job, a: S.Db)
    ensures Within(j, a, a)
  {
    hide V.Valid, BackupScope.Confined;
    if V.Valid(j.cs, a) { BackupScope.Unchanged(j.cs, j.target, a); }
  }

  lemma TagsWithin(j: Job, s: S.Db, rows: seq<Tag>)
    ensures Within(j, s, Tags(j, s, rows).db)
  {
    hide V.Valid, BackupScope.Confined, Tags;
    if V.Valid(j.cs, s) { BackupScope.TagsConfined(j, s, rows); }
  }

  lemma MailboxesWithin(j: Job, s: S.Db, rows: seq<Mailbox>)
    ensures Within(j, s, Mailboxes(j, s, rows).db)
  {
    hide V.Valid, BackupScope.Confined, Mailboxes;
    if V.Valid(j.cs, s) { BackupScope.MailboxesConfined(j, s, rows); }
  }

  lemma RulesWithin(j: Job, s: S.Db, rows: seq<Rule>)
    ensures Within(j, s, Rules(j, s, rows).db)
  {
    hide V.Valid, BackupScope.Confined, Rules;
    if V.Valid(j.cs, s) { BackupScope.RulesConfined(j, s, rows); }
  }

  lemma AttachmentsWithin(j: Job, s: S.Db, rows: seq<Attachment>)
    ensures Within(j, s, Attachments(j, s, rows).db)
  {
    hide V.Valid, BackupScope.Confined, Attachments;
    if V.Valid(j.cs, s) { BackupScope.AttachmentsConfined(j, s, rows); }
  }

  lemma HistoryWithin(j: Job, s: S.Db, created: set<string>, rows: seq<History>)
    ensures Within(j, s, Histories(j, s, created, rows).db)
  {
    hide V.Valid, BackupScope.Confined, Histories;
    if V.Valid(j.cs, s) { BackupScope.HistoriesConfined(j, s, created, rows); }
  }

  lemma LinksWithin(j: Job, s: S.Db, rows: seq<TagLink>, ids: seq<string>)
    ensures Within(j, s, LinkRows(j.target, s, rows, ids).db)
  {
    hide V.Valid, BackupScope.Confined, LinkRows;
    if V.Valid(j.cs, s) { BackupScope.LinksConfined(j, s, rows, ids); }
  }

  /** Comments of a document carry ids. */
  predicate Identified(rows: seq<Comment>) { forall i :: 0 <= i < |rows| ==> rows[i].id != "" }

  lemma CommentsWithin(j: Job, s: S.Db, rows: seq<Comment>)
    requires Identified(rows)
    ensures Within(j, s, Comments(j, s, rows).db)
  {
    hide V.Valid, BackupScope.Confined, Comments;
    if V.Valid(j.cs, s) { BackupScope.CommentsConfined(j, s, rows); }
  }

  lemma OpWithin(j: Job, s: S.Db, op: S.Op)
    requires S.Owner(op) == j.target && V.Fits(op)
    ensures Within(j, s, S.Apply(j.cs, s, op))
  {
    hide V.Valid, BackupScope.Confined, S.Apply;
    if V.Valid(j.cs, s) { BackupScope.OpConfined(j.cs, s, op); }
  }

  /** What one row did: the new load has the store, and counts the row as the outcome says. */
  predicate Landed(l: Load, l': Load, db: S.Db, out: S.Outcome) {
    l' == l.(db := db, imported := l.imported + (if out == S.Done then 1 else 0),
             skipped := l.skipped + (if out == S.Done then 0 else 1))
  }

  predicate LandedTicket(l: Load, l': Load, db: S.Db, out: S.Outcome, added: set<string>) {
    Landed(l.(created := l.created + added), l', db, out)
  }

  /** What one ticket row writes: a new ticket, an overwrite, or nothing. */
  function TicketStep(j: Job, l: Load, i: nat, t: Ticket): S.Step {
    if !S.HasTicket(l.db, j.target, t.id) then S.CreateTicket(l.db, t, j.clock(CTickets, i))
    else if j.overwrite then OverwriteTicket(l.db, t, j.clock(CTickets, i))
    else S.Step(l.db, S.Conflict)
  }

  lemma TicketLands(j: Job, l: Load, known: set<string>, i: nat, row: Ticket, r: S.Step)
    requires r == TicketStep(j, l, i, Prepared(row, j.target, known))
    ensures LandedTicket(l, TicketRow(j, l, known, i, row), r.db, r.out,
                         if !S.HasTicket(l.db, j.target, row.id) && r.out == S.Done then {row.id} else {})
  {
    hide S.CreateTicket, OverwriteTicket, S.HasTicket;
    var t := Prepared(row, j.target, known);
    assert t.id == row.id;
    hide Prepared;
    TicketClean(l.db, t, j.clock(CTickets, i));
    OverwriteClean(l.db, t, j.clock(CTickets, i));
  }

  lemma LandedTicketIs(l: Load, l': Load, db: S.Db, out: S.Outcome, added: set<string>)
    requires LandedTicket(l, l', db, out, added)
    ensures l'.db == db && l'.created == l.created + added
    ensures l'.imported == l.imported + (if out == S.Done then 1 else 0) &&
            l'.skipped == l.skipped + (if out == S.Done then 0 else 1)
  {
  }

  /** The first store calls of an overwrite without the last. */
  predicate Rewriting(s: S.Db, s': S.Db, t: Ticket, now: Time) {
    var at := OrNow(t.updatedAt, now);
    var p := PatchOf(t);
    var a := S.UpdateTicket(s, t.tenant, t.id, p, at, now).db;
    s' == a || (t.status != "" && s' == S.SetStatus(a, t.tenant, t.id, t.status, at, now).db)
  }

  /** A failing call leaves a ticket row unwritten, or its overwrite unfinished. */
  predicate Halfway(j: Job, s: S.Db, s': S.Db, known: set<string>, i: nat, row: Ticket) {
    s' == s || (j.overwrite && Rewriting(s, s', Prepared(row, j.target, known), j.clock(CTickets, i)))
  }

  predicate Overwriting(j: Job, s: S.Db, s': S.Db, known: set<string>, rows: seq<Ticket>, k: nat) {
    k < |rows| && Halfway(j, s, s', known, k, rows[k])
  }

  /** The tags of a ticket's links that are linked already, or named before. */
  function Repeats(linked: set<string>, tags: seq<string>): nat {
    UnlinkedShorter(linked, tags);
    |tags| - |Unlinked(linked, tags)|
  }

  /** A load whose counter is some skipped rows ahead. */
  function Ahead(l: Load, n: nat): Load { l.(skipped := l.skipped + n) }

  function AheadOf(target: string, s: S.Db, rows: seq<TagLink>, before: seq<string>, ticket: string): Load {
    var l := LinkRows(target, s, rows, before);
    Ahead(l, Repeats(S.TagsOf(l.db, target, ticket), TagsFor(rows, ticket)))
  }

  /** A failing link call comes after its ticket's repeats were counted. */
  predicate Early(target: string, s: S.Db, rows: seq<TagLink>, order: seq<string>, k: nat, early: nat) {
    early == 0 || (k < |order| && early == Repeats(S.TagsOf(s, target, order[k]), TagsFor(rows, order[k])))
  }

  lemma NotAhead(l: Load)
    ensures Ahead(l, 0) == l
  {
  }

  lemma NoLinks(target: string, db: S.Db, rows: seq<TagLink>)
    ensures LinkRows(target, db, rows, []) == Start(db)
  {
  }

  lemma NothingShown(imported: Counts, skipped: Counts, c: Collection, db: S.Db)
    requires Tally(imported, c) == Tally(skipped, c) == 0
    ensures Shows(imported, skipped, c, Start(db))
  {
  }

  lemma SameSame(a: Counts, b: Counts)
    ensures forall c :: SameElsewhere(a, a, c) && SameElsewhere(b, b, c)
  {
  }

  class Import {
    const mem: Mem
    const job: Job
    var imported: Counts
    var skipped: Counts
    var created: set<string>

    constructor (mem: Mem, job: Job)
      ensures this.mem == mem && this.job == job && imported == map[] && skipped == map[] && created == {}
    {
      this.mem, this.job := mem, job;
      imported, skipped, created := map[], map[], {};
    }

    /** A write that conflicts or lacks its parent is skipped. */
    method Count(c: Collection, out: S.Outcome, ghost imported0: Counts, ghost skipped0: Counts, ghost l: Load,
                 ghost l': Load)
      requires SameElsewhere(imported0, imported, c) && SameElsewhere(skipped0, skipped, c)
      requires Shows(imported, skipped, c, l)
      requires l'.imported == l.imported + (if out == S.Done then 1 else 0) &&
               l'.skipped == l.skipped + (if out == S.Done then 0 else 1)
      modifies this`imported, this`skipped
      ensures SameElsewhere(imported0, imported, c) && SameElsewhere(skipped0, skipped, c)
      ensures Shows(imported, skipped, c, l')
    {
      if out == S.Done {
        imported := imported[c := Tally(imported, c) + 1];
      } else {
        skipped := skipped[c := Tally(skipped, c) + 1];
      }
    }

    method LoadTag(i: nat, row: Tag, ghost l: Load) returns (out: S.Outcome)
      requires job.cs == mem.cs && mem.State() == l.db
      modifies mem`tags, mem`failNext
      ensures mem.failNext <= old(mem.failNext) && (old(mem.failNext) == {} ==> out != S.Fault)
      ensures out == S.Fault ==> mem.State() == l.db
      ensures out != S.Fault ==> Landed(l, TagRow(job, l, i, row), mem.State(), out)
    {
      hide S.CreateTag, S.UpdateTag, S.HasTag;
      var t := row.(tenant := job.target);
      TagClean(mem.cs, mem.State(), t, job.clock(CTags, i));
      out := mem.GetTag(job.target, t.id);
      if out == S.Fault { return; }
      if out != S.Done {
        out := mem.CreateTag(t, job.clock(CTags, i));
      } else if job.overwrite {
        out := mem.UpdateTag(t);
      } else {
        out := S.Conflict;
      }
    }

    method LoadTags(rows: seq<Tag>) returns (ok: bool, ghost done: nat)
      requires job.cs == mem.cs && Tally(imported, CTags) == Tally(skipped, CTags) == 0
      modifies this`imported, this`skipped, mem`tags, mem`failNext
      ensures mem.failNext <= old(mem.failNext) && (old(mem.failNext) == {} ==> ok)
      ensures SameElsewhere(old(imported), imported, CTags) && SameElsewhere(old(skipped), skipped, CTags)
      ensures old(TagsKeyed(mem.tags)) ==> TagsKeyed(mem.tags)
      ensures Within(job, old(mem.State()), mem.State())
      ensures done <= |rows| && (ok ==> rows[..done] == rows)
      ensures var l := Tags(job, old(mem.State()), rows[..done]);
              mem.State() == l.db && Shows(imported, skipped, CTags, l)
    {
      SameSame(imported, skipped);
      ghost var db := mem.State();
      NothingWithin(job, db);
      NothingShown(imported, skipped, CTags, db);
      hide TagsKeyed, Within, SameElsewhere, Tally, Shows, TagRow;
      for i := 0 to |rows|
        invariant mem.failNext <= old(mem.failNext) && Within(job, db, mem.State()) &&
                  (old(TagsKeyed(mem.tags)) ==> TagsKeyed(mem.tags))
        invariant SameElsewhere(old(imported), imported, CTags) && SameElsewhere(old(skipped), skipped, CTags)
        invariant var l := Tags(job, db, rows[..i]); mem.State() == l.db && Shows(imported, skipped, CTags, l)
      {
        assert rows[..i + 1][..i] == rows[..i];
        var out := LoadTag(i, rows[i], Tags(job, db, rows[..i]));
        if out == S.Fault { return false, i; }
        TagsWithin(job, db, rows[..i + 1]);
        if TagsKeyed(db.tags) { TagRowKeyed(job, Tags(job, db, rows[..i]), i, rows[i]); }
        Count(CTags, out, old(imported), old(skipped), Tags(job, db, rows[..i]), Tags(job, db, rows[..i + 1]));
      }
      assert rows[..|rows|] == rows;
      ok, done := true, |rows|;
    }

    method LoadMailbox(i: nat, row: Mailbox, ghost l: Load) returns (out: S.Outcome)
      requires job.cs == mem.cs && mem.State() == l.db
      modifies mem`mailboxes, mem`failNext
      ensures mem.failNext <= old(mem.failNext) && (old(mem.failNext) == {} ==> out != S.Fault)
      ensures out == S.Fault ==> mem.State() == l.db
      ensures out != S.Fault ==> Landed(l, MailboxRow(job, l, i, row), mem.State(), out)
    {
      hide S.CreateMailbox, S.UpdateMailbox, S.MailboxKnown, S.NormAddr;
      var m := row.(tenant := job.target, address := S.NormAddr(job.cs, row.address));
      MailboxClean(mem.cs, mem.State(), m, job.clock(CMailboxes, i));
      out := mem.GetMailbox(job.target, m.id);
      if out == S.Fault { return; }
      if out != S.Done {
        out := mem.CreateMailbox(m, job.clock(CMailboxes, i));
      } else if job.overwrite {
        out := mem.UpdateMailbox(m, job.clock(CMailboxes, i));
      } else {
        out := S.Conflict;
      }
    }

    method LoadMailboxes(rows: seq<Mailbox>) returns (ok: bool, ghost done: nat)
      requires job.cs == mem.cs && Tally(imported, CMailboxes) == Tally(skipped, CMailboxes) == 0
      modifies this`imported, this`skipped, mem`mailboxes, mem`failNext
      ensures mem.failNext <= old(mem.failNext) && (old(mem.failNext) == {} ==> ok)
      ensures SameElsewhere(old(imported), imported, CMailboxes) && SameElsewhere(old(skipped), skipped, CMailboxes)
      ensures Within(job, old(mem.State()), mem.State())
      ensures done <= |rows| && (ok ==> rows[..done] == rows)
      ensures var l := Mailboxes(job, old(mem.State()), rows[..done]);
              mem.State() == l.db && Shows(imported, skipped, CMailboxes, l)
    {
      SameSame(imported, skipped);
      ghost var db := mem.State();
      NothingWithin(job, db);
      NothingShown(imported, skipped, CMailboxes, db);
      hide Within, SameElsewhere, Tally, Shows, MailboxRow;
      for i := 0 to |rows|
        invariant mem.failNext <= old(mem.failNext) && Within(job, db, mem.State())
        invariant SameElsewhere(old(imported), imported, CMailboxes) && SameElsewhere(old(skipped), skipped, CMailboxes)
        invariant var l := Mailboxes(job, db, rows[..i]); mem.State() == l.db && Shows(imported, skipped, CMailboxes, l)
      {
        assert rows[..i + 1][..i] == rows[..i];
        var out := LoadMailbox(i, rows[i], Mailboxes(job, db, rows[..i]));
        if out == S.Fault { return false, i; }
        MailboxesWithin(job, db, rows[..i + 1]);
        Count(CMailboxes, out, old(imported), old(skipped), Mailboxes(job, db, rows[..i]),
              Mailboxes(job, db, rows[..i + 1]));
      }
      assert rows[..|rows|] == rows;
      ok, done := true, |rows|;
    }

    method LoadRule(i: nat, row: Rule, ghost l: Load) returns (out: S.Outcome)
      requires mem.State() == l.db
      modifies mem`rules, mem`failNext
      ensures mem.failNext <= old(mem.failNext) && (old(mem.failNext) == {} ==> out != S.Fault)
      ensures out == S.Fault ==> mem.State() == l.db
      ensures out != S.Fault ==> Landed(l, RuleRow(job, l, i, row), mem.State(), out)
    {
      hide S.CreateRule, S.UpdateRule, S.HasRule;
      var r := row.(tenant := job.target);
      RuleClean(mem.State(), r, job.clock(CRules, i));
      var known;
      out, known := mem.GetRule(job.target, r.id);
      if out == S.Fault { return; }
      if out != S.Done {
        out := mem.CreateRule(r, job.clock(CRules, i));
      } else if job.overwrite {
        out := mem.UpdateRule(r, job.clock(CRules, i));
      } else {
        out := S.Conflict;
      }
    }

    method LoadRules(rows: seq<Rule>) returns (ok: bool, ghost done: nat)
      requires Tally(imported, CRules) == Tally(skipped, CRules) == 0
      modifies this`imported, this`skipped, mem`rules, mem`failNext
      ensures mem.failNext <= old(mem.failNext) && (old(mem.failNext) == {} ==> ok)
      ensures SameElsewhere(old(imported), imported, CRules) && SameElsewhere(old(skipped), skipped, CRules)
      ensures Within(job, old(mem.State()), mem.State())
      ensures done <= |rows| && (ok ==> rows[..done] == rows)
      ensures var l := Rules(job, old(mem.State()), rows[..done]);
              mem.State() == l.db && Shows(imported, skipped, CRules, l)
    {
      SameSame(imported, skipped);
      ghost var db := mem.State();
      NothingWithin(job, db);
      NothingShown(imported, skipped, CRules, db);
      hide Within, SameElsewhere, Tally, Shows, RuleRow;
      for i := 0 to |rows|
        invariant mem.failNext <= old(mem.failNext) && Within(job, db, mem.State())
        invariant SameElsewhere(old(imported), imported, CRules) && SameElsewhere(old(skipped), skipped, CRules)
        invariant var l := Rules(job, db, rows[..i]); mem.State() == l.db && Shows(imported, skipped, CRules, l)
      {
        assert rows[..i + 1][..i] == rows[..i];
        var out := LoadRule(i, rows[i], Rules(job, db, rows[..i]));
        if out == S.Fault { return false, i; }
        RulesWithin(job, db, rows[..i + 1]);
        Count(CRules, out, old(imported), old(skipped), Rules(job, db, rows[..i]), Rules(job, db, rows[..i + 1]));
      }
      assert rows[..|rows|] == rows;
      ok, done := true, |rows|;
    }

    method LoadComment(i: nat, row: Comment, ghost l: Load) returns (out: S.Outcome)
      requires mem.State() == l.db
      modifies mem`comments, mem`tickets, mem`failNext
      ensures mem.failNext <= old(mem.failNext) && (old(mem.failNext) == {} ==> out != S.Fault)
      ensures out == S.Fault ==> mem.State() == l.db
      ensures out != S.Fault ==> Landed(l, CommentRow(job, l, i, row), mem.State(), out)
    {
      hide S.CreateComment, S.HasComment;
      var c := row.(tenant := job.target);
      CommentClean(mem.State(), c, job.clock(CComments, i));
      var known;
      out, known := mem.GetComment(job.target, c.id);
      if out == S.Fault { return; }
      if out == S.Done {
        out := S.Conflict;
      } else {
        out := mem.CreateComment(c, job.clock(CComments, i));
      }
    }

    method LoadComments(rows: seq<Comment>) returns (ok: bool, ghost done: nat)
      requires Tally(imported, CComments) == Tally(skipped, CComments) == 0
      modifies this`imported, this`skipped, mem`comments, mem`tickets, mem`failNext
      ensures mem.failNext <= old(mem.failNext) && (old(mem.failNext) == {} ==> ok)
      ensures SameElsewhere(old(imported), imported, CComments) && SameElsewhere(old(skipped), skipped, CComments)
      ensures Identified(rows) ==> Within(job, old(mem.State()), mem.State())
      ensures done <= |rows| && (ok ==> rows[..done] == rows)
      ensures var l := Comments(job, old(mem.State()), rows[..done]);
              mem.State() == l.db && Shows(imported, skipped, CComments, l)
    {
      SameSame(imported, skipped);
      ghost var db := mem.State();
      NothingWithin(job, db);
      NothingShown(imported, skipped, CComments, db);
      hide Within, SameElsewhere, Tally, Shows, CommentRow;
      for i := 0 to |rows|
        invariant mem.failNext <= old(mem.failNext) && (Identified(rows) ==> Within(job, db, mem.State()))
        invariant SameElsewhere(old(imported), imported, CComments) && SameElsewhere(old(skipped), skipped, CComments)
        invariant var l := Comments(job, db, rows[..i]); mem.State() == l.db && Shows(imported, skipped, CComments, l)
      {
        assert rows[..i + 1][..i] == rows[..i];
        var out := LoadComment(i, rows[i], Comments(job, db, rows[..i]));
        if out == S.Fault { return false, i; }
        if Identified(rows) { CommentsWithin(job, db, rows[..i + 1]); }
        Count(CComments, out, old(imported), old(skipped), Comments(job, db, rows[..i]),
              Comments(job, db, rows[..i + 1]));
      }
      assert rows[..|rows|] == rows;
      ok, done := true, |rows|;
    }

    method LoadEntry(i: nat, row: History, ghost l: Load) returns (out: S.Outcome)
      requires mem.State() == l.db
      modifies mem`history, mem`failNext
      ensures mem.failNext <= old(mem.failNext) && (old(mem.failNext) == {} ==> out != S.Fault)
      ensures out == S.Fault ==> mem.State() == l.db
      ensures out != S.Fault ==> Landed(l, HistoryRow(job, l, created, i, row), mem.State(), out)
    {
      hide S.AppendHistory;
      if row.ticket !in created { return S.Conflict; }
      var h := row.(tenant := job.target);
      HistoryClean(mem.State(), h, job.clock(CHistory, i));
      out := mem.AppendHistory(h, job.clock(CHistory, i));
    }

    method LoadHistory(rows: seq<History>) returns (ok: bool, ghost done: nat)
      requires Tally(imported, CHistory) == Tally(skipped, CHistory) == 0
      modifies this`imported, this`skipped, mem`history, mem`failNext
      ensures mem.failNext <= old(mem.failNext) && (old(mem.failNext) == {} ==> ok)
      ensures SameElsewhere(old(imported), imported, CHistory) && SameElsewhere(old(skipped), skipped, CHistory)
      ensures Within(job, old(mem.State()), mem.State())
      ensures done <= |rows| && (ok ==> rows[..done] == rows)
      ensures var l := Histories(job, old(mem.State()), created, rows[..done]);
              mem.State() == l.db && Shows(imported, skipped, CHistory, l)
    {
      SameSame(imported, skipped);
      ghost var db := mem.State();
      NothingWithin(job, db);
      NothingShown(imported, skipped, CHistory, db);
      hide Within, SameElsewhere, Tally, Shows, HistoryRow;
      for i := 0 to |rows|
        invariant mem.failNext <= old(mem.failNext) && Within(job, db, mem.State())
        invariant SameElsewhere(old(imported), imported, CHistory) && SameElsewhere(old(skipped), skipped, CHistory)
        invariant
          var l := Histories(job, db, created, rows[..i]);
          mem.State() == l.db && Shows(imported, skipped, CHistory, l)
      {
        assert rows[..i + 1][..i] == rows[..i];
        var out := LoadEntry(i, rows[i], Histories(job, db, created, rows[..i]));
        if out == S.Fault { return false, i; }
        HistoryWithin(job, db, created, rows[..i + 1]);
        Count(CHistory, out, old(imported), old(skipped), Histories(job, db, created, rows[..i]),
              Histories(job, db, created, rows[..i + 1]));
      }
      assert rows[..|rows|] == rows;
      ok, done := true, |rows|;
    }

    method LoadAttachment(i: nat, row: Attachment, ghost l: Load) returns (out: S.Outcome)
      requires mem.State() == l.db
      modifies mem`attachments, mem`failNext
      ensures mem.failNext <= old(mem.failNext) && (old(mem.failNext) == {} ==> out != S.Fault)
      ensures out == S.Fault ==> mem.State() == l.db
      ensures out != S.Fault ==> Landed(l, AttachmentRow(job, l, i, row), mem.State(), out)
    {
      hide S.CreateAttachment, S.HasAttachment, OwnKey;
      if !OwnKey(job.target, row.storageKey) { return S.Conflict; }
      var a := row.(tenant := job.target);
      FileClean(mem.State(), a, job.clock(CAttachments, i));
      out := mem.GetAttachment(job.target, a.ticket, a.id);
      if out == S.Fault { return; }
      if out == S.Done {
        out := S.Conflict;
      } else {
        out := mem.CreateAttachment(a, job.clock(CAttachments, i));
      }
    }

    method LoadAttachments(rows: seq<Attachment>) returns (ok: bool, ghost done: nat)
      requires Tally(imported, CAttachments) == Tally(skipped, CAttachments) == 0
      modifies this`imported, this`skipped, mem`attachments, mem`failNext
      ensures mem.failNext <= old(mem.failNext) && (old(mem.failNext) == {} ==> ok)
      ensures SameElsewhere(old(imported), imported, CAttachments) && SameElsewhere(old(skipped), skipped, CAttachments)
      ensures Within(job, old(mem.State()), mem.State())
      ensures done <= |rows| && (ok ==> rows[..done] == rows)
      ensures var l := Attachments(job, old(mem.State()), rows[..done]);
              mem.State() == l.db && Shows(imported, skipped, CAttachments, l)
    {
      SameSame(imported, skipped);
      ghost var db := mem.State();
      NothingWithin(job, db);
      NothingShown(imported, skipped, CAttachments, db);
      hide Within, SameElsewhere, Tally, Shows, AttachmentRow;
      for i := 0 to |rows|
        invariant mem.failNext <= old(mem.failNext) && Within(job, db, mem.State())
        invariant SameElsewhere(old(imported), imported, CAttachments) &&
                  SameElsewhere(old(skipped), skipped, CAttachments)
        invariant
          var l := Attachments(job, db, rows[..i]);
          mem.State() == l.db && Shows(imported, skipped, CAttachments, l)
      {
        assert rows[..i + 1][..i] == rows[..i];
        var out := LoadAttachment(i, rows[i], Attachments(job, db, rows[..i]));
        if out == S.Fault { return false, i; }
        AttachmentsWithin(job, db, rows[..i + 1]);
        Count(CAttachments, out, old(imported), old(skipped), Attachments(job, db, rows[..i]),
              Attachments(job, db, rows[..i + 1]));
      }
      assert rows[..|rows|] == rows;
      ok, done := true, |rows|;
    }

    // -- tickets

    method KnownIds() returns (ok: bool, known: set<string>)
      modifies mem`failNext
      ensures mem.failNext <= old(mem.failNext) && (old(mem.failNext) == {} ==> ok)
      ensures ok ==> known == KnownMailboxes(mem.mailboxes, job.target)
    {
      var armed := mem.Fail("ListMailboxes");
      if armed { return false, {}; }
      var rows := Collect(mem.mailboxes, (m: Mailbox) => m.tenant == job.target);
      known := {};
      for i := 0 to |rows|
        invariant known == set k | 0 <= k < i :: rows[k].id
      {
        known := known + {rows[i].id};
      }
      IdsOfRows(mem.mailboxes, job.target, rows);
      ok := true;
    }

    /** The mutable fields of an existing ticket, one store call after the other. */
    method Rewrite(t: Ticket, now: Time) returns (out: S.Outcome)
      requires t.tenant == job.target
      modifies mem`tickets, mem`failNext
      ensures mem.failNext <= old(mem.failNext) && (old(mem.failNext) == {} ==> out != S.Fault)
      ensures Within(job, old(mem.State()), mem.State())
      ensures out != S.Fault ==> S.Step(mem.State(), out) == OverwriteTicket(old(mem.State()), t, now)
      ensures out == S.Fault ==> mem.State() == old(mem.State()) || Rewriting(old(mem.State()), mem.State(), t, now)
    {
      hide S.UpdateTicket, S.SetStatus, S.SetAssignee, Within;
      var at := OrNow(t.updatedAt, now);
      var p := PatchOf(t);
      ghost var db := mem.State();
      NothingWithin(job, db);
      NeverFault(db, t, p, at, now);
      OpWithin(job, db, S.OpUpdateTicket(t.tenant, t.id, p, at, now));
      out := mem.UpdateTicket(t.tenant, t.id, p, at, now);
      if out != S.Done { return; }
      if t.status != "" {
        ghost var db' := mem.State();
        NeverFault(db', t, p, at, now);
        NothingWithin(job, db');
        OpWithin(job, db', S.OpSetStatus(t.tenant, t.id, t.status, at, now));
        out := mem.SetStatus(t.tenant, t.id, t.status, at, now);
        WithinTwice(job, db, db', mem.State());
        if out != S.Done { return; }
      }
      ghost var db' := mem.State();
      NeverFault(db', t, p, at, now);
      NothingWithin(job, db');
      OpWithin(job, db', S.OpSetAssignee(t.tenant, t.id, t.assignee, t.assigneeName, at, now));
      out := mem.SetAssignee(t.tenant, t.id, t.assignee, t.assigneeName, at, now);
      WithinTwice(job, db, db', mem.State());
    }

    /** An existing ticket takes what the given one says. */
    method Overwrite(t: Ticket, now: Time) returns (out: S.Outcome)
      requires t.tenant == job.target
      modifies mem`tickets, mem`failNext
      ensures mem.failNext <= old(mem.failNext) && (old(mem.failNext) == {} ==> out != S.Fault)
      ensures Within(job, old(mem.State()), mem.State())
      ensures out != S.Fault ==> S.Step(mem.State(), out) == OverwriteTicket(old(mem.State()), t, now)
      ensures out != S.Fault ==> Overwrites(old(mem.State()), S.Step(mem.State(), out), t)
      ensures out == S.Fault ==> mem.State() == old(mem.State()) || Rewriting(old(mem.State()), mem.State(), t, now)
    {
      hide OverwriteTicket, Within, Overwrites, Rewriting;
      OverwriteTakes(mem.State(), t, now);
      out := Rewrite(t, now);
    }

    method Insert(t: Ticket, now: Time) returns (out: S.Outcome)
      requires t.tenant == job.target && t.commentCount == 0
      modifies mem`tickets, mem`failNext
      ensures mem.failNext <= old(mem.failNext) && (old(mem.failNext) == {} ==> out != S.Fault)
      ensures Within(job, old(mem.State()), mem.State())
      ensures out != S.Fault ==> S.Step(mem.State(), out) == S.CreateTicket(old(mem.State()), t, now)
      ensures out == S.Fault ==> mem.State() == old(mem.State())
    {
      hide S.CreateTicket, Within;
      NothingWithin(job, mem.State());
      OpWithin(job, mem.State(), S.OpCreateTicket(t, now));
      TicketClean(mem.State(), t, now);
      out := mem.CreateTicket(t, now);
    }

    /** A ticket that is not there is created, another one overwritten or kept. */
    method StoreTicket(t: Ticket, i: nat, ghost l: Load) returns (out: S.Outcome, fresher: bool)
      requires mem.State() == l.db && t.tenant == job.target && t.commentCount == 0
      modifies mem`tickets, mem`failNext
      ensures mem.failNext <= old(mem.failNext) && (old(mem.failNext) == {} ==> out != S.Fault)
      ensures Within(job, l.db, mem.State())
      ensures out != S.Fault ==>
                S.Step(mem.State(), out) == TicketStep(job, l, i, t) &&
                (fresher <==> !S.HasTicket(l.db, job.target, t.id) && out == S.Done)
      ensures out == S.Fault ==>
                mem.State() == l.db || (job.overwrite && Rewriting(l.db, mem.State(), t, job.clock(CTickets, i)))
    {
      hide S.CreateTicket, OverwriteTicket, S.HasTicket, Within, Rewriting, Overwrites;
      NothingWithin(job, l.db);
      fresher := false;
      var found, _ := mem.GetTicket(job.target, t.id);
      if found == S.Fault { return S.Fault, false; }
      if found != S.Done {
        out := Insert(t, job.clock(CTickets, i));
        fresher := out == S.Done;
      } else if job.overwrite {
        OverwriteClean(l.db, t, job.clock(CTickets, i));
        out := Overwrite(t, job.clock(CTickets, i));
      } else {
        out := S.Conflict;
      }
    }

    method LoadTicket(known: set<string>, i: nat, row: Ticket, ghost l: Load) returns (out: S.Outcome, fresher: bool)
      requires mem.State() == l.db
      modifies mem`tickets, mem`failNext
      ensures mem.failNext <= old(mem.failNext) && (old(mem.failNext) == {} ==> out != S.Fault)
      ensures Within(job, l.db, mem.State())
      ensures out != S.Fault ==>
                LandedTicket(l, TicketRow(job, l, known, i, row), mem.State(), out, if fresher then {row.id} else {})
      ensures out == S.Fault ==> Halfway(job, l.db, mem.State(), known, i, row)
    {
      hide TicketStep, S.HasTicket, Within, Rewriting, TicketRow, LandedTicket;
      var t := Prepared(row, job.target, known);
      assert t.tenant == job.target && t.commentCount == 0 && t.id == row.id;
      hide Prepared;
      out, fresher := StoreTicket(t, i, l);
      if out != S.Fault { TicketLands(job, l, known, i, row, S.Step(mem.State(), out)); }
    }

    /** One ticket row, counted, and remembered if it is new. */
    method CountTicket(known: set<string>, i: nat, row: Ticket, ghost l: Load, ghost imported0: Counts,
                       ghost skipped0: Counts)
      returns (ok: bool)
      requires SameElsewhere(imported0, imported, CTickets) && SameElsewhere(skipped0, skipped, CTickets)
      requires mem.State() == l.db && Shows(imported, skipped, CTickets, l) && created == l.created
      modifies this`imported, this`skipped, this`created, mem`tickets, mem`failNext
      ensures mem.failNext <= old(mem.failNext) && (old(mem.failNext) == {} ==> ok)
      ensures SameElsewhere(imported0, imported, CTickets) && SameElsewhere(skipped0, skipped, CTickets)
      ensures Within(job, l.db, mem.State())
      ensures ok ==>
                var l' := TicketRow(job, l, known, i, row);
                mem.State() == l'.db && Shows(imported, skipped, CTickets, l') && created == l'.created
      ensures !ok ==>
                Shows(imported, skipped, CTickets, l) && created == l.created &&
                Halfway(job, l.db, mem.State(), known, i, row)
    {
      hide Within, SameElsewhere, Tally, Shows, TicketRow, LandedTicket, Halfway, Prepared;
      var out, fresher := LoadTicket(known, i, row, l);
      if out == S.Fault { return false; }
      ghost var l' := TicketRow(job, l, known, i, row);
      LandedTicketIs(l, l', mem.State(), out, if fresher then {row.id} else {});
      if fresher { created := created + {row.id}; }
      Count(CTickets, out, imported0, skipped0, l, l');
      ok := true;
    }

    method LoadTicketRows(known: set<string>, rows: seq<Ticket>) returns (ok: bool, ghost done: nat)
      requires Tally(imported, CTickets) == Tally(skipped, CTickets) == 0 && created == {}
      modifies this`imported, this`skipped, this`created, mem`tickets, mem`failNext
      ensures mem.failNext <= old(mem.failNext) && (old(mem.failNext) == {} ==> ok)
      ensures SameElsewhere(old(imported), imported, CTickets) && SameElsewhere(old(skipped), skipped, CTickets)
      ensures Within(job, old(mem.State()), mem.State())
      ensures done <= |rows| && (ok ==> rows[..done] == rows)
      ensures var l := TicketRows(job, old(mem.State()), known, rows[..done]);
              Shows(imported, skipped, CTickets, l) && created == l.created &&
              if ok then mem.State() == l.db else Overwriting(job, l.db, mem.State(), known, rows, done)
    {
      SameSame(imported, skipped);
      ghost var db := mem.State();
      NothingWithin(job, db);
      NothingShown(imported, skipped, CTickets, db);
      hide Within, SameElsewhere, Tally, Shows, TicketRow, Halfway, Prepared;
      for i := 0 to |rows|
        invariant mem.failNext <= old(mem.failNext) && Within(job, db, mem.State())
        invariant SameElsewhere(old(imported), imported, CTickets) && SameElsewhere(old(skipped), skipped, CTickets)
        invariant
          var l := TicketRows(job, db, known, rows[..i]);
          mem.State() == l.db && Shows(imported, skipped, CTickets, l) && created == l.created
      {
        assert rows[..i + 1][..i] == rows[..i];
        ghost var l := TicketRows(job, db, known, rows[..i]);
        ok := CountTicket(known, i, rows[i], l, old(imported), old(skipped));
        WithinTwice(job, db, l.db, mem.State());
        if !ok { return false, i; }
      }
      assert rows[..|rows|] == rows;
      ok, done := true, |rows|;
    }

    method LoadTickets(rows: seq<Ticket>) returns (ok: bool, ghost done: nat)
      requires Tally(imported, CTickets) == Tally(skipped, CTickets) == 0 && created == {}
      modifies this`imported, this`skipped, this`created, mem`tickets, mem`failNext
      ensures mem.failNext <= old(mem.failNext) && (old(mem.failNext) == {} ==> ok)
      ensures SameElsewhere(old(imported), imported, CTickets) && SameElsewhere(old(skipped), skipped, CTickets)
      ensures Within(job, old(mem.State()), mem.State())
      ensures done <= |rows| && (ok ==> rows[..done] == rows)
      ensures var l := Tickets(job, old(mem.State()), rows[..done]);
              Shows(imported, skipped, CTickets, l) && created == l.created &&
              (mem.State() == l.db ||
               (!ok && Overwriting(job, l.db, mem.State(), KnownMailboxes(old(mem.mailboxes), job.target), rows, done)))
    {
      SameSame(imported, skipped);
      NothingWithin(job, mem.State());
      NothingShown(imported, skipped, CTickets, mem.State());
      NoRows(job, mem.State(), {});
      hide Within, SameElsewhere, Tally, Shows, TicketRows, KnownMailboxes, Overwriting;
      var known;
      ok, known := KnownIds();
      if !ok { return false, 0; }
      ok, done := LoadTicketRows(known, rows);
    }

    // -- links and the whole run

    /** Counts several rows at once. */
    method CountMany(c: Collection, ok: bool, n: nat, ghost imported0: Counts, ghost skipped0: Counts)
      requires SameElsewhere(imported0, imported, c) && SameElsewhere(skipped0, skipped, c)
      modifies this`imported, this`skipped
      ensures SameElsewhere(imported0, imported, c) && SameElsewhere(skipped0, skipped, c)
      ensures Tally(imported, c) == old(Tally(imported, c)) + (if ok then n else 0)
      ensures Tally(skipped, c) == old(Tally(skipped, c)) + (if ok then 0 else n)
    {
      if ok {
        imported := imported[c := Tally(imported, c) + n];
      } else {
        skipped := skipped[c := Tally(skipped, c) + n];
      }
    }

    /** The missing tags of one ticket: all of them are linked, or none. */
    method LinkTicket(ticket: string, linked: set<string>, tags: seq<string>, ghost l: Load,
                      ghost imported0: Counts, ghost skipped0: Counts) returns (ok: bool)
      requires SameElsewhere(imported0, imported, CTagLinks) && SameElsewhere(skipped0, skipped, CTagLinks)
      requires mem.State() == l.db && Shows(imported, skipped, CTagLinks, l) &&
               linked == S.TagsOf(l.db, job.target, ticket)
      modifies this`imported, this`skipped, mem`links, mem`failNext
      ensures mem.failNext <= old(mem.failNext) && (old(mem.failNext) == {} ==> ok)
      ensures SameElsewhere(imported0, imported, CTagLinks) && SameElsewhere(skipped0, skipped, CTagLinks)
      ensures !ok ==> mem.State() == l.db && Shows(imported, skipped, CTagLinks, Ahead(l, Repeats(linked, tags)))
      ensures ok ==>
                var l' := LinkRow(job.target, l, ticket, tags);
                mem.State() == l'.db && Shows(imported, skipped, CTagLinks, l')
    {
      hide SameElsewhere, S.AddTicketTags, S.TagsOf, Unlinked;
      var add := Missing(linked, tags);
      UnlinkedShorter(linked, tags);
      CountMany(CTagLinks, false, |tags| - |add|, imported0, skipped0);
      if add == [] { return true; }
      LinkClean(mem.State(), job.target, ticket, add);
      var out := mem.AddTicketTags(job.target, ticket, add);
      if out == S.Fault { return false; }
      CountMany(CTagLinks, out == S.Done, |add|, imported0, skipped0);
      ok := true;
    }

    /** One more ticket of the document, given the tags the store showed for it at the start. */
    method LinkNext(ticket: string, have: map<string, seq<Tag>>, tags: seq<string>, ghost db: S.Db,
                    ghost rows: seq<TagLink>, ghost before: seq<string>,
                    ghost imported0: Counts, ghost skipped0: Counts) returns (ok: bool)
      requires SameElsewhere(imported0, imported, CTagLinks) && SameElsewhere(skipped0, skipped, CTagLinks)
      requires
        var l := LinkRows(job.target, db, rows, before);
        mem.State() == l.db && Shows(imported, skipped, CTagLinks, l)
      requires TagsKeyed(db.tags) && ticket !in before && tags == TagsFor(rows, ticket)
      requires ticket in have <==> S.TagsOf(db, job.target, ticket) != {}
      requires ticket in have ==> TagRowsOf(mem.cs, db, job.target, ticket, have[ticket])
      modifies this`imported, this`skipped, mem`links, mem`failNext
      ensures mem.failNext <= old(mem.failNext) && (old(mem.failNext) == {} ==> ok)
      ensures SameElsewhere(imported0, imported, CTagLinks) && SameElsewhere(skipped0, skipped, CTagLinks)
      ensures !ok ==> mem.State() == old(mem.State()) &&
                      Shows(imported, skipped, CTagLinks, AheadOf(job.target, db, rows, before, ticket))
      ensures ok ==>
                var l := LinkRows(job.target, db, rows, before + [ticket]);
                mem.State() == l.db && Shows(imported, skipped, CTagLinks, l)
    {
      hide SameElsewhere, Tally, Shows, LinkRow, S.TagsOf, TagsFor, TagRowsOf, TagsKeyed;
      ghost var l := LinkRows(job.target, db, rows, before);
      assert (before + [ticket])[..|before|] == before;
      OthersLinked(job.target, db, rows, before, ticket);
      NoIds();
      if ticket in have { IdsOfTags(mem.cs, db, job.target, ticket, have[ticket]); }
      var linked := Ids(if ticket in have then have[ticket] else []);
      ok := LinkTicket(ticket, linked, tags, l, imported0, skipped0);
    }

    /** Ticket after ticket, in the order of the document. */
    method LinkAll(order: seq<string>, byTicket: map<string, seq<string>>, have: map<string, seq<Tag>>,
                   ghost rows: seq<TagLink>) returns (ok: bool, ghost done: nat, ghost early: nat)
      requires Tally(imported, CTagLinks) == Tally(skipped, CTagLinks) == 0 && TagsKeyed(mem.tags) &&
               BackupRepeat.Distinct(order)
      requires forall t :: t in order ==> t in byTicket && byTicket[t] == TagsFor(rows, t)
      requires forall t :: t in order ==> (t in have <==> S.TagsOf(mem.State(), job.target, t) != {})
      requires forall t :: t in have ==> TagRowsOf(mem.cs, mem.State(), job.target, t, have[t])
      modifies this`imported, this`skipped, mem`links, mem`failNext
      ensures mem.failNext <= old(mem.failNext) && (old(mem.failNext) == {} ==> ok)
      ensures SameElsewhere(old(imported), imported, CTagLinks) && SameElsewhere(old(skipped), skipped, CTagLinks)
      ensures Within(job, old(mem.State()), mem.State())
      ensures done <= |order| && (ok ==> order[..done] == order && early == 0)
      ensures var l := LinkRows(job.target, old(mem.State()), rows, order[..done]);
              mem.State() == l.db && Shows(imported, skipped, CTagLinks, Ahead(l, early)) &&
              Early(job.target, l.db, rows, order, done, early)
    {
      SameSame(imported, skipped);
      ghost var db := mem.State();
      NothingWithin(job, db);
      NothingShown(imported, skipped, CTagLinks, db);
      NoLinks(job.target, db, rows);
      hide LinkRows, Within, SameElsewhere, Tally, Shows, S.TagsOf, TagsFor, TagRowsOf, TagsKeyed, Repeats,
        Ahead;
      assert order[..0] == [];
      for i := 0 to |order|
        invariant mem.failNext <= old(mem.failNext) && Within(job, db, mem.State())
        invariant SameElsewhere(old(imported), imported, CTagLinks) && SameElsewhere(old(skipped), skipped, CTagLinks)
        invariant
          var l := LinkRows(job.target, db, rows, order[..i]);
          mem.State() == l.db && Shows(imported, skipped, CTagLinks, l)
      {
        assert order[..i + 1] == order[..i] + [order[i]] && order[i] !in order[..i] && order[i] in order;
        ghost var l := LinkRows(job.target, db, rows, order[..i]);
        ok := LinkNext(order[i], have, byTicket[order[i]], db, rows, order[..i], old(imported), old(skipped));
        if !ok { return false, i, Repeats(S.TagsOf(l.db, job.target, order[i]), TagsFor(rows, order[i])); }
        LinksWithin(job, db, rows, order[..i + 1]);
      }
      assert order[..|order|] == order;
      NotAhead(LinkRows(job.target, db, rows, order));
      ok, done, early := true, |order|, 0;
    }

    method LoadLinks(rows: seq<TagLink>) returns (ok: bool, ghost done: nat, ghost early: nat)
      requires Tally(imported, CTagLinks) == Tally(skipped, CTagLinks) == 0 && TagsKeyed(mem.tags)
      modifies this`imported, this`skipped, mem`links, mem`failNext
      ensures mem.failNext <= old(mem.failNext) && (old(mem.failNext) == {} ==> ok)
      ensures SameElsewhere(old(imported), imported, CTagLinks) && SameElsewhere(old(skipped), skipped, CTagLinks)
      ensures Within(job, old(mem.State()), mem.State())
      ensures done <= |Order(rows)| && (ok ==> LinksOf(rows, Order(rows)[..done]) == rows && early == 0)
      ensures var l := Links(job, old(mem.State()), LinksOf(rows, Order(rows)[..done]));
              mem.State() == l.db && Shows(imported, skipped, CTagLinks, Ahead(l, early)) &&
              Early(job.target, l.db, rows, Order(rows), done, early)
    {
      SameSame(imported, skipped);
      ghost var db := mem.State();
      NothingWithin(job, db);
      NothingShown(imported, skipped, CTagLinks, db);
      NoLinks(job.target, db, rows);
      NotAhead(Start(db));
      LinksWhole(rows);
      hide LinkRows, Within, SameElsewhere, Tally, Shows, S.TagsOf, TagsFor, TagRowsOf, TagsKeyed, Order, LinksOf,
        Links, Repeats, Ahead, Early;
      FirstLinks(job, db, rows, 0);
      assert Order(rows)[..0] == [];
      NoneEarly(job.target, db, rows, Order(rows), 0);
      var order, byTicket := Group(rows);
      if order == [] { return true, 0, 0; }
      var out, have := mem.TagsForTickets(job.target, order);
      if out == S.Fault { return false, 0, 0; }
      BackupRepeat.OrderDistinct(rows);
      ok, done, early := LinkAll(order, byTicket, have, rows);
      FirstLinks(job, db, rows, done);
    }

    /** Tags, mailboxes and rules. */
    method RunCatalogue(d: Doc) returns (ok: bool, ghost at: Collection, ghost k: nat)
      requires job.cs == mem.cs && Zero(imported, skipped, ALL)
      modifies this`imported, this`skipped
      modifies mem`tags, mem`mailboxes, mem`rules, mem`failNext
      ensures mem.failNext <= old(mem.failNext) && (old(mem.failNext) == {} ==> ok)
      ensures Within(job, old(mem.State()), mem.State()) && (old(TagsKeyed(mem.tags)) ==> TagsKeyed(mem.tags))
      ensures Zero(imported, skipped, ALL - {CTags} - {CMailboxes} - {CRules})
      ensures Rank(at) <= Rank(CRules)
      ensures ok ==> var c := Cut(d, at, k); c.tags == d.tags && c.mailboxes == d.mailboxes && c.rules == d.rules
      ensures var r := Parents(job, old(mem.State()), Cut(d, at, k));
              mem.State() == r.rules.db && Shows(imported, skipped, CTags, r.tags) &&
              Shows(imported, skipped, CMailboxes, r.mailboxes) && Shows(imported, skipped, CRules, r.rules)
    {
      hide Tags, Mailboxes, Rules, Tickets, SameElsewhere, Shows, Tally, Within, TagsKeyed, Zero, Order, LinksOf;
      ghost var db, i0, s0 := mem.State(), imported, skipped;
      ZeroAt(imported, skipped, CTags, ALL);
      at := CTags;
      ok, k := LoadTags(d.tags);
      ghost var i1, s1, db1 := imported, skipped, mem.State();
      StaysZero(i0, s0, i1, s1, CTags, ALL);
      if !ok {
        StaysZero(i1, s1, i1, s1, CMailboxes, ALL - {CTags}) by { SameSame(i1, s1); }
        StaysZero(i1, s1, i1, s1, CRules, ALL - {CTags} - {CMailboxes}) by { SameSame(i1, s1); }
        NoRows(job, db1, {});
        ZeroShows(i1, s1, CMailboxes, ALL - {CTags}, db1);
        ZeroShows(i1, s1, CRules, ALL - {CTags}, db1);
        return;
      }
      ghost var tags := Tags(job, db, d.tags);
      ZeroAt(imported, skipped, CMailboxes, ALL - {CTags});
      at := CMailboxes;
      ok, k := LoadMailboxes(d.mailboxes);
      ghost var i2, s2, db2 := imported, skipped, mem.State();
      StaysZero(i1, s1, i2, s2, CMailboxes, ALL - {CTags});
      WithinTwice(job, db, db1, db2);
      Carry(i1, s1, i2, s2, CMailboxes, CTags, tags);
      if !ok {
        StaysZero(i2, s2, i2, s2, CRules, ALL - {CTags} - {CMailboxes}) by { SameSame(i2, s2); }
        NoRows(job, db2, {});
        ZeroShows(i2, s2, CRules, ALL - {CTags} - {CMailboxes}, db2);
        return;
      }
      ghost var mailboxes := Mailboxes(job, db1, d.mailboxes);
      ZeroAt(imported, skipped, CRules, ALL - {CTags} - {CMailboxes});
      at := CRules;
      ok, k := LoadRules(d.rules);
      StaysZero(i2, s2, imported, skipped, CRules, ALL - {CTags} - {CMailboxes});
      WithinTwice(job, db, db2, mem.State());
      Carry(i2, s2, imported, skipped, CRules, CTags, tags);
      Carry(i2, s2, imported, skipped, CRules, CMailboxes, mailboxes);
    }

    /** Tags, mailboxes, rules and tickets. */
    method RunParents(d: Doc) returns (ok: bool, ghost at: Collection, ghost k: nat)
      requires job.cs == mem.cs && Zero(imported, skipped, ALL) && created == {}
      modifies this`imported, this`skipped, this`created
      modifies mem`tags, mem`mailboxes, mem`rules, mem`tickets, mem`failNext
      ensures mem.failNext <= old(mem.failNext) && (old(mem.failNext) == {} ==> ok)
      ensures Within(job, old(mem.State()), mem.State()) && (old(TagsKeyed(mem.tags)) ==> TagsKeyed(mem.tags))
      ensures Rank(at) <= Rank(CTickets) && Zero(imported, skipped, CHILDREN)
      ensures ok ==> Parents(job, old(mem.State()), Cut(d, at, k)) == Parents(job, old(mem.State()), d)
      ensures var r := Parents(job, old(mem.State()), Cut(d, at, k));
              ShowsParents(imported, skipped, r) && created == r.tickets.created &&
              (mem.State() == r.tickets.db || (!ok && at == CTickets && Unfinished(job, r, mem.State(), d.tickets, k)))
    {
      hide Tags, Mailboxes, Rules, Tickets, SameElsewhere, Shows, Tally, Within, TagsKeyed, Zero, Order, LinksOf,
        Overwriting, KnownMailboxes;
      ghost var db := mem.State();
      ok, at, k := RunCatalogue(d);
      ghost var i, s, db' := imported, skipped, mem.State();
      ghost var rest := ALL - {CTags} - {CMailboxes} - {CRules};
      assert rest - {CTickets} == CHILDREN;
      if !ok {
        StaysZero(i, s, i, s, CTickets, rest) by { SameSame(i, s); }
        NoRows(job, db', {});
        ZeroShows(i, s, CTickets, rest, db');
        return;
      }
      ghost var r := Parents(job, db, d);
      ZeroAt(imported, skipped, CTickets, rest);
      at := CTickets;
      ok, k := LoadTickets(d.tickets);
      StaysZero(i, s, imported, skipped, CTickets, rest);
      WithinTwice(job, db, db', mem.State());
      Carry(i, s, imported, skipped, CTickets, CTags, r.tags);
      Carry(i, s, imported, skipped, CTickets, CMailboxes, r.mailboxes);
      Carry(i, s, imported, skipped, CTickets, CRules, r.rules);
    }

    /** Links and comments. */
    method RunTalk(d: Doc) returns (ok: bool, ghost at: Collection, ghost k: nat, ghost early: nat)
      requires TagsKeyed(mem.tags) && Zero(imported, skipped, CHILDREN)
      modifies this`imported, this`skipped
      modifies mem`links, mem`comments, mem`tickets, mem`failNext
      ensures mem.failNext <= old(mem.failNext) && (old(mem.failNext) == {} ==> ok)
      ensures Identified(d.comments) ==> Within(job, old(mem.State()), mem.State())
      ensures Zero(imported, skipped, CHILDREN - {CTagLinks} - {CComments})
      ensures OthersSame(old(imported), old(skipped), imported, skipped)
      ensures at == CTagLinks || (at == CComments && early == 0)
      ensures ok ==> Cut(d, at, k).links == d.links && Cut(d, at, k).comments == d.comments && early == 0
      ensures var r := Children(job, old(mem.State()), created, Cut(d, at, k));
              mem.State() == r.comments.db && Shows(imported, skipped, CTagLinks, Ahead(r.links, early)) &&
              Shows(imported, skipped, CComments, r.comments) &&
              Early(job.target, r.links.db, d.links, Order(d.links), k, early)
    {
      hide Links, Comments, Histories, Attachments, SameElsewhere, Shows, Tally, Within, TagsKeyed, Identified,
        Zero, OthersSame, Order, LinksOf, Ahead, Early;
      ghost var db, i0, s0 := mem.State(), imported, skipped;
      ZeroAt(imported, skipped, CTagLinks, CHILDREN);
      at := CTagLinks;
      ok, k, early := LoadLinks(d.links);
      ghost var i1, s1, db1 := imported, skipped, mem.State();
      ParentsSame(i0, s0, i1, s1, CTagLinks);
      StaysZero(i0, s0, i1, s1, CTagLinks, CHILDREN);
      if !ok {
        StaysZero(i1, s1, i1, s1, CComments, CHILDREN - {CTagLinks}) by { SameSame(i1, s1); }
        NoRows(job, db1, {});
        ZeroShows(i1, s1, CComments, CHILDREN - {CTagLinks}, db1);
        return;
      }
      ghost var links := Links(job, db, d.links);
      LinksWhole(d.links);
      ZeroAt(imported, skipped, CComments, CHILDREN - {CTagLinks});
      at := CComments;
      ok, k := LoadComments(d.comments);
      NoneEarly(job.target, db1, d.links, Order(d.links), k);
      ParentsSame(i1, s1, imported, skipped, CComments);
      SameOthers(i0, s0, i1, s1, imported, skipped);
      StaysZero(i1, s1, imported, skipped, CComments, CHILDREN - {CTagLinks});
      if Identified(d.comments) { WithinTwice(job, db, db1, mem.State()); }
      Carry(i1, s1, imported, skipped, CComments, CTagLinks, Ahead(links, 0));
    }

    /** History and attachments. */
    method RunRest(d: Doc) returns (ok: bool, ghost at: Collection, ghost k: nat)
      requires Zero(imported, skipped, CHILDREN - {CTagLinks} - {CComments})
      modifies this`imported, this`skipped
      modifies mem`history, mem`attachments, mem`failNext
      ensures mem.failNext <= old(mem.failNext) && (old(mem.failNext) == {} ==> ok)
      ensures Within(job, old(mem.State()), mem.State())
      ensures at == CHistory || at == CAttachments
      ensures ok ==> Cut(d, at, k).history == d.history && Cut(d, at, k).attachments == d.attachments
      ensures var c := Cut(d, at, k);
              var h := Histories(job, old(mem.State()), created, c.history);
              var a := Attachments(job, h.db, c.attachments);
              mem.State() == a.db && Shows(imported, skipped, CHistory, h) && Shows(imported, skipped, CAttachments, a)
      ensures forall c :: c != CHistory && c != CAttachments ==>
                Tally(imported, c) == old(Tally(imported, c)) && Tally(skipped, c) == old(Tally(skipped, c))
    {
      hide Histories, Attachments, Shows, Tally, Within, Zero, Order, LinksOf;
      ghost var db, i0, s0 := mem.State(), imported, skipped;
      ghost var rest := CHILDREN - {CTagLinks} - {CComments};
      ZeroAt(imported, skipped, CHistory, rest);
      at := CHistory;
      ok, k := LoadHistory(d.history);
      ghost var i1, s1, db1 := imported, skipped, mem.State();
      StaysZero(i0, s0, i1, s1, CHistory, rest);
      if !ok {
        NoRows(job, db1, {});
        ZeroShows(i1, s1, CAttachments, rest - {CHistory}, db1);
        return;
      }
      ghost var h := Histories(job, db, created, d.history);
      ZeroAt(imported, skipped, CAttachments, rest - {CHistory});
      at := CAttachments;
      ok, k := LoadAttachments(d.attachments);
      WithinTwice(job, db, db1, mem.State());
      Carry(i1, s1, imported, skipped, CAttachments, CHistory, h);
    }

    /** Links, comments, history and attachments. */
    method RunChildren(d: Doc) returns (ok: bool, ghost at: Collection, ghost k: nat, ghost early: nat)
      requires TagsKeyed(mem.tags) && Zero(imported, skipped, CHILDREN)
      modifies this`imported, this`skipped
      modifies mem`links, mem`comments, mem`tickets, mem`history, mem`attachments, mem`failNext
      ensures mem.failNext <= old(mem.failNext) && (old(mem.failNext) == {} ==> ok)
      ensures Identified(d.comments) ==> Within(job, old(mem.State()), mem.State())
      ensures OthersSame(old(imported), old(skipped), imported, skipped)
      ensures Rank(at) > Rank(CTickets) && (at != CTagLinks ==> early == 0)
      ensures ok ==> Children(job, old(mem.State()), created, Cut(d, at, k)) ==
                     Children(job, old(mem.State()), created, d) && early == 0
      ensures var r := Children(job, old(mem.State()), created, Cut(d, at, k));
              mem.State() == r.attachments.db &&
              ShowsChildren(imported, skipped, r.(links := Ahead(r.links, early))) &&
              Early(job.target, r.links.db, d.links, Order(d.links), k, early)
    {
      hide Links, Comments, Histories, Attachments, Tally, Within, TagsKeyed, Identified, Zero, Order, LinksOf,
        Ahead, Early;
      ghost var db := mem.State();
      ok, at, k, early := RunTalk(d);
      ghost var db1 := mem.State();
      if !ok {
        NoRows(job, db1, created);
        ZeroShows(imported, skipped, CHistory, CHILDREN - {CTagLinks} - {CComments}, db1);
        ZeroShows(imported, skipped, CAttachments, CHILDREN - {CTagLinks} - {CComments}, db1);
        return;
      }
      LinksWhole(d.links);
      ok, at, k := RunRest(d);
      NoneEarly(job.target, Links(job, db, d.links).db, d.links, Order(d.links), k);
      if Identified(d.comments) { WithinTwice(job, db, db1, mem.State()); }
    }

    /**
     * Everything in foreign-key order; with no failing call the store and every counter are those of Backup.Import.
     * A failing call stops it in front of row k of collection at: the store and the counters are those of importing
     * the document up to there, but for an overwrite that was begun and links that were counted before they are made.
     */
    method Run(d: Doc) returns (ok: bool, ghost at: Collection, ghost k: nat, ghost early: nat)
      requires job.cs == mem.cs && imported == map[] && skipped == map[] && created == {} && TagsKeyed(mem.tags)
      modifies this`imported, this`skipped, this`created, mem
      ensures old(mem.failNext) == {} ==> ok
      ensures ok ==>
                var r := Backup.Import(job, old(mem.State()), d);
                mem.State() == Result(r) && Reports(imported, skipped, r)
      ensures !ok ==> Stopped(job, old(mem.State()), d, at, k, early, mem.State(), imported, skipped)
      ensures V.Valid(job.cs, old(mem.State())) && Identified(d.comments) ==>
                BackupScope.Confined(job.cs, job.target, old(mem.State()), mem.State())
    {
      hide Tags, Mailboxes, Rules, Tickets, Links, Comments, Histories, Attachments, TagsKeyed, Identified, V.Valid,
        BackupScope.Confined, Tally, Zero, OthersSame, Order, LinksOf, Ahead, Early, Overwriting, KnownMailboxes;
      ghost var db := mem.State();
      StartsAtZero(ALL);
      early := 0;
      ok, at, k := RunParents(d);
      ghost var db', i, s := mem.State(), imported, skipped;
      if !ok {
        ghost var r := Parents(job, db, Cut(d, at, k));
        ParentsOnly(job, db, d, at, k);
        NoChildren(i, s, r.tickets.db);
        NotAhead(Start(r.tickets.db));
        NoneEarly(job.target, r.tickets.db, d.links, Order(d.links), k);
        return;
      }
      ok, at, k, early := RunChildren(d);
      if Identified(d.comments) { WithinTwice(job, db, db', mem.State()); }
      ghost var r := Parents(job, db, d);
      ParentsWhole(job, db, d, at, k);
      StillShows(i, s, imported, skipped, r);
      if ok { NotAhead(Links(job, db', d.links)); }
    }
  }

  lemma NoneEarly(target: string, s: S.Db, rows: seq<TagLink>, order: seq<string>, k: nat)
    ensures Early(target, s, rows, order, k, 0)
  {
  }

  lemma ZeroShows(i: Counts, s: Counts, c: Collection, cs: set<Collection>, db: S.Db)
    requires Zero(i, s, cs) && c in cs
    ensures Shows(i, s, c, Start(db))
  {
  }

  lemma NoChildren(i: Counts, s: Counts, db: S.Db)
    requires Zero(i, s, CHILDREN)
    ensures ShowsChildren(i, s, ChildLoads(Start(db), Start(db), Start(db), Start(db)))
  {
  }

  /** What a call that fails within a ticket row leaves. */
  predicate Unfinished(j: Job, r: ParentLoads, s': S.Db, rows: seq<Ticket>, k: nat) {
    Overwriting(j, r.tickets.db, s', KnownMailboxes(r.rules.db.mailboxes, j.target), rows, k)
  }

  /** A run that stopped in front of row k of collection at (ticket k, for links), with early repeats counted. */
  predicate Stopped(j: Job, s: S.Db, d: Doc, at: Collection, k: nat, early: nat, s': S.Db, imported: Counts,
                    skipped: Counts) {
    var r := Backup.Import(j, s, Cut(d, at, k));
    Reports(imported, skipped, r.(links := Ahead(r.links, early))) &&
    (at != CTagLinks ==> early == 0) && Early(j.target, r.links.db, d.links, Order(d.links), k, early) &&
    (s' == Result(r) ||
     (at == CTickets && Unfinished(j, ParentLoads(r.tags, r.mailboxes, r.rules, r.tickets), s', d.tickets, k)))
  }

  /** Cut among the first four collections, the others are empty. */
  lemma ParentsOnly(j: Job, s: S.Db, d: Doc, at: Collection, k: nat)
    requires Rank(at) <= Rank(CTickets)
    ensures var p := Parents(j, s, Cut(d, at, k));
            var db := p.tickets.db;
            Backup.Import(j, s, Cut(d, at, k)) == Report(p.tags, p.mailboxes, p.rules, p.tickets, Start(db), Start(db),
                                                         Start(db), Start(db))
  {
    hide Tags, Mailboxes, Rules, Tickets, Links, Comments, Histories, Attachments, Order, LinksOf;
    var p := Parents(j, s, Cut(d, at, k));
    NoLinksOf(d.links);
    NoRows(j, p.tickets.db, p.tickets.created);
  }

  /** Cut among the last four collections, the others are whole. */
  lemma ParentsWhole(j: Job, s: S.Db, d: Doc, at: Collection, k: nat)
    requires Rank(at) > Rank(CTickets)
    ensures Parents(j, s, Cut(d, at, k)) == Parents(j, s, d)
  {
    hide Tags, Mailboxes, Rules, Tickets, Order, LinksOf;
  }

  lemma StillShows(i: Counts, k: Counts, i': Counts, k': Counts, r: ParentLoads)
    requires OthersSame(i, k, i', k')
    ensures ShowsParents(i, k, r) ==> ShowsParents(i', k', r)
  {
    hide Tally;
  }

  /** Every tag is stored under its id. */
  predicate TagsKeyed(tags: map<string, Tag>) { forall g :: g in tags ==> tags[g].id == g }

  lemma TagRowKeyed(j: Job, l: Load, i: nat, t: Tag)
    requires TagsKeyed(l.db.tags)
    ensures TagsKeyed(TagRow(j, l, i, t).db.tags)
  {
    hide S.NameTaken;
  }

  function Ids(tags: seq<Tag>): set<string> { set i | 0 <= i < |tags| :: tags[i].id }

  lemma NoIds()
    ensures Ids([]) == {}
  {
  }

  lemma IdsOfTags(cs: Casing, s: S.Db, tenant: string, ticket: string, rows: seq<Tag>)
    requires TagsKeyed(s.tags) && TagRowsOf(cs, s, tenant, ticket, rows)
    ensures Ids(rows) == S.TagsOf(s, tenant, ticket)
  {
    hide Sorted;
    forall g ensures g in Ids(rows) <==> g in S.TagsOf(s, tenant, ticket) {
      if g in Ids(rows) {
        var i :| 0 <= i < |rows| && rows[i].id == g;
        assert rows[i] in rows;
      }
      if g in S.TagsOf(s, tenant, ticket) {
        assert s.tags[g] in rows;
      }
    }
  }

  // ------------------------------------------------------------------------------ links

  lemma OrderNext(rows: seq<TagLink>, i: nat)
    requires i < |rows|
    ensures Order(rows[..i + 1]) ==
            if rows[i].ticket in Order(rows[..i]) then Order(rows[..i]) else Order(rows[..i]) + [rows[i].ticket]
    ensures forall t :: TagsFor(rows[..i + 1], t) ==
                        TagsFor(rows[..i], t) + (if rows[i].ticket == t then [rows[i].tag] else [])
  {
    assert rows[..i + 1][..i] == rows[..i];
  }

  /** The tags each ticket is linked to, and the tickets in order of first mention. */
  method Group(rows: seq<TagLink>) returns (order: seq<string>, byTicket: map<string, seq<string>>)
    ensures order == Order(rows)
    ensures forall t :: t in order ==> t in byTicket && byTicket[t] == TagsFor(rows, t)
    ensures Mentions(rows, order) && forall t :: t in order ==> TagsNamed(rows, t, byTicket[t])
  {
    GroupsExactly(rows);
    hide Order, TagsFor, Mentions, TagsNamed;
    order, byTicket := [], map[];
    NothingGrouped();
    assert rows[..0] == [];
    for i := 0 to |rows|
      invariant order == Order(rows[..i]) && (forall t :: t in byTicket <==> t in order)
      invariant forall t :: t in byTicket ==> byTicket[t] == TagsFor(rows[..i], t)
      invariant forall t :: t !in byTicket ==> TagsFor(rows[..i], t) == []
    {
      OrderNext(rows, i);
      var t := rows[i].ticket;
      if t !in byTicket {
        order := order + [t];
        byTicket := byTicket[t := []];
      }
      byTicket := byTicket[t := byTicket[t] + [rows[i].tag]];
    }
    assert rows[..|rows|] == rows;
  }

  lemma NothingGrouped()
    ensures Order([]) == [] && forall t :: TagsFor([], t) == []
  {
  }

  /** The tags still to be linked. */
  method Missing(linked: set<string>, tags: seq<string>) returns (add: seq<string>)
    ensures add == Unlinked(linked, tags) && AddsEach(linked, tags, add)
  {
    AddsExactly(linked, tags);
    hide AddsEach;
    add := [];
    var seen := linked;
    for i := 0 to |tags|
      invariant add == Unlinked(linked, tags[..i]) && forall g :: g in seen <==> g in linked || g in add
    {
      assert tags[..i + 1][..i] == tags[..i];
      if tags[i] !in seen {
        seen := seen + {tags[i]};
        add := add + [tags[i]];
      }
    }
    assert tags[..|tags|] == tags;
  }

  /** Linking other tickets does not change what a ticket shows. */
  lemma {:induction false} OthersLinked(target: string, s: S.Db, rows: seq<TagLink>, ids: seq<string>, ticket: string)
    requires ticket !in ids
    ensures var l := LinkRows(target, s, rows, ids);
            S.TagsOf(l.db, target, ticket) == S.TagsOf(s, target, ticket)
  {
    hide TagsFor, Unlinked;
    if ids != [] {
      var n := |ids| - 1;
      assert ids[n] in ids;
      OthersLinked(target, s, rows, ids[..n], ticket);
    }
  }

  lemma IdsOfRows(mailboxes: map<string, Mailbox>, target: string, rows: seq<Mailbox>)
    requires forall r :: r in rows <==> exists k :: k in mailboxes && mailboxes[k].tenant == target && mailboxes[k] == r
    ensures (set k | 0 <= k < |rows| :: rows[k].id) == KnownMailboxes(mailboxes, target)
  {
    forall x | x in KnownMailboxes(mailboxes, target) ensures exists k :: 0 <= k < |rows| && rows[k].id == x {
      var k :| k in mailboxes && mailboxes[k].tenant == target && mailboxes[k].id == x;
      assert mailboxes[k] in rows;
    }
    forall i | 0 <= i < |rows| ensures rows[i].id in KnownMailboxes(mailboxes, target) {
      assert rows[i] in rows;
    }
  }

  lemma NeverFault(s: S.Db, t: Ticket, p: Patch, at: Time, now: Time)
    ensures S.UpdateTicket(s, t.tenant, t.id, p, at, now).out != S.Fault
    ensures S.SetStatus(s, t.tenant, t.id, t.status, at, now).out != S.Fault
    ensures S.SetAssignee(s, t.tenant, t.id, t.assignee, t.assigneeName, at, now).out != S.Fault
  {
  }

  /** A ticket that takes the first call takes the other two. */
  lemma OverwriteClean(s: S.Db, t: Ticket, now: Time)
    ensures Clean(s, OverwriteTicket(s, t, now))
  {
  }
}
