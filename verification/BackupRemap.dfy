/** Fresh ids for a document of another tenant (internal/backup/backup.go, remap), minted one by one. */
module BackupRemap {
  import opened Rows
  import opened Backup
  import opened Ids
  import opened Text

  // ------------------------------------------------------------- renaming by a map

  function Rn(m: map<string, string>, id: string): string { if id in m then m[id] else id }

  function RnAll(m: map<string, string>, ids: seq<string>): seq<string> {
    seq(|ids|, i requires 0 <= i < |ids| => Rn(m, ids[i]))
  }

  /** An id that is renamed, or empty. */
  predicate Named(m: map<string, string>, id: string) { id == "" || id in m }

  predicate AllNamed(m: map<string, string>, ids: seq<string>) { forall i :: 0 <= i < |ids| ==> Named(m, ids[i]) }

  // The id fields of each row, its own id first, and the row with these fields replaced.

  function TagIds(t: Tag): seq<string> { [t.id] }
  function PutTag(t: Tag, ids: seq<string>): Tag { if |ids| == 1 then t.(id := ids[0]) else t }
  function MailboxIds(b: Mailbox): seq<string> { [b.id] }
  function PutMailbox(b: Mailbox, ids: seq<string>): Mailbox { if |ids| == 1 then b.(id := ids[0]) else b }
  function RuleIds(r: Rule): seq<string> { [r.id] }
  function PutRule(r: Rule, ids: seq<string>): Rule { if |ids| == 1 then r.(id := ids[0]) else r }
  function TicketIds(t: Ticket): seq<string> { [t.id, t.mailbox] }
  function PutTicket(t: Ticket, ids: seq<string>): Ticket {
    if |ids| == 2 then t.(id := ids[0], mailbox := ids[1]) else t
  }
  function LinkIds(l: TagLink): seq<string> { [l.ticket, l.tag] }
  function PutLink(l: TagLink, ids: seq<string>): TagLink {
    if |ids| == 2 then l.(ticket := ids[0], tag := ids[1]) else l
  }
  function CommentIds(c: Comment): seq<string> { [c.id, c.ticket] }
  function PutComment(c: Comment, ids: seq<string>): Comment {
    if |ids| == 2 then c.(id := ids[0], ticket := ids[1]) else c
  }
  function HistoryIds(h: History): seq<string> { [h.id, h.ticket] }
  function PutHistory(h: History, ids: seq<string>): History {
    if |ids| == 2 then h.(id := ids[0], ticket := ids[1]) else h
  }
  function FileIds(a: Attachment): seq<string> { [a.id, a.ticket, a.comment] }
  function PutFile(a: Attachment, ids: seq<string>): Attachment {
    if |ids| == 3 then a.(id := ids[0], ticket := ids[1], comment := ids[2]) else a
  }

  /** A collection renamed row by row, up to row n. */
  ghost predicate RowsRenamed<T>(m: map<string, string>, rows: seq<T>, out: seq<T>, ids: T -> seq<string>,
                                 put: (T, seq<string>) -> T, n: int)
    requires n <= |rows| == |out|
  {
    forall k :: 0 <= k < n ==> AllNamed(m, ids(rows[k])) && out[k] == put(rows[k], RnAll(m, ids(rows[k])))
  }

  predicate SameSizes(d: Doc, out: Doc) {
    |out.tags| == |d.tags| && |out.mailboxes| == |d.mailboxes| && |out.rules| == |d.rules| &&
    |out.tickets| == |d.tickets| && |out.links| == |d.links| && |out.comments| == |d.comments| &&
    |out.history| == |d.history| && |out.attachments| == |d.attachments|
  }

  /** The whole document renamed; everything else in it is as it was. */
  ghost predicate Renamed(m: map<string, string>, d: Doc, out: Doc) {
    out.tenant == d.tenant && SameSizes(d, out) &&
    RowsRenamed(m, d.tags, out.tags, TagIds, PutTag, |d.tags|) &&
    RowsRenamed(m, d.mailboxes, out.mailboxes, MailboxIds, PutMailbox, |d.mailboxes|) &&
    RowsRenamed(m, d.rules, out.rules, RuleIds, PutRule, |d.rules|) &&
    RowsRenamed(m, d.tickets, out.tickets, TicketIds, PutTicket, |d.tickets|) &&
    RowsRenamed(m, d.links, out.links, LinkIds, PutLink, |d.links|) &&
    RowsRenamed(m, d.comments, out.comments, CommentIds, PutComment, |d.comments|) &&
    RowsRenamed(m, d.history, out.history, HistoryIds, PutHistory, |d.history|) &&
    RowsRenamed(m, d.attachments, out.attachments, FileIds, PutFile, |d.attachments|)
  }

  /** Row by row, the ids and the references to ids are the new ones, and every other field is as it was. */
  ghost predicate OnlyIds(m: map<string, string>, d: Doc, out: Doc) {
    out.tenant == d.tenant && SameSizes(d, out) &&
    (forall i :: 0 <= i < |d.tags| ==> out.tags[i] == d.tags[i].(id := Rn(m, d.tags[i].id))) &&
    (forall i :: 0 <= i < |d.mailboxes| ==> out.mailboxes[i] == d.mailboxes[i].(id := Rn(m, d.mailboxes[i].id))) &&
    (forall i :: 0 <= i < |d.rules| ==> out.rules[i] == d.rules[i].(id := Rn(m, d.rules[i].id))) &&
    (forall i :: 0 <= i < |d.tickets| ==>
       out.tickets[i] == d.tickets[i].(id := Rn(m, d.tickets[i].id), mailbox := Rn(m, d.tickets[i].mailbox))) &&
    (forall i :: 0 <= i < |d.links| ==>
       out.links[i] == d.links[i].(ticket := Rn(m, d.links[i].ticket), tag := Rn(m, d.links[i].tag))) &&
    (forall i :: 0 <= i < |d.comments| ==>
       out.comments[i] == d.comments[i].(id := Rn(m, d.comments[i].id), ticket := Rn(m, d.comments[i].ticket))) &&
    (forall i :: 0 <= i < |d.history| ==>
       out.history[i] == d.history[i].(id := Rn(m, d.history[i].id), ticket := Rn(m, d.history[i].ticket))) &&
    forall i :: 0 <= i < |d.attachments| ==>
      var a := d.attachments[i];
      out.attachments[i] == a.(id := Rn(m, a.id), ticket := Rn(m, a.ticket), comment := Rn(m, a.comment))
  }

  lemma RenamedOnlyIds(m: map<string, string>, d: Doc, out: Doc)
    requires Renamed(m, d, out)
    ensures OnlyIds(m, d, out)
  {
    hide Rn, AllNamed;
  }

  /** Different ids get different names, and none is empty. */
  ghost predicate Injective(m: map<string, string>) {
    "" !in m && (forall x :: x in m ==> m[x] != "") && forall x, y :: x in m && y in m && m[x] == m[y] ==> x == y
  }

  ghost predicate Extends(a: map<string, string>, b: map<string, string>) {
    forall x :: x in a ==> x in b && b[x] == a[x]
  }

  /** The id fields of these rows. */
  function Fields<T>(rows: seq<T>, ids: T -> seq<string>): nat {
    if rows == [] then 0 else Fields(rows[..|rows| - 1], ids) + |ids(rows[|rows| - 1])|
  }

  lemma {:induction false} FieldsOfFirst<T>(rows: seq<T>, ids: T -> seq<string>, i: nat)
    requires i < |rows|
    ensures Fields(rows[..i + 1], ids) == Fields(rows[..i], ids) + |ids(rows[i])| &&
            Fields(rows[..i + 1], ids) <= Fields(rows, ids)
  {
    assert rows[..i + 1][..i] == rows[..i];
    if i + 1 < |rows| {
      var n := |rows| - 1;
      FieldsOfFirst(rows[..n], ids, i);
      assert rows[..n][..i + 1] == rows[..i + 1];
    } else {
      assert rows[..i + 1] == rows;
    }
  }

  /** The largest number of ids a document can need. */
  function IdFields(d: Doc): nat {
    Fields(d.tags, TagIds) + Fields(d.mailboxes, MailboxIds) + Fields(d.rules, RuleIds) + Fields(d.tickets, TicketIds) +
    Fields(d.links, LinkIds) + Fields(d.comments, CommentIds) +
    Fields(d.history, HistoryIds) + Fields(d.attachments, FileIds)
  }

  // ------------------------------------------------------------------------- the loops

  class Remapper {
    const minter: Minter
    const draws: seq<Draw>
    ghost const first: Clock
    var used: nat
    var renamed: map<string, string>

    constructor (minter: Minter, draws: seq<Draw>)
      requires Ok(minter.State()) && Full(draws)
      ensures this.minter == minter && this.draws == draws && first == minter.State()
      ensures used == 0 && renamed == map[] && Good()
    {
      this.minter, this.draws, first := minter, draws, minter.State();
      used, renamed := 0, map[];
    }

    /** The names given so far are ids of earlier draws, each given once. */
    ghost predicate Good()
      reads this, minter
    {
      used <= |draws| && Full(draws) && Ok(first) && minter.State() == After(first, draws[..used]) &&
      Injective(renamed) && forall x :: x in renamed ==> Earlier(first, draws, used, renamed[x])
    }

    method Name(id: string) returns (name: string)
      requires Good() && used < |draws| && After(first, draws).last < MS_LIMIT
      modifies this`used, this`renamed, minter
      ensures Good() && old(used) <= used <= old(used) + 1 && Extends(old(renamed), renamed)
      ensures Named(renamed, id) && name == Rn(renamed, id) && "" !in renamed
    {
      hide Tick, IdText, After, Injective;
      InjectiveNames(renamed);
      ExtendsSelf(renamed);
      if id == "" { return ""; }
      if id in renamed { return renamed[id]; }
      var d := draws[used];
      NextDraw(first, draws, used);
      name := minter.NewID(d.ms, d.rnd);
      NewName(first, draws, used, renamed, id, name);
      renamed := renamed[id := name];
      used := used + 1;
    }

    /** All id fields of a row. */
    method NameAll(ids: seq<string>) returns (out: seq<string>)
      requires Good() && used + |ids| <= |draws| && After(first, draws).last < MS_LIMIT
      modifies this`used, this`renamed, minter
      ensures Good() && used <= old(used) + |ids| && Extends(old(renamed), renamed) && "" !in renamed
      ensures AllNamed(renamed, ids) && out == RnAll(renamed, ids)
    {
      NoEmptyName();
      hide Good, Named, Rn, After, Extends;
      ExtendsSelf(renamed);
      out := [];
      for i := 0 to |ids|
        invariant Good() && used <= old(used) + i && Extends(old(renamed), renamed) && "" !in renamed
        invariant AllNamed(renamed, ids[..i]) && out == RnAll(renamed, ids[..i])
      {
        ghost var before := renamed;
        var name := Name(ids[i]);
        ExtendsTwice(old(renamed), before, renamed);
        AllStillNamed(before, renamed, ids[..i]);
        assert ids[..i + 1] == ids[..i] + [ids[i]];
        out := out + [name];
      }
      assert ids[..|ids|] == ids;
    }

    /** The rows of one collection, in place and in order. */
    method NameRows<T>(rows: seq<T>, ids: T -> seq<string>, put: (T, seq<string>) -> T) returns (out: seq<T>)
      requires Good() && used + Fields(rows, ids) <= |draws| && After(first, draws).last < MS_LIMIT
      modifies this`used, this`renamed, minter
      ensures Good() && used <= old(used) + Fields(rows, ids) && Extends(old(renamed), renamed) && "" !in renamed
      ensures |out| == |rows| && RowsRenamed(renamed, rows, out, ids, put, |rows|)
    {
      NoEmptyName();
      hide Good, AllNamed, RnAll, After, Extends, RowsRenamed;
      ExtendsSelf(renamed);
      out := rows;
      NoRows(renamed, rows, out, ids, put);
      assert rows[..0] == [];
      for i := 0 to |rows|
        invariant |out| == |rows| && Good() && used <= old(used) + Fields(rows[..i], ids) &&
                  Extends(old(renamed), renamed) && "" !in renamed
        invariant RowsRenamed(renamed, rows, out, ids, put, i)
      {
        ghost var before := renamed;
        FieldsOfFirst(rows, ids, i);
        var names := NameAll(ids(rows[i]));
        ExtendsTwice(old(renamed), before, renamed);
        RowsStay(before, renamed, rows, out, ids, put, i);
        NextRow(renamed, rows, out, ids, put, i);
        out := out[i := put(rows[i], names)];
      }
      assert rows[..|rows|] == rows;
    }

    /** Every collection in turn, with the names given so far. */
    method Remap(d: Doc) returns (out: Doc)
      requires Good() && used + IdFields(d) <= |draws| && After(first, draws).last < MS_LIMIT
      modifies this`used, this`renamed, minter
      ensures Good() && Injective(renamed) && Renamed(renamed, d, out) && OnlyIds(renamed, d, out)
    {
      hide Good, After, Extends, Injective, RowsRenamed, Fields, OnlyIds;
      var tags := NameRows(d.tags, TagIds, PutTag);
      ghost var m0 := renamed;
      var mailboxes := NameRows(d.mailboxes, MailboxIds, PutMailbox);
      ghost var m1 := renamed;
      var rules := NameRows(d.rules, RuleIds, PutRule);
      ghost var m2 := renamed;
      var tickets := NameRows(d.tickets, TicketIds, PutTicket);
      ghost var m3 := renamed;
      var links := NameRows(d.links, LinkIds, PutLink);
      ghost var m4 := renamed;
      var comments := NameRows(d.comments, CommentIds, PutComment);
      ghost var m5 := renamed;
      var history := NameRows(d.history, HistoryIds, PutHistory);
      ghost var m6 := renamed;
      var attachments := NameRows(d.attachments, FileIds, PutFile);
      KeepsInjective();
      out := Doc(d.tenant, tags, mailboxes, rules, tickets, links, comments, history, attachments);
      RowsStay(m6, renamed, d.history, history, HistoryIds, PutHistory, |history|);
      ExtendsTwice(m5, m6, renamed);
      RowsStay(m5, renamed, d.comments, comments, CommentIds, PutComment, |comments|);
      ExtendsTwice(m4, m5, renamed);
      RowsStay(m4, renamed, d.links, links, LinkIds, PutLink, |links|);
      ExtendsTwice(m3, m4, renamed);
      RowsStay(m3, renamed, d.tickets, tickets, TicketIds, PutTicket, |tickets|);
      ExtendsTwice(m2, m3, renamed);
      RowsStay(m2, renamed, d.rules, rules, RuleIds, PutRule, |rules|);
      ExtendsTwice(m1, m2, renamed);
      RowsStay(m1, renamed, d.mailboxes, mailboxes, MailboxIds, PutMailbox, |mailboxes|);
      ExtendsTwice(m0, m1, renamed);
      RowsStay(m0, renamed, d.tags, tags, TagIds, PutTag, |tags|);
      RenamedOnlyIds(renamed, d, out);
    }

    lemma NoEmptyName()
      requires Good()
      ensures "" !in renamed
    {
    }

    lemma KeepsInjective()
      requires Good()
      ensures Injective(renamed)
    {
    }
  }

  // ------------------------------------------------------------------- minted names

  ghost predicate Earlier(c: Clock, draws: seq<Draw>, n: nat, id: string)
    requires Full(draws) && Ok(c) && n <= |draws|
  {
    exists i: nat :: i < n && id == IdOf(c, draws, i)
  }

  lemma NextDraw(c: Clock, draws: seq<Draw>, n: nat)
    requires Full(draws) && Ok(c) && n < |draws|
    ensures var d := draws[n];
            After(c, draws[..n + 1]) == Tick(After(c, draws[..n]), d.ms, d.rnd) && Ok(After(c, draws[..n])) &&
            IdOf(c, draws, n) == IdText(After(c, draws[..n + 1]), d.rnd)
  {
    hide Tick, IdText;
    assert draws[..n + 1][..n] == draws[..n];
    AfterOk(c, draws[..n]);
  }

  lemma NewName(c: Clock, draws: seq<Draw>, n: nat, m: map<string, string>, id: string, name: string)
    requires Full(draws) && Ok(c) && n < |draws| && After(c, draws).last < MS_LIMIT && Injective(m) && id != "" &&
             id !in m
    requires name == IdOf(c, draws, n) && |name| == 36 && forall x :: x in m ==> Earlier(c, draws, n, m[x])
    ensures Injective(m[id := name]) && Extends(m, m[id := name])
    ensures var m' := m[id := name]; forall x :: x in m' ==> Earlier(c, draws, n + 1, m'[x])
  {
    hide IdOf;
    forall x | x in m ensures m[x] != name && Earlier(c, draws, n + 1, m[x]) {
      var i: nat :| i < n && m[x] == IdOf(c, draws, i);
      MintedInOrder(c, draws, i, n);
    }
    assert Earlier(c, draws, n + 1, name);
  }

  lemma InjectiveNames(m: map<string, string>)
    requires Injective(m)
    ensures "" !in m
  {
  }

  lemma NoRows<T>(m: map<string, string>, rows: seq<T>, out: seq<T>, ids: T -> seq<string>, put: (T, seq<string>) -> T)
    requires |out| == |rows|
    ensures RowsRenamed(m, rows, out, ids, put, 0)
  {
  }

  lemma NextRow<T>(m: map<string, string>, rows: seq<T>, out: seq<T>, ids: T -> seq<string>,
                   put: (T, seq<string>) -> T, i: nat)
    requires i < |rows| == |out| && RowsRenamed(m, rows, out, ids, put, i) && AllNamed(m, ids(rows[i]))
    ensures RowsRenamed(m, rows, out[i := put(rows[i], RnAll(m, ids(rows[i])))], ids, put, i + 1)
  {
    hide AllNamed, RnAll;
  }

  lemma ExtendsSelf(m: map<string, string>)
    ensures Extends(m, m)
  {
  }

  lemma ExtendsTwice(a: map<string, string>, b: map<string, string>, c: map<string, string>)
    requires Extends(a, b) && Extends(b, c)
    ensures Extends(a, c)
  {
  }

  lemma StillNamed(a: map<string, string>, b: map<string, string>, id: string)
    requires Extends(a, b) && "" !in b && Named(a, id)
    ensures Named(b, id) && Rn(b, id) == Rn(a, id)
  {
  }

  lemma AllStillNamed(a: map<string, string>, b: map<string, string>, ids: seq<string>)
    requires Extends(a, b) && "" !in b && AllNamed(a, ids)
    ensures AllNamed(b, ids) && RnAll(b, ids) == RnAll(a, ids)
  {
    hide Extends, Named, Rn;
    forall i | 0 <= i < |ids| ensures Named(b, ids[i]) && Rn(b, ids[i]) == Rn(a, ids[i]) { StillNamed(a, b, ids[i]); }
  }

  lemma RowsStay<T>(a: map<string, string>, b: map<string, string>, rows: seq<T>, out: seq<T>, ids: T -> seq<string>,
                    put: (T, seq<string>) -> T, n: nat)
    requires Extends(a, b) && "" !in b && n <= |rows| == |out| && RowsRenamed(a, rows, out, ids, put, n)
    ensures RowsRenamed(b, rows, out, ids, put, n)
  {
    hide Extends, AllNamed, RnAll;
    forall k | 0 <= k < n ensures AllNamed(b, ids(rows[k])) && out[k] == put(rows[k], RnAll(b, ids(rows[k]))) {
      AllStillNamed(a, b, ids(rows[k]));
    }
  }

  // ------------------------------------------------------------- what a renaming preserves

  /** Every id field of a document. */
  ghost predicate Mentions(d: Doc, x: string) {
    (exists i :: 0 <= i < |d.tags| && d.tags[i].id == x) ||
    (exists i :: 0 <= i < |d.mailboxes| && d.mailboxes[i].id == x) ||
    (exists i :: 0 <= i < |d.rules| && d.rules[i].id == x) ||
    (exists i :: 0 <= i < |d.tickets| && (d.tickets[i].id == x || d.tickets[i].mailbox == x)) ||
    (exists i :: 0 <= i < |d.links| && (d.links[i].ticket == x || d.links[i].tag == x)) ||
    (exists i :: 0 <= i < |d.comments| && (d.comments[i].id == x || d.comments[i].ticket == x)) ||
    (exists i :: 0 <= i < |d.history| && (d.history[i].id == x || d.history[i].ticket == x)) ||
    (exists i :: 0 <= i < |d.attachments| &&
                 (d.attachments[i].id == x || d.attachments[i].ticket == x || d.attachments[i].comment == x))
  }

  lemma MentionedIsNamed(m: map<string, string>, d: Doc, out: Doc, x: string)
    requires Renamed(m, d, out) && Mentions(d, x)
    ensures Named(m, x)
  {
    hide Rn;
  }

  /** Two id fields of the result are equal exactly when they were equal before, and only an empty one is empty. */
  lemma RenamingIsInjective(m: map<string, string>, d: Doc, out: Doc, x: string, y: string)
    requires Injective(m) && Renamed(m, d, out) && Mentions(d, x) && Mentions(d, y)
    ensures Rn(m, x) == Rn(m, y) <==> x == y
    ensures Rn(m, x) == "" <==> x == ""
  {
    hide Renamed, Mentions;
    MentionedIsNamed(m, d, out, x);
    MentionedIsNamed(m, d, out, y);
  }

  predicate HasTagRow(d: Doc, id: string) { exists i :: 0 <= i < |d.tags| && d.tags[i].id == id }
  predicate HasMailboxRow(d: Doc, id: string) { exists i :: 0 <= i < |d.mailboxes| && d.mailboxes[i].id == id }
  predicate HasTicketRow(d: Doc, id: string) { exists i :: 0 <= i < |d.tickets| && d.tickets[i].id == id }
  predicate HasCommentRow(d: Doc, id: string) { exists i :: 0 <= i < |d.comments| && d.comments[i].id == id }

  /** A named id has a row in the result exactly when it had one before. */
  lemma RowsFollow(m: map<string, string>, d: Doc, out: Doc, x: string)
    requires Injective(m) && Renamed(m, d, out) && Named(m, x)
    ensures HasTagRow(out, Rn(m, x)) <==> HasTagRow(d, x)
    ensures HasMailboxRow(out, Rn(m, x)) <==> HasMailboxRow(d, x)
    ensures HasTicketRow(out, Rn(m, x)) <==> HasTicketRow(d, x)
    ensures HasCommentRow(out, Rn(m, x)) <==> HasCommentRow(d, x)
  {
    hide Injective, Named, Rn, RowsRenamed;
    forall i: nat | i < |d.tags| ensures out.tags[i].id == Rn(m, x) <==> d.tags[i].id == x {
      RowFollows(m, d.tags, out.tags, TagIds, PutTag, x, i);
    }
    forall i: nat | i < |d.mailboxes| ensures out.mailboxes[i].id == Rn(m, x) <==> d.mailboxes[i].id == x {
      RowFollows(m, d.mailboxes, out.mailboxes, MailboxIds, PutMailbox, x, i);
    }
    forall i: nat | i < |d.tickets| ensures out.tickets[i].id == Rn(m, x) <==> d.tickets[i].id == x {
      RowFollows(m, d.tickets, out.tickets, TicketIds, PutTicket, x, i);
    }
    forall i: nat | i < |d.comments| ensures out.comments[i].id == Rn(m, x) <==> d.comments[i].id == x {
      RowFollows(m, d.comments, out.comments, CommentIds, PutComment, x, i);
    }
  }

  lemma SameName(m: map<string, string>, x: string, y: string)
    requires Injective(m) && Named(m, x) && Named(m, y)
    ensures Rn(m, x) == Rn(m, y) <==> x == y
  {
  }

  /** The row's own id, in a collection renamed. */
  lemma RowFollows<T>(m: map<string, string>, rows: seq<T>, out: seq<T>, ids: T -> seq<string>,
                      put: (T, seq<string>) -> T, x: string, i: nat)
    requires Injective(m) && |out| == |rows| && RowsRenamed(m, rows, out, ids, put, |rows|) && Named(m, x) && i < |rows|
    requires ids(rows[i]) != [] && forall names :: |names| == |ids(rows[i])| ==> ids(put(rows[i], names)) == names
    ensures ids(out[i]) != [] && (ids(out[i])[0] == Rn(m, x) <==> ids(rows[i])[0] == x)
  {
    hide Injective, Named, Rn;
    SameName(m, ids(rows[i])[0], x);
  }

  /** A reference resolves in the result exactly when it resolved in the source. */
  lemma ReferencesSurvive(m: map<string, string>, d: Doc, out: Doc, i: nat)
    requires Injective(m) && Renamed(m, d, out)
    ensures i < |d.links| ==> (HasTicketRow(out, out.links[i].ticket) <==> HasTicketRow(d, d.links[i].ticket)) &&
                              (HasTagRow(out, out.links[i].tag) <==> HasTagRow(d, d.links[i].tag))
    ensures i < |d.tickets| ==> (HasMailboxRow(out, out.tickets[i].mailbox) <==> HasMailboxRow(d, d.tickets[i].mailbox))
    ensures i < |d.comments| ==> (HasTicketRow(out, out.comments[i].ticket) <==> HasTicketRow(d, d.comments[i].ticket))
    ensures i < |d.history| ==> (HasTicketRow(out, out.history[i].ticket) <==> HasTicketRow(d, d.history[i].ticket))
    ensures i < |d.attachments| ==>
              (HasTicketRow(out, out.attachments[i].ticket) <==> HasTicketRow(d, d.attachments[i].ticket)) &&
              (HasCommentRow(out, out.attachments[i].comment) <==> HasCommentRow(d, d.attachments[i].comment))
  {
    hide Injective, Named, Rn, HasTagRow, HasMailboxRow, HasTicketRow, HasCommentRow;
    if i < |d.links| {
      RowsFollow(m, d, out, d.links[i].ticket);
      RowsFollow(m, d, out, d.links[i].tag);
    }
    if i < |d.tickets| { RowsFollow(m, d, out, d.tickets[i].mailbox); }
    if i < |d.comments| { RowsFollow(m, d, out, d.comments[i].ticket); }
    if i < |d.history| { RowsFollow(m, d, out, d.history[i].ticket); }
    if i < |d.attachments| {
      RowsFollow(m, d, out, d.attachments[i].ticket);
      RowsFollow(m, d, out, d.attachments[i].comment);
    }
  }
}
