/** Exporting a tenant and wiping it for a full restore (internal/backup/backup.go). */
module Exporter {
  import opened Rows
  import opened Text
  import opened Listing
  import opened Memstore
  import opened StoreIsolation
  import opened Backup
  import opened BackupRestore
  import opened BackupWipe
  import opened BackupScope
  import S = Store
  import V = StoreValid

  // ------------------------------------------------------------------------- listings

  lemma {:induction false} InsertAscends<T(!new)>(xs: seq<T>, x: T, key: T -> Key)
    requires Ascending(xs, key) && forall i :: 0 <= i < |xs| ==> key(xs[i]) != key(x)
    ensures Ascending(Insert(xs, x, key), key)
    ensures forall y :: y in Insert(xs, x, key) <==> y in xs || y == x
    decreases |xs|
  {
    var n := |xs| - 1;
    if xs != [] && KeyLess(key(x), key(xs[n])) {
      InsertAscends(xs[..n], x, key);
      AscendingSnoc(xs, Insert(xs[..n], x, key), x, key);
    } else if xs != [] {
      KeyLessIsStrict(key(x), key(xs[n]));
      forall i | 0 <= i < n ensures KeyLess(key(xs[i]), key(x)) { KeyLessIsTransitive(key(xs[i]), key(xs[n]), key(x)); }
    }
  }

  lemma AscendingSnoc<T(!new)>(xs: seq<T>, zs: seq<T>, x: T, key: T -> Key)
    requires xs != [] && Ascending(xs, key) && Ascending(zs, key) && KeyLess(key(x), key(xs[|xs| - 1]))
    requires forall y :: y in zs <==> y in xs[..|xs| - 1] || y == x
    ensures Ascending(zs + [xs[|xs| - 1]], key)
    ensures forall y :: y in zs + [xs[|xs| - 1]] <==> y in xs || y == x
  {
    var n := |xs| - 1;
    forall i | 0 <= i < |zs| ensures KeyLess(key(zs[i]), key(xs[n])) {
      assert zs[i] in zs;
      if zs[i] != x {
        var k :| 0 <= k < n && xs[..n][k] == zs[i];
        assert xs[k] == zs[i];
      }
    }
    assert xs == xs[..n] + [xs[n]];
  }

  /** Rows in the listing order of their keys. */
  method List<T(!new, ==)>(rows: set<T>, key: T -> Key) returns (xs: seq<T>)
    requires forall a, b :: a in rows && b in rows && a != b ==> key(a) != key(b)
    ensures Lists(xs, rows, key)
  {
    hide Insert;
    xs := [];
    var rest := rows;
    while rest != {}
      invariant rest <= rows && Ascending(xs, key)
      invariant forall x :: x in xs <==> x in rows && x !in rest
      decreases rest
    {
      var x :| x in rest;
      InsertAscends(xs, x, key);
      xs := Insert(xs, x, key);
      rest := rest - {x};
    }
  }

  // --------------------------------------------------------------------------- export

  lemma KeysDiffer(cs: Casing, s: S.Db)
    requires V.Valid(cs, s)
    ensures forall a, b :: a in s.tags.Values && b in s.tags.Values && a != b ==> TagKey(cs)(a) != TagKey(cs)(b)
    ensures forall a, b :: a in s.mailboxes.Values && b in s.mailboxes.Values && a != b ==>
              MailboxKey(a) != MailboxKey(b)
    ensures forall a, b :: a in s.rules.Values && b in s.rules.Values && a != b ==> RuleKey(a) != RuleKey(b)
    ensures forall a, b :: a in s.tickets.Values && b in s.tickets.Values && a != b ==> TicketKey(a) != TicketKey(b)
    ensures forall a, b :: a in s.comments.Values && b in s.comments.Values && a != b ==> CommentKey(a) != CommentKey(b)
    ensures forall a, b :: a in s.attachments.Values && b in s.attachments.Values && a != b ==>
              AttachmentKeyOf(a) != AttachmentKeyOf(b)
  {
    hide V.References, V.Counted, V.UniqueExternal, V.UniqueMessage, V.UniqueName, V.UniqueKey;
    forall a, b | a in s.tags.Values && b in s.tags.Values && a != b ensures TagKey(cs)(a) != TagKey(cs)(b) {
      assert TagKey(cs)(a)[2] == Str(a.id) && TagKey(cs)(b)[2] == Str(b.id);
    }
    forall a, b | a in s.mailboxes.Values && b in s.mailboxes.Values && a != b ensures MailboxKey(a) != MailboxKey(b) {
      assert MailboxKey(a)[0] == Str(a.address) && MailboxKey(b)[0] == Str(b.address);
      assert V.UniqueAddress(s.mailboxes);
    }
    forall a, b | a in s.rules.Values && b in s.rules.Values && a != b ensures RuleKey(a) != RuleKey(b) {
      assert RuleKey(a)[2] == Str(a.id) && RuleKey(b)[2] == Str(b.id);
    }
    forall a, b | a in s.tickets.Values && b in s.tickets.Values && a != b ensures TicketKey(a) != TicketKey(b) {
      assert TicketKey(a)[0] == Str(a.id) && TicketKey(b)[0] == Str(b.id);
    }
    forall a, b | a in s.comments.Values && b in s.comments.Values && a != b ensures CommentKey(a) != CommentKey(b) {
      assert CommentKey(a)[1] == Str(a.id) && CommentKey(b)[1] == Str(b.id);
    }
    forall a, b | a in s.attachments.Values && b in s.attachments.Values && a != b
      ensures AttachmentKeyOf(a) != AttachmentKeyOf(b)
    {
      assert AttachmentKeyOf(a)[0] == Str(a.id) && AttachmentKeyOf(b)[0] == Str(b.id);
    }
  }

  lemma LinkKeysDiffer(links: map<string, set<string>>, tickets: map<string, Ticket>, b: string)
    ensures forall x, y :: x in LinkSet(links, tickets, b) && y in LinkSet(links, tickets, b) && x != y ==>
              LinkKey(x) != LinkKey(y)
  {
    forall x, y | x in LinkSet(links, tickets, b) && y in LinkSet(links, tickets, b) && x != y
      ensures LinkKey(x) != LinkKey(y)
    {
      assert LinkKey(x)[0] == Str(x.ticket) && LinkKey(x)[1] == Str(x.tag);
      assert LinkKey(y)[0] == Str(y.ticket) && LinkKey(y)[1] == Str(y.tag);
    }
  }

  lemma MineWithin<R>(m: map<string, R>, owner: R -> string, b: string)
    ensures forall r :: r in Mine(m, owner, b).Values ==> r in m.Values
  {
  }

  /** Every collection of the tenant, complete and in its listing order. */
  method Export(mem: Mem, b: string) returns (d: Doc)
    requires V.Valid(mem.cs, mem.State())
    ensures Exports(mem.cs, mem.State(), b, d)
  {
    hide V.Valid, TagKey, MailboxKey, RuleKey, TicketKey, LinkKey, CommentKey, AttachmentKeyOf, Lists, HistoryOf,
      SortBy;
    KeysDiffer(mem.cs, mem.State());
    LinkKeysDiffer(mem.links, mem.tickets, b);
    MineWithin(mem.tags, TagOwner, b);
    MineWithin(mem.mailboxes, MailboxOwner, b);
    MineWithin(mem.rules, RuleOwner, b);
    MineWithin(mem.tickets, TicketOwner, b);
    MineWithin(mem.comments, CommentOwner, b);
    MineWithin(mem.attachments, AttachmentOwner, b);
    hide Mine;
    var tags := List(Mine(mem.tags, TagOwner, b).Values, TagKey(mem.cs));
    var mailboxes := List(Mine(mem.mailboxes, MailboxOwner, b).Values, MailboxKey);
    var rules := List(Mine(mem.rules, RuleOwner, b).Values, RuleKey);
    var tickets := List(Mine(mem.tickets, TicketOwner, b).Values, TicketKey);
    var pairs := set k, g | k in mem.links && k in mem.tickets && mem.tickets[k].tenant == b && g in mem.links[k]
                   :: TagLink(b, k, g);
    var links := List(pairs, LinkKey);
    var comments := List(Mine(mem.comments, CommentOwner, b).Values, CommentKey);
    var attachments := List(Mine(mem.attachments, AttachmentOwner, b).Values, AttachmentKeyOf);
    d := Doc(b, tags, mailboxes, rules, tickets, links, comments, SortBy(HistoryOf(mem.history, b), HistoryKey),
             attachments);
  }

  // ----------------------------------------------------------------------------- wipe

  /** The object keys of one tenant's attachment rows. */
  function FilesOf(attachments: map<string, Attachment>, b: string): set<string> {
    set k | k in attachments && attachments[k].tenant == b :: attachments[k].storageKey
  }

  lemma {:induction false} FilesShrink(s: S.Db, b: string, ids: seq<string>)
    ensures V.Within(WipeTickets(s, b, ids).attachments, s.attachments)
  {
    if ids != [] { FilesShrink(s, b, ids[..|ids| - 1]); }
  }

  /** A ticket of the tenant gives up only objects of the tenant. */
  lemma OwnKeys(cs: Casing, s: S.Db, b: string, ids: seq<string>, id: string)
    requires V.Valid(cs, s)
    ensures S.DeleteTicket(WipeTickets(s, b, ids), b, id).keys <= FilesOf(s.attachments, b)
  {
    var e := WipeTickets(s, b, ids);
    WipeTicketsConfined(cs, s, b, ids);
    FilesShrink(s, b, ids);
    hide WipeTickets, V.Uniqueness, V.Counted, V.KeysMatch, Of;
    assert V.AttachmentRefs(e.attachments, e.comments, e.tickets);
    if S.HasTicket(e, b, id) {
      forall x | x in S.KeysOfTicket(e.attachments, id) ensures x in FilesOf(s.attachments, b) {
        var k :| k in e.attachments && e.attachments[k].ticket == id && e.attachments[k].storageKey == x;
        assert k in s.attachments && s.attachments[k] == e.attachments[k];
      }
    }
  }

  /** Removes the objects of a deleted ticket that the document does not name again, as far as possible. */
  method DropObjects(keys: seq<string>, keep: set<string>, objects: set<string>, fails: string -> bool)
    returns (left: set<string>)
    ensures left <= objects && objects - left <= (set k | k in keys) - keep
    ensures forall k :: k in keys && k !in keep && !fails(k) ==> k !in left
  {
    left := objects;
    for i := 0 to |keys|
      invariant left <= objects && forall k :: k in objects && k !in left ==> k in keys && k !in keep
      invariant forall j :: 0 <= j < i && keys[j] !in keep && !fails(keys[j]) ==> keys[j] !in left
    {
      if keys[i] !in keep && !fails(keys[i]) { left := left - {keys[i]}; }
    }
  }

  method WipeAllTickets(mem: Mem, b: string, ids: seq<string>, keep: set<string>, objects: set<string>,
                        fails: string -> bool)
    returns (n: nat, ok: bool, left: set<string>)
    requires V.Valid(mem.cs, mem.State())
    modifies mem`tickets, mem`comments, mem`attachments, mem`links, mem`history, mem`failNext
    ensures mem.failNext <= old(mem.failNext) && (old(mem.failNext) == {} ==> ok)
    ensures n <= |ids| && Confined(mem.cs, b, old(mem.State()), mem.State())
    ensures ok ==> n == |ids| && mem.State() == WipeTickets(old(mem.State()), b, ids)
    ensures left <= objects && objects - left <= FilesOf(old(mem.attachments), b) - keep
  {
    hide V.Valid, S.DeleteTicket, FilesOf, Confined;
    ghost var db := mem.State();
    left, n := objects, 0;
    WipeTicketsConfined(mem.cs, db, b, ids[..0]);
    while n < |ids|
      invariant n <= |ids| && mem.failNext <= old(mem.failNext) && mem.State() == WipeTickets(db, b, ids[..n])
      invariant Confined(mem.cs, b, db, mem.State())
      invariant left <= objects && objects - left <= FilesOf(db.attachments, b) - keep
    {
      assert ids[..n + 1][..n] == ids[..n];
      OwnKeys(mem.cs, db, b, ids[..n], ids[n]);
      NoFault(mem.State(), b, ids[n]);
      var out, keys := mem.DeleteTicket(b, ids[n]);
      if out == S.Fault { return n, false, left; }
      assert (set k | k in keys) == S.DeleteTicket(WipeTickets(db, b, ids[..n]), b, ids[n]).keys;
      ghost var before := left;
      left := DropObjects(keys, keep, left, fails);
      assert objects - left == (objects - before) + (before - left);
      n := n + 1;
      WipeTicketsConfined(mem.cs, db, b, ids[..n]);
    }
    assert ids[..|ids|] == ids;
    ok := true;
  }

  lemma NoFault(s: S.Db, b: string, id: string)
    ensures S.DeleteTicket(s, b, id).out != S.Fault && S.DeleteRule(s, b, id).out != S.Fault
    ensures S.DeleteTag(s, b, id).out != S.Fault && S.DeleteMailbox(s, b, id, true).out != S.Fault
  {
  }

  method WipeAllRules(mem: Mem, b: string, ids: seq<string>) returns (n: nat, ok: bool)
    requires V.Valid(mem.cs, mem.State())
    modifies mem`rules, mem`failNext
    ensures mem.failNext <= old(mem.failNext) && (old(mem.failNext) == {} ==> ok)
    ensures n <= |ids| && Confined(mem.cs, b, old(mem.State()), mem.State())
    ensures ok ==> n == |ids| && mem.State() == WipeRules(old(mem.State()), b, ids)
  {
    hide S.DeleteRule, V.Valid, Confined;
    ghost var db := mem.State();
    n := 0;
    WipeRulesConfined(mem.cs, db, b, ids[..0]);
    while n < |ids|
      invariant n <= |ids| && mem.failNext <= old(mem.failNext) && mem.State() == WipeRules(db, b, ids[..n])
      invariant Confined(mem.cs, b, db, mem.State())
    {
      assert ids[..n + 1][..n] == ids[..n];
      NoFault(mem.State(), b, ids[n]);
      var out := mem.DeleteRule(b, ids[n]);
      if out == S.Fault { return n, false; }
      n := n + 1;
      WipeRulesConfined(mem.cs, db, b, ids[..n]);
    }
    assert ids[..|ids|] == ids;
    ok := true;
  }

  method WipeAllTags(mem: Mem, b: string, ids: seq<string>) returns (n: nat, ok: bool)
    requires V.Valid(mem.cs, mem.State())
    modifies mem`tags, mem`links, mem`failNext
    ensures mem.failNext <= old(mem.failNext) && (old(mem.failNext) == {} ==> ok)
    ensures n <= |ids| && Confined(mem.cs, b, old(mem.State()), mem.State())
    ensures ok ==> n == |ids| && mem.State() == WipeTags(old(mem.State()), b, ids)
  {
    hide S.DeleteTag, V.Valid, Confined;
    ghost var db := mem.State();
    n := 0;
    WipeTagsConfined(mem.cs, db, b, ids[..0]);
    while n < |ids|
      invariant n <= |ids| && mem.failNext <= old(mem.failNext) && mem.State() == WipeTags(db, b, ids[..n])
      invariant Confined(mem.cs, b, db, mem.State())
    {
      assert ids[..n + 1][..n] == ids[..n];
      NoFault(mem.State(), b, ids[n]);
      var out := mem.DeleteTag(b, ids[n]);
      if out == S.Fault { return n, false; }
      n := n + 1;
      WipeTagsConfined(mem.cs, db, b, ids[..n]);
    }
    assert ids[..|ids|] == ids;
    ok := true;
  }

  method WipeAllMailboxes(mem: Mem, b: string, ids: seq<string>) returns (n: nat, ok: bool)
    requires V.Valid(mem.cs, mem.State())
    modifies mem`mailboxes, mem`tickets, mem`failNext
    ensures mem.failNext <= old(mem.failNext) && (old(mem.failNext) == {} ==> ok)
    ensures n <= |ids| && Confined(mem.cs, b, old(mem.State()), mem.State())
    ensures ok ==> n == |ids| && mem.State() == WipeMailboxes(old(mem.State()), b, ids)
  {
    hide S.DeleteMailbox, V.Valid, Confined;
    ghost var db := mem.State();
    n := 0;
    WipeMailboxesConfined(mem.cs, db, b, ids[..0]);
    while n < |ids|
      invariant n <= |ids| && mem.failNext <= old(mem.failNext) && mem.State() == WipeMailboxes(db, b, ids[..n])
      invariant Confined(mem.cs, b, db, mem.State())
    {
      assert ids[..n + 1][..n] == ids[..n];
      NoFault(mem.State(), b, ids[n]);
      var out := mem.DeleteMailbox(b, ids[n], true);
      if out == S.Fault { return n, false; }
      n := n + 1;
      WipeMailboxesConfined(mem.cs, db, b, ids[..n]);
    }
    assert ids[..|ids|] == ids;
    ok := true;
  }

  /** The ids under which a table holds a tenant's rows, each once. */
  method IdsOf<R>(m: map<string, R>, owner: R -> string, b: string) returns (ids: seq<string>)
    ensures |ids| == |Mine(m, owner, b)| && forall k :: k in ids <==> k in m && owner(m[k]) == b
  {
    ids := [];
    var rest := Mine(m, owner, b).Keys;
    ghost var all := rest;
    assert |all| == |Mine(m, owner, b)|;
    while rest != {}
      invariant rest <= all && |ids| + |rest| == |all| && forall k :: k in ids <==> k in all && k !in rest
      decreases rest
    {
      var k :| k in rest;
      ids, rest := ids + [k], rest - {k};
    }
  }

  /** How many rows a wipe deletes itself; children go with their tickets. */
  function RowCount(s: S.Db, b: string): nat {
    |Mine(s.tickets, TicketOwner, b)| + |Mine(s.rules, RuleOwner, b)| +
    |Mine(s.tags, TagOwner, b)| + |Mine(s.mailboxes, MailboxOwner, b)|
  }

  /**
   * A full wipe: nothing of the tenant is left and every row is counted. Even when a call fails, no other tenant's
   * row is touched, and the only objects that go are the tenant's own that the document does not name again.
   */
  method WipeTenant(mem: Mem, b: string, keep: set<string>, objects: set<string>, fails: string -> bool)
    returns (n: nat, ok: bool, left: set<string>)
    requires V.Valid(mem.cs, mem.State())
    modifies mem
    ensures old(mem.failNext) == {} ==> ok
    ensures Confined(mem.cs, b, old(mem.State()), mem.State()) && n <= RowCount(old(mem.State()), b)
    ensures ok ==> n == RowCount(old(mem.State()), b) && Of(mem.State(), b) == NOTHING
    ensures left <= objects && objects - left <= FilesOf(old(mem.attachments), b) - keep
  {
    hide V.Valid, Of, FilesOf, Confined, WipeTickets, WipeRules, WipeTags, WipeMailboxes, Mine;
    ghost var db := mem.State();
    Unchanged(mem.cs, b, db);
    n, left := 0, objects;
    var armed := mem.Fail("AllTickets");
    if armed { return n, false, left; }
    var tickets := IdsOf(mem.tickets, TicketOwner, b);
    n, ok, left := WipeAllTickets(mem, b, tickets, keep, objects, fails);
    if !ok { return; }
    ghost var db1 := mem.State();
    Chain(mem.cs, b, db, db, db1);
    var more;
    more, ok := WipeCatalogue(mem, b, tickets, db);
    n := n + more;
    Chain(mem.cs, b, db, db1, mem.State());
  }

  method WipeListedRules(mem: Mem, b: string) returns (n: nat, ok: bool, ids: seq<string>)
    requires V.Valid(mem.cs, mem.State())
    modifies mem`rules, mem`failNext
    ensures mem.failNext <= old(mem.failNext) && (old(mem.failNext) == {} ==> ok)
    ensures n <= |Mine(old(mem.rules), RuleOwner, b)| && Confined(mem.cs, b, old(mem.State()), mem.State())
    ensures ok ==> n == |Mine(old(mem.rules), RuleOwner, b)| && mem.State() == WipeRules(old(mem.State()), b, ids)
    ensures ok ==> forall k :: k in old(mem.rules) && RuleOwner(old(mem.rules)[k]) == b ==> k in ids
  {
    hide V.Valid, Confined, WipeRules, Mine;
    Unchanged(mem.cs, b, mem.State());
    var armed := mem.Fail("ListRules");
    if armed { return 0, false, []; }
    ids := IdsOf(mem.rules, RuleOwner, b);
    n, ok := WipeAllRules(mem, b, ids);
  }

  method WipeListedTags(mem: Mem, b: string) returns (n: nat, ok: bool, ids: seq<string>)
    requires V.Valid(mem.cs, mem.State())
    modifies mem`tags, mem`links, mem`failNext
    ensures mem.failNext <= old(mem.failNext) && (old(mem.failNext) == {} ==> ok)
    ensures n <= |Mine(old(mem.tags), TagOwner, b)| && Confined(mem.cs, b, old(mem.State()), mem.State())
    ensures ok ==> n == |Mine(old(mem.tags), TagOwner, b)| && mem.State() == WipeTags(old(mem.State()), b, ids)
    ensures ok ==> forall k :: k in old(mem.tags) && TagOwner(old(mem.tags)[k]) == b ==> k in ids
  {
    hide V.Valid, Confined, WipeTags, Mine;
    Unchanged(mem.cs, b, mem.State());
    var armed := mem.Fail("ListTags");
    if armed { return 0, false, []; }
    ids := IdsOf(mem.tags, TagOwner, b);
    n, ok := WipeAllTags(mem, b, ids);
  }

  method WipeListedMailboxes(mem: Mem, b: string) returns (n: nat, ok: bool, ids: seq<string>)
    requires V.Valid(mem.cs, mem.State())
    modifies mem`mailboxes, mem`tickets, mem`failNext
    ensures mem.failNext <= old(mem.failNext) && (old(mem.failNext) == {} ==> ok)
    ensures n <= |Mine(old(mem.mailboxes), MailboxOwner, b)| && Confined(mem.cs, b, old(mem.State()), mem.State())
    ensures ok ==>
              n == |Mine(old(mem.mailboxes), MailboxOwner, b)| && mem.State() == WipeMailboxes(old(mem.State()), b, ids)
    ensures ok ==> forall k :: k in old(mem.mailboxes) && MailboxOwner(old(mem.mailboxes)[k]) == b ==> k in ids
  {
    hide V.Valid, Confined, WipeMailboxes, Mine;
    Unchanged(mem.cs, b, mem.State());
    var armed := mem.Fail("ListMailboxes");
    if armed { return 0, false, []; }
    ids := IdsOf(mem.mailboxes, MailboxOwner, b);
    n, ok := WipeAllMailboxes(mem, b, ids);
  }

  /** The rules, tags and mailboxes, once the tickets are gone. */
  method WipeCatalogue(mem: Mem, b: string, ghost tickets: seq<string>, ghost db: S.Db) returns (n: nat, ok: bool)
    requires V.Valid(mem.cs, mem.State()) && V.Valid(mem.cs, db) && mem.State() == WipeTickets(db, b, tickets)
    requires forall k :: k in db.tickets && db.tickets[k].tenant == b ==> k in tickets
    modifies mem
    ensures old(mem.failNext) == {} ==> ok
    ensures Confined(mem.cs, b, old(mem.State()), mem.State())
    ensures var most := |Mine(db.rules, RuleOwner, b)| +
                        |Mine(db.tags, TagOwner, b)| + |Mine(db.mailboxes, MailboxOwner, b)|;
            n <= most && (ok ==> n == most && Of(mem.State(), b) == NOTHING)
  {
    hide V.Valid, Of, Confined, WipeTickets, WipeRules, WipeTags, WipeMailboxes, Mine;
    TicketsWiped(db, b, tickets);
    ghost var db1 := mem.State();
    var rules, tags, mailboxes, more;
    n, ok, rules := WipeListedRules(mem, b);
    ghost var db2 := mem.State();
    Chain(mem.cs, b, db1, db1, db2);
    if !ok { return; }
    more, ok, tags := WipeListedTags(mem, b);
    n := n + more;
    ghost var db3 := mem.State();
    Chain(mem.cs, b, db1, db2, db3);
    if !ok { return; }
    more, ok, mailboxes := WipeListedMailboxes(mem, b);
    n := n + more;
    Chain(mem.cs, b, db1, db3, mem.State());
    if ok { WipeEmpties(mem.cs, db, b, Inventory(tickets, rules, tags, mailboxes)); }
  }
}
