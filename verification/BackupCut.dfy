/** The part of a document that an import has loaded when a store call fails (internal/backup/backup.go). */
module BackupCut {
  import opened Rows
  import opened Backup
  import S = Store
  import BackupRepeat
  import opened Places

  /** The order in which the collections are loaded. */
  function Rank(c: Collection): nat {
    match c
    case CTags => 0
    case CMailboxes => 1
    case CRules => 2
    case CTickets => 3
    case CTagLinks => 4
    case CComments => 5
    case CHistory => 6
    case CAttachments => 7
  }

  /** The rows of a collection before row k of collection at. */
  function Before<T>(rows: seq<T>, c: Collection, at: Collection, k: nat): seq<T> {
    if Rank(c) < Rank(at) then rows else if c == at then rows[..if k <= |rows| then k else |rows|] else []
  }

  /** The links of some tickets. */
  function LinksOf(rows: seq<TagLink>, ids: seq<string>): seq<TagLink> {
    if rows == [] then []
    else
      var before, last := LinksOf(rows[..|rows| - 1], ids), rows[|rows| - 1];
      if last.ticket in ids then before + [last] else before
  }

  /** The document before row k of collection at; links are loaded ticket by ticket. */
  function Cut(d: Doc, at: Collection, k: nat): Doc {
    d.(tags := Before(d.tags, CTags, at, k), mailboxes := Before(d.mailboxes, CMailboxes, at, k),
       rules := Before(d.rules, CRules, at, k), tickets := Before(d.tickets, CTickets, at, k),
       links := LinksOf(d.links, Before(Order(d.links), CTagLinks, at, k)),
       comments := Before(d.comments, CComments, at, k), history := Before(d.history, CHistory, at, k),
       attachments := Before(d.attachments, CAttachments, at, k))
  }

  // ----------------------------------------------------------- links by their places

  function FirstFor(rows: seq<TagLink>): nat -> bool {
    (i: nat) => i < |rows| && forall k :: 0 <= k < i ==> rows[k].ticket != rows[i].ticket
  }

  /** The tickets of the links, each once, in order of first mention. */
  ghost predicate Mentions(rows: seq<TagLink>, order: seq<string>) {
    exists at: seq<nat> :: Marks(at, |rows|, FirstFor(rows)) && |order| == |at| &&
                           forall x :: 0 <= x < |at| ==> order[x] == rows[at[x]].ticket
  }

  function LinkOf(rows: seq<TagLink>, ticket: string): nat -> bool {
    (i: nat) => i < |rows| && rows[i].ticket == ticket
  }

  /** The tags of a ticket's links, in the order of the document. */
  ghost predicate TagsNamed(rows: seq<TagLink>, ticket: string, tags: seq<string>) {
    exists at: seq<nat> :: Marks(at, |rows|, LinkOf(rows, ticket)) && |tags| == |at| &&
                           forall x :: 0 <= x < |at| ==> tags[x] == rows[at[x]].tag
  }

  function NewTag(linked: set<string>, tags: seq<string>): nat -> bool {
    (i: nat) => i < |tags| && tags[i] !in linked && tags[i] !in tags[..i]
  }

  /** The tags that are not linked yet, each where it is first named. */
  ghost predicate AddsEach(linked: set<string>, tags: seq<string>, add: seq<string>) {
    exists at: seq<nat> :: Marks(at, |tags|, NewTag(linked, tags)) && |add| == |at| &&
                           forall x :: 0 <= x < |at| ==> add[x] == tags[at[x]]
  }

  lemma {:induction false} OrderAt(rows: seq<TagLink>) returns (at: seq<nat>)
    ensures Marks(at, |rows|, FirstFor(rows)) && |Order(rows)| == |at|
    ensures forall x :: 0 <= x < |at| ==> Order(rows)[x] == rows[at[x]].ticket
  {
    if rows == [] {
      at := [];
    } else {
      var n := |rows| - 1;
      var before := OrderAt(rows[..n]);
      OrderHas(rows[..n], rows[n].ticket);
      assert forall i :: 0 <= i < n ==> rows[..n][i] == rows[i];
      assert FirstFor(rows)(n) <==> rows[n].ticket !in Order(rows[..n]);
      at := Marked(before, n, FirstFor(rows)(n));
      OneMorePlace(before, n, FirstFor(rows[..n]), FirstFor(rows));
      hide Marks, FirstFor;
    }
  }

  lemma {:induction false} OrderHas(rows: seq<TagLink>, t: string)
    ensures t in Order(rows) <==> exists i :: 0 <= i < |rows| && rows[i].ticket == t
  {
    if rows != [] {
      var n := |rows| - 1;
      OrderHas(rows[..n], t);
      assert forall i :: 0 <= i < n ==> rows[..n][i] == rows[i];
    }
  }

  lemma {:induction false} TagsForAt(rows: seq<TagLink>, ticket: string) returns (at: seq<nat>)
    ensures Marks(at, |rows|, LinkOf(rows, ticket)) && |TagsFor(rows, ticket)| == |at|
    ensures forall x :: 0 <= x < |at| ==> TagsFor(rows, ticket)[x] == rows[at[x]].tag
  {
    if rows == [] {
      at := [];
    } else {
      var n := |rows| - 1;
      var before := TagsForAt(rows[..n], ticket);
      var front, all := TagsFor(rows[..n], ticket), TagsFor(rows, ticket);
      assert all == if rows[n].ticket == ticket then front + [rows[n].tag] else front;
      hide TagsFor;
      at := Marked(before, n, rows[n].ticket == ticket);
      OneMorePlace(before, n, LinkOf(rows[..n], ticket), LinkOf(rows, ticket));
      hide Marks, LinkOf;
      assert forall x :: 0 <= x < |before| ==> rows[..n][before[x]] == rows[before[x]];
    }
  }

  lemma {:induction false} UnlinkedAt(linked: set<string>, tags: seq<string>) returns (at: seq<nat>)
    ensures Marks(at, |tags|, NewTag(linked, tags)) && |Unlinked(linked, tags)| == |at|
    ensures forall x :: 0 <= x < |at| ==> Unlinked(linked, tags)[x] == tags[at[x]]
  {
    if tags == [] {
      at := [];
    } else {
      var n := |tags| - 1;
      var before := UnlinkedAt(linked, tags[..n]);
      BackupRepeat.UnlinkedIs(linked, tags[..n]);
      assert forall i :: 0 <= i < n ==> tags[..n][i] == tags[i] && tags[..n][..i] == tags[..i];
      at := Marked(before, n, NewTag(linked, tags)(n));
      OneMorePlace(before, n, NewTag(linked, tags[..n]), NewTag(linked, tags));
      hide Marks;
    }
  }

  lemma GroupsExactly(rows: seq<TagLink>)
    ensures Mentions(rows, Order(rows)) && forall t :: TagsNamed(rows, t, TagsFor(rows, t))
  {
    var at := OrderAt(rows);
    forall t ensures TagsNamed(rows, t, TagsFor(rows, t)) { var _ := TagsForAt(rows, t); }
    hide Marks, Order, TagsFor;
  }

  lemma AddsExactly(linked: set<string>, tags: seq<string>)
    ensures AddsEach(linked, tags, Unlinked(linked, tags))
  {
    var at := UnlinkedAt(linked, tags);
    hide Marks, Unlinked;
  }

  /** The ids of a list that are in another, in order. */
  function Among(ids: seq<string>, some: seq<string>): seq<string> {
    if ids == [] then []
    else
      var before, last := Among(ids[..|ids| - 1], some), ids[|ids| - 1];
      if last in some then before + [last] else before
  }

  lemma {:induction false} AmongHas(ids: seq<string>, some: seq<string>)
    ensures forall x :: x in Among(ids, some) <==> x in ids && x in some
  {
    if ids != [] {
      AmongHas(ids[..|ids| - 1], some);
      assert ids == ids[..|ids| - 1] + [ids[|ids| - 1]];
    }
  }

  lemma {:induction false} OrderAmong(rows: seq<TagLink>, ids: seq<string>)
    ensures Order(LinksOf(rows, ids)) == Among(Order(rows), ids)
    ensures forall t :: t in ids ==> TagsFor(LinksOf(rows, ids), t) == TagsFor(rows, t)
  {
    if rows != [] {
      var n := |rows| - 1;
      OrderAmong(rows[..n], ids);
      AmongHas(Order(rows[..n]), ids);
      var part, t := LinksOf(rows[..n], ids), rows[n].ticket;
      if t in ids { assert (part + [rows[n]])[..|part|] == part; }
      if t !in Order(rows[..n]) {
        assert (Order(rows[..n]) + [t])[..|Order(rows[..n])|] == Order(rows[..n]);
      }
    }
  }

  /** The first k of distinct ids are those among the first k. */
  lemma {:induction false} AmongFirst(ids: seq<string>, k: nat)
    requires k <= |ids| && BackupRepeat.Distinct(ids)
    ensures Among(ids, ids[..k]) == ids[..k]
    decreases |ids|
  {
    if ids != [] {
      var n := |ids| - 1;
      if k <= n {
        assert ids[..n][..k] == ids[..k];
        AmongFirst(ids[..n], k);
        assert ids[n] !in ids[..k];
      } else {
        AmongAll(ids, ids);
        assert ids[..k] == ids;
      }
    }
  }

  lemma {:induction false} AmongAll(ids: seq<string>, some: seq<string>)
    requires forall x :: x in ids ==> x in some
    ensures Among(ids, some) == ids
  {
    if ids != [] {
      var n := |ids| - 1;
      assert forall x :: x in ids[..n] ==> x in ids;
      AmongAll(ids[..n], some);
      assert ids[n] in ids && ids == ids[..n] + [ids[n]];
    }
  }

  lemma {:induction false} SameLinkRows(target: string, s: S.Db, rows: seq<TagLink>, some: seq<TagLink>,
                                        ids: seq<string>)
    requires forall t :: t in ids ==> TagsFor(some, t) == TagsFor(rows, t)
    ensures LinkRows(target, s, some, ids) == LinkRows(target, s, rows, ids)
  {
    hide LinkRow, TagsFor;
    if ids != [] {
      var n := |ids| - 1;
      assert ids[n] in ids && forall t :: t in ids[..n] ==> t in ids;
      SameLinkRows(target, s, rows, some, ids[..n]);
    }
  }

  /** Loading the first k tickets' links is loading the document of those links. */
  lemma FirstLinks(j: Job, s: S.Db, rows: seq<TagLink>, k: nat)
    requires k <= |Order(rows)|
    ensures Links(j, s, LinksOf(rows, Order(rows)[..k])) == LinkRows(j.target, s, rows, Order(rows)[..k])
  {
    hide Order, LinksOf, Among, TagsFor, LinkRows;
    var ids := Order(rows)[..k];
    BackupRepeat.OrderDistinct(rows);
    OrderAmong(rows, ids);
    AmongFirst(Order(rows), k);
    SameLinkRows(j.target, s, rows, LinksOf(rows, ids), ids);
  }

  lemma {:induction false} AllLinks(rows: seq<TagLink>, ids: seq<string>)
    requires forall i :: 0 <= i < |rows| ==> rows[i].ticket in ids
    ensures LinksOf(rows, ids) == rows
  {
    if rows != [] {
      AllLinks(rows[..|rows| - 1], ids);
    }
  }

  lemma {:induction false} NoLinksOf(rows: seq<TagLink>)
    ensures LinksOf(rows, []) == []
  {
    if rows != [] { NoLinksOf(rows[..|rows| - 1]); }
  }

  /** Once the links are loaded, none of them is cut. */
  lemma LinksWhole(rows: seq<TagLink>)
    ensures LinksOf(rows, Order(rows)) == rows
  {
    hide Order, LinksOf;
    BackupRepeat.OrderDistinct(rows);
    AllLinks(rows, Order(rows));
  }

  /** An empty collection loads nothing. */
  lemma NoRows(j: Job, s: S.Db, created: set<string>)
    ensures Tags(j, s, []) == Mailboxes(j, s, []) == Rules(j, s, []) == Tickets(j, s, []) == Start(s)
    ensures Links(j, s, []) == Comments(j, s, []) == Histories(j, s, created, []) == Attachments(j, s, []) == Start(s)
  {
  }
}
