/**
 * The sort orders of the store's listings: composite keys compared component by component, a stable
 * sort, and the fact that a strictly sorted listing is determined by the rows it lists.
 */
module Listing {
  import opened Rows
  import Text

  datatype Part = Num(n: int) | Str(s: string)
  type Key = seq<Part>

  // The listing order of each table.
  function TagKey(cs: Text.Casing): Tag -> Key { (t: Tag) => [Str(t.kind), Str(cs.lower(t.name)), Str(t.id)] }
  function MailboxKey(m: Mailbox): Key { [Str(m.address)] }
  function RuleKey(r: Rule): Key { [Num(r.sortOrder), Str(r.name), Str(r.id)] }
  function TicketKey(t: Ticket): Key { [Str(t.id)] }
  function LinkKey(l: TagLink): Key { [Str(l.ticket), Str(l.tag)] }
  function CommentKey(c: Comment): Key { [Num(c.createdAt), Str(c.id)] }
  function HistoryKey(h: History): Key { [Num(h.createdAt), Str(h.id)] }
  function AttachmentKeyOf(a: Attachment): Key { [Str(a.id)] }

  predicate PartLess(a: Part, b: Part) {
    match (a, b)
    case (Num(m), Num(n)) => m < n
    case (Str(s), Str(t)) => Text.Less(s, t)
    case (Num(_), Str(_)) => true
    case (Str(_), Num(_)) => false
  }

  predicate KeyLess(a: Key, b: Key) {
    if b == [] then false
    else if a == [] then true
    else if a[0] != b[0] then PartLess(a[0], b[0])
    else KeyLess(a[1..], b[1..])
  }

  /** What comes first: the smaller first part, and of equal first parts the one with the smaller second, and so on. */
  lemma KeyOrder(a: Part, a': Part, b: Part, b': Part, c: Part, c': Part)
    ensures KeyLess([a], [a']) <==> PartLess(a, a')
    ensures KeyLess([a, b], [a', b']) <==> PartLess(a, a') || (a == a' && PartLess(b, b'))
    ensures KeyLess([a, b, c], [a', b', c']) <==>
            PartLess(a, a') || (a == a' && (PartLess(b, b') || (b == b' && PartLess(c, c'))))
  {
    NotBelowItself(a);
    NotBelowItself(b);
    NotBelowItself(c);
    assert !KeyLess([], []);
    KeyStep(a, [], a', []);
    KeyStep(b, [], b', []);
    KeyStep(c, [], c', []);
    KeyStep(a, [b], a', [b']);
    KeyStep(b, [c], b', [c']);
    KeyStep(a, [b, c], a', [b', c']);
  }

  lemma KeyStep(a: Part, p: Key, a': Part, p': Key)
    ensures KeyLess([a] + p, [a'] + p') <==> if a != a' then PartLess(a, a') else KeyLess(p, p')
    ensures |p| == 0 ==> [a] + p == [a]
    ensures |p| == 1 ==> [a] + p == [a, p[0]]
    ensures |p| == 2 ==> [a] + p == [a, p[0], p[1]]
    ensures |p'| == 0 ==> [a'] + p' == [a']
    ensures |p'| == 1 ==> [a'] + p' == [a', p'[0]]
    ensures |p'| == 2 ==> [a'] + p' == [a', p'[0], p'[1]]
  {
    assert ([a] + p)[1..] == p && ([a'] + p')[1..] == p';
  }

  lemma NotBelowItself(a: Part)
    ensures !PartLess(a, a)
  {
    if a.Str? { Text.LessIsStrict(a.s, a.s); }
  }

  /** The listing order of each table, in the tables' own terms. */
  lemma ListingOrders(cs: Text.Casing, t: Tag, t': Tag, r: Rule, r': Rule, c: Comment, c': Comment, h: History,
                      h': History)
    ensures KeyLess(TagKey(cs)(t), TagKey(cs)(t')) <==>
            Text.Less(t.kind, t'.kind) ||
            (t.kind == t'.kind &&
             (Text.Less(cs.lower(t.name), cs.lower(t'.name)) ||
              (cs.lower(t.name) == cs.lower(t'.name) && Text.Less(t.id, t'.id))))
    ensures KeyLess(RuleKey(r), RuleKey(r')) <==>
            r.sortOrder < r'.sortOrder ||
            (r.sortOrder == r'.sortOrder &&
             (Text.Less(r.name, r'.name) || (r.name == r'.name && Text.Less(r.id, r'.id))))
    ensures KeyLess(CommentKey(c), CommentKey(c')) <==>
            c.createdAt < c'.createdAt || (c.createdAt == c'.createdAt && Text.Less(c.id, c'.id))
    ensures KeyLess(HistoryKey(h), HistoryKey(h')) <==>
            h.createdAt < h'.createdAt || (h.createdAt == h'.createdAt && Text.Less(h.id, h'.id))
  {
    hide KeyLess;
    var z := Num(0);
    KeyOrder(Str(t.kind), Str(t'.kind), Str(cs.lower(t.name)), Str(cs.lower(t'.name)), Str(t.id), Str(t'.id));
    KeyOrder(Num(r.sortOrder), Num(r'.sortOrder), Str(r.name), Str(r'.name), Str(r.id), Str(r'.id));
    KeyOrder(Num(c.createdAt), Num(c'.createdAt), Str(c.id), Str(c'.id), z, z);
    KeyOrder(Num(h.createdAt), Num(h'.createdAt), Str(h.id), Str(h'.id), z, z);
  }

  lemma {:induction false} KeyLessIsStrict(a: Key, b: Key)
    ensures !(KeyLess(a, b) && KeyLess(b, a))
    ensures a != b ==> KeyLess(a, b) || KeyLess(b, a)
    ensures a == b ==> !KeyLess(a, b)
  {
    if a != [] && b != [] {
      if a[0] == b[0] {
        KeyLessIsStrict(a[1..], b[1..]);
        assert a == [a[0]] + a[1..] && b == [b[0]] + b[1..];
      } else if a[0].Str? && b[0].Str? {
        Text.LessIsStrict(a[0].s, b[0].s);
      }
    }
  }

  lemma {:induction false} KeyLessIsTransitive(a: Key, b: Key, c: Key)
    requires KeyLess(a, b) && KeyLess(b, c)
    ensures KeyLess(a, c)
  {
    if a != [] {
      if a[0] == b[0] && b[0] == c[0] {
        KeyLessIsTransitive(a[1..], b[1..], c[1..]);
      } else if a[0] != b[0] && b[0] != c[0] && a[0].Str? && b[0].Str? && c[0].Str? {
        Text.LessIsTransitive(a[0].s, b[0].s, c[0].s);
        Text.LessIsStrict(a[0].s, c[0].s);
      }
    }
  }

  ghost predicate Sorted<T(!new)>(xs: seq<T>, key: T -> Key) {
    forall i, j :: 0 <= i < j < |xs| ==> !KeyLess(key(xs[j]), key(xs[i]))
  }

  ghost predicate Ascending<T(!new)>(xs: seq<T>, key: T -> Key) {
    forall i, j :: 0 <= i < j < |xs| ==> KeyLess(key(xs[i]), key(xs[j]))
  }

  /** xs lists exactly rows, each once, in ascending key order. */
  ghost predicate Lists<T(!new)>(xs: seq<T>, rows: set<T>, key: T -> Key) {
    Ascending(xs, key) && (set x | x in xs) == rows
  }

  /** A listing is determined by what it lists. */
  lemma {:induction false} ListsUnique<T(!new)>(xs: seq<T>, ys: seq<T>, rows: set<T>, key: T -> Key)
    requires Lists(xs, rows, key) && Lists(ys, rows, key)
    ensures xs == ys
    decreases |xs|
  {
    assert xs != [] ==> xs[0] in rows;
    assert ys != [] ==> ys[0] in rows;
    if xs != [] {
      var x, y := xs[|xs| - 1], ys[|ys| - 1];
      LastIsGreatest(xs, rows, key, y);
      LastIsGreatest(ys, rows, key, x);
      KeyLessIsStrict(key(x), key(y));
      ListsButLast(xs, rows, key);
      ListsButLast(ys, rows, key);
      ListsUnique(xs[..|xs| - 1], ys[..|ys| - 1], rows - {x}, key);
      assert xs == xs[..|xs| - 1] + [x] && ys == ys[..|ys| - 1] + [y];
    }
  }

  lemma LastIsGreatest<T(!new)>(xs: seq<T>, rows: set<T>, key: T -> Key, r: T)
    requires Lists(xs, rows, key) && r in rows
    ensures xs != [] && (r == xs[|xs| - 1] || KeyLess(key(r), key(xs[|xs| - 1])))
  {
    assert r in xs;
  }

  lemma ListsButLast<T(!new)>(xs: seq<T>, rows: set<T>, key: T -> Key)
    requires Lists(xs, rows, key) && xs != []
    ensures Lists(xs[..|xs| - 1], rows - {xs[|xs| - 1]}, key)
  {
    var n := |xs| - 1;
    KeyLessIsStrict(key(xs[n]), key(xs[n]));
    assert forall i :: 0 <= i < n ==> xs[i] != xs[n];
    assert xs == xs[..n] + [xs[n]];
    assert forall x :: x in xs[..n] <==> x in rows && x != xs[n];
  }

  // ------------------------------------------------------------- stable sort

  function Insert<T>(xs: seq<T>, x: T, key: T -> Key): seq<T> {
    if xs != [] && KeyLess(key(x), key(xs[|xs| - 1])) then Insert(xs[..|xs| - 1], x, key) + [xs[|xs| - 1]]
    else xs + [x]
  }

  function SortBy<T>(xs: seq<T>, key: T -> Key): seq<T> {
    if xs == [] then [] else Insert(SortBy(xs[..|xs| - 1], key), xs[|xs| - 1], key)
  }

  lemma {:induction false} InsertSorts<T(!new)>(xs: seq<T>, x: T, key: T -> Key)
    requires Sorted(xs, key)
    ensures Sorted(Insert(xs, x, key), key) && multiset(Insert(xs, x, key)) == multiset(xs) + multiset{x}
    decreases |xs|
  {
    if xs != [] && KeyLess(key(x), key(xs[|xs| - 1])) {
      var front, last := xs[..|xs| - 1], xs[|xs| - 1];
      assert xs == front + [last];
      InsertSorts(front, x, key);
      SortedSnoc(xs, Insert(front, x, key), x, key);
    } else if xs != [] {
      NotBelow(xs, x, key);
    }
  }

  lemma SortedSnoc<T(!new)>(xs: seq<T>, ys: seq<T>, x: T, key: T -> Key)
    requires xs != [] && Sorted(xs, key) && Sorted(ys, key) && KeyLess(key(x), key(xs[|xs| - 1]))
    requires multiset(ys) == multiset(xs[..|xs| - 1]) + multiset{x}
    ensures Sorted(ys + [xs[|xs| - 1]], key)
  {
    var front, last := xs[..|xs| - 1], xs[|xs| - 1];
    forall i | 0 <= i < |ys| ensures !KeyLess(key(last), key(ys[i])) {
      assert ys[i] in multiset(ys);
      if ys[i] == x { KeyLessIsStrict(key(x), key(last)); } else { assert ys[i] in front; }
    }
  }

  lemma NotBelow<T(!new)>(xs: seq<T>, x: T, key: T -> Key)
    requires xs != [] && Sorted(xs, key) && !KeyLess(key(x), key(xs[|xs| - 1]))
    ensures forall i :: 0 <= i < |xs| ==> !KeyLess(key(x), key(xs[i]))
  {
    var last := xs[|xs| - 1];
    forall i | 0 <= i < |xs| ensures !KeyLess(key(x), key(xs[i])) {
      if KeyLess(key(x), key(xs[i])) {
        KeyLessIsStrict(key(xs[i]), key(last));
        if key(xs[i]) != key(last) { KeyLessIsTransitive(key(x), key(xs[i]), key(last)); }
      }
    }
  }

  lemma {:induction false} SortBySorts<T(!new)>(xs: seq<T>, key: T -> Key)
    ensures Sorted(SortBy(xs, key), key) && multiset(SortBy(xs, key)) == multiset(xs)
  {
    if xs != [] {
      SortBySorts(xs[..|xs| - 1], key);
      InsertSorts(SortBy(xs[..|xs| - 1], key), xs[|xs| - 1], key);
      assert xs == xs[..|xs| - 1] + [xs[|xs| - 1]];
    }
  }

  /** Stability in the form the listings need: what is in order stays as it is. */
  lemma {:induction false} SortBySorted<T(!new)>(xs: seq<T>, key: T -> Key)
    requires Sorted(xs, key)
    ensures SortBy(xs, key) == xs
  {
    hide Insert, KeyLess;
    if xs != [] {
      var front, last := xs[..|xs| - 1], xs[|xs| - 1];
      assert Sorted(front, key) by {
        forall i, j | 0 <= i < j < |front| ensures !KeyLess(key(front[j]), key(front[i])) {
          assert front[i] == xs[i] && front[j] == xs[j];
        }
      }
      SortBySorted(front, key);
      if front != [] { assert !KeyLess(key(xs[|xs| - 1]), key(xs[|front| - 1])); }
      InsertLast(front, last, key);
      assert xs == front + [last];
    }
  }

  lemma InsertLast<T>(xs: seq<T>, x: T, key: T -> Key)
    requires xs == [] || !KeyLess(key(x), key(xs[|xs| - 1]))
    ensures Insert(xs, x, key) == xs + [x]
  {
  }
}
