/** Event stream ids and the in-process stream client (internal/stream/client.go). */
module Stream {
  import opened Places

  // ------------------------------------------------------------------ decimal text

  const MAX_INT64: int := 0x7FFF_FFFF_FFFF_FFFF
  const MIN_INT64: int := -0x8000_0000_0000_0000

  predicate InRange(n: int) { MIN_INT64 <= n <= MAX_INT64 }

  function DigitOf(d: int): char
    requires 0 <= d < 10
  {
    ('0' as int + d) as char
  }

  function FormatNat(n: nat): string {
    if n < 10 then [DigitOf(n)] else FormatNat(n / 10) + [DigitOf(n % 10)]
  }

  function FormatInt(n: int): string { if n < 0 then "-" + FormatNat(-n) else FormatNat(n) }

  datatype Reading = Reading(value: int, ok: bool)

  /** Digits read so far: their value, more than 64 bits hold, or not a number. */
  datatype Scan = Value(n: nat) | Overflow | Malformed

  const MAX_UINT64: int := 0xFFFF_FFFF_FFFF_FFFF

  /** From the left; whichever comes first of a wrong character and an overflow decides. */
  function ParseDigits(s: string): Scan {
    if s == "" then Malformed
    else
      var c := s[|s| - 1];
      var front := if |s| == 1 then Value(0) else ParseDigits(s[..|s| - 1]);
      if !front.Value? then front
      else if !('0' <= c <= '9') then Malformed
      else
        var n := front.n * 10 + (c as int - '0' as int);
        if n > MAX_UINT64 then Overflow else Value(n)
  }

  /** strconv.ParseInt in base 10: zero for malformed text, the nearest bound when out of range. */
  function ParseInt(s: string): Reading {
    if s == "" then Reading(0, false)
    else
      var d := ParseDigits(if s[0] == '-' || s[0] == '+' then s[1..] else s);
      if d.Malformed? then Reading(0, false)
      else if s[0] == '-' then
        if d.Overflow? || d.n > -MIN_INT64 then Reading(MIN_INT64, false) else Reading(0 - d.n, true)
      else if d.Overflow? || d.n > MAX_INT64 then Reading(MAX_INT64, false)
      else Reading(d.n, true)
  }

  lemma {:induction false} FormatNatReads(n: nat)
    ensures FormatNat(n) != "" && '0' <= FormatNat(n)[0] <= '9' && '-' !in FormatNat(n)
    ensures n <= MAX_UINT64 ==> ParseDigits(FormatNat(n)) == Value(n)
  {
    if n >= 10 {
      FormatNatReads(n / 10);
      var s := FormatNat(n);
      assert s[..|s| - 1] == FormatNat(n / 10);
      assert s[0] == FormatNat(n / 10)[0];
    }
  }

  lemma FormatIntReads(n: int)
    requires InRange(n)
    ensures FormatInt(n) != "" && ParseInt(FormatInt(n)) == Reading(n, true)
  {
    FormatNatReads(if n < 0 then -n else n);
    if n < 0 { assert FormatInt(n)[1..] == FormatNat(-n); }
  }

  // ------------------------------------------------------------------- stream ids

  function Id(ms: int, n: int): string { FormatInt(ms) + "-" + FormatInt(n) }

  /** What comes before and after the first dash. */
  function Cut(s: string): (string, string, bool) {
    if s == "" then ("", "", false)
    else if s[0] == '-' then ("", s[1..], true)
    else
      var (a, b, found) := Cut(s[1..]);
      ([s[0]] + a, b, found)
  }

  datatype Parts = Parts(ms: int, n: int, ok: bool)

  function ParseId(id: string): Parts {
    var (a, b, found) := Cut(id);
    if !found then Parts(0, 0, false)
    else
      var ms, n := ParseInt(a), ParseInt(b);
      Parts(ms.value, n.value, ms.ok && n.ok)
  }

  predicate Less(a: string, b: string) {
    var x, y := ParseId(a), ParseId(b);
    if x.ms != y.ms then x.ms < y.ms else x.n < y.n
  }

  lemma {:induction false} CutAtDash(a: string, b: string)
    requires '-' !in a
    ensures Cut(a + "-" + b) == (a, b, true)
  {
    if a == "" {
      assert a + "-" + b == "-" + b && ("-" + b)[1..] == b;
    } else {
      CutAtDash(a[1..], b);
      assert (a + "-" + b)[1..] == a[1..] + "-" + b;
      assert [a[0]] + a[1..] == a;
    }
  }

  /** An id reads back as its parts exactly when its millisecond part is not negative. */
  lemma IdReadsBack(ms: int, n: int)
    requires InRange(ms) && InRange(n)
    ensures ParseId(Id(ms, n)) == Parts(ms, n, true) <==> 0 <= ms
  {
    if 0 <= ms {
      FormatIntReads(ms);
      FormatIntReads(n);
      FormatNatReads(ms);
      CutAtDash(FormatInt(ms), FormatInt(n));
      hide ParseInt, Cut, FormatInt;
    } else {
      NegativeId(ms, n);
    }
  }

  lemma NegativeId(ms: int, n: int)
    requires ms < 0
    ensures !ParseId(Id(ms, n)).ok
  {
    hide FormatNat;
    assert Id(ms, n)[0] == FormatInt(ms)[0] == '-';
  }

  lemma IdOrder(ms: int, n: int, ms': int, n': int)
    requires 0 <= ms <= MAX_INT64 && 0 <= ms' <= MAX_INT64 && InRange(n) && InRange(n')
    ensures Less(Id(ms, n), Id(ms', n')) <==> ms < ms' || (ms == ms' && n < n')
    ensures Id(ms, n) != ""
  {
    hide ParseId, Id;
    IdReadsBack(ms, n);
    IdReadsBack(ms', n');
    IdNotEmpty(ms, n);
  }

  lemma IdNotEmpty(ms: int, n: int)
    ensures Id(ms, n) != ""
  {
  }

  lemma LessIsStrict(a: string, b: string, c: string)
    ensures !Less(a, a)
    ensures Less(a, b) && Less(b, c) ==> Less(a, c)
    ensures Less(a, b) ==> !Less(b, a)
  {
    hide ParseId;
  }

  // ---------------------------------------------------------------------- entries

  datatype Entry = Entry(id: string, to: string, kind: string, data: string)

  /** The newest maxLen entries. */
  function Newest(es: seq<Entry>, maxLen: int): seq<Entry> {
    if 0 < maxLen < |es| then es[|es| - maxLen..] else es
  }

  /** The entries after an id, in stream order. */
  function After(es: seq<Entry>, id: string): seq<Entry> {
    if es == [] then []
    else
      var e := es[|es| - 1];
      After(es[..|es| - 1], id) + (if id == "" || Less(id, e.id) then [e] else [])
  }

  function First(es: seq<Entry>, count: int): seq<Entry> { if 0 < count < |es| then es[..count] else es }

  /** The entries not older than an id. */
  function Kept(es: seq<Entry>, minId: string): seq<Entry> {
    if es == [] then []
    else
      var e := es[|es| - 1];
      Kept(es[..|es| - 1], minId) + (if Less(e.id, minId) then [] else [e])
  }

  function Later(es: seq<Entry>, id: string): nat -> bool {
    (i: nat) => i < |es| && (id == "" || Less(id, es[i].id))
  }

  function NotOlder(es: seq<Entry>, minId: string): nat -> bool { (i: nat) => i < |es| && !Less(es[i].id, minId) }

  /** The entries at the marked places, all of them and in order. */
  ghost predicate Picks(es: seq<Entry>, part: seq<Entry>, holds: nat -> bool) {
    exists at: seq<nat> ::
      Marks(at, |es|, holds) && |part| == |at| && forall x :: 0 <= x < |at| ==> part[x] == es[at[x]]
  }

  lemma {:induction false} AfterAt(es: seq<Entry>, id: string) returns (at: seq<nat>)
    ensures Marks(at, |es|, Later(es, id)) && |After(es, id)| == |at|
    ensures forall x :: 0 <= x < |at| ==> After(es, id)[x] == es[at[x]]
  {
    hide Less;
    if es == [] {
      at := [];
    } else {
      var n := |es| - 1;
      var before := AfterAt(es[..n], id);
      at := Marked(before, n, id == "" || Less(id, es[n].id));
      OneMorePlace(before, n, Later(es[..n], id), Later(es, id));
      hide Marks;
      assert forall x :: 0 <= x < |before| ==> es[..n][before[x]] == es[before[x]];
    }
  }

  lemma {:induction false} KeptAt(es: seq<Entry>, minId: string) returns (at: seq<nat>)
    ensures Marks(at, |es|, NotOlder(es, minId)) && |Kept(es, minId)| == |at|
    ensures forall x :: 0 <= x < |at| ==> Kept(es, minId)[x] == es[at[x]]
  {
    hide Less;
    if es == [] {
      at := [];
    } else {
      var n := |es| - 1;
      var before := KeptAt(es[..n], minId);
      at := Marked(before, n, !Less(es[n].id, minId));
      OneMorePlace(before, n, NotOlder(es[..n], minId), NotOlder(es, minId));
      hide Marks;
      assert forall x :: 0 <= x < |before| ==> es[..n][before[x]] == es[before[x]];
    }
  }

  /** The entries after an id are exactly the later ones; those kept by a trim are exactly those not older. */
  lemma PicksExactly(es: seq<Entry>, id: string)
    ensures Picks(es, After(es, id), Later(es, id)) && Picks(es, Kept(es, id), NotOlder(es, id))
  {
    var a := AfterAt(es, id);
    var b := KeptAt(es, id);
    hide Marks, After, Kept, Later, NotOlder;
  }

  ghost predicate Sorted(es: seq<Entry>) {
    (forall i :: 0 <= i < |es| ==> es[i].id != "") &&
    (forall i, j :: 0 <= i < j < |es| ==> Less(es[i].id, es[j].id))
  }

  ghost predicate Ids(es: seq<Entry>, top: int, count: int) {
    forall i :: 0 <= i < |es| ==> IsId(es[i].id, top, count)
  }

  /** An id minted at a reading up to top, as one of the first count. */
  ghost predicate IsId(id: string, top: int, count: int) {
    exists ms, n :: 0 <= ms <= top && 0 < n <= count && id == Id(ms, n)
  }

  ghost predicate From(part: seq<Entry>, es: seq<Entry>) { forall i :: 0 <= i < |part| ==> part[i] in es }

  lemma SortedSnoc(es: seq<Entry>, part: seq<Entry>)
    requires es != [] && Sorted(es) && Sorted(part) && From(part, es[..|es| - 1])
    ensures Sorted(part + [es[|es| - 1]]) && From(part + [es[|es| - 1]], es) && From(part, es)
  {
    hide Less;
    var n := |es| - 1;
    forall i | 0 <= i < |part| ensures Less(part[i].id, es[n].id) && part[i] in es {
      var j :| 0 <= j < n && es[..n][j] == part[i];
      assert es[j] == part[i];
    }
  }

  lemma {:induction false} AfterSorted(es: seq<Entry>, id: string)
    requires Sorted(es)
    ensures Sorted(After(es, id)) && From(After(es, id), es)
    ensures id != "" ==> forall i :: 0 <= i < |After(es, id)| ==> Less(id, After(es, id)[i].id)
  {
    hide Less, From;
    if es == [] {
      NoneFrom(es);
    } else {
      var front := es[..|es| - 1];
      AfterSorted(front, id);
      SortedSnoc(es, After(front, id));
      assert After(front, id) + [] == After(front, id);
    }
  }

  lemma NoneFrom(es: seq<Entry>)
    ensures From([], es)
  {
  }

  lemma {:induction false} KeptSorted(es: seq<Entry>, minId: string)
    requires Sorted(es)
    ensures Sorted(Kept(es, minId)) && From(Kept(es, minId), es)
  {
    hide Less, From;
    if es == [] {
      NoneFrom(es);
    } else {
      var front := es[..|es| - 1];
      KeptSorted(front, minId);
      SortedSnoc(es, Kept(front, minId));
      assert Kept(front, minId) + [] == Kept(front, minId);
    }
  }

  lemma LastIdSmaller(last: string, top: int, count: int, now: int)
    requires IsId(last, top, count)
    requires 0 <= top <= MAX_INT64 && 0 <= count < MAX_INT64 && 0 <= now <= MAX_INT64
    ensures top <= now ==> Less(last, Id(now, count + 1))
  {
    hide Less, Id;
    var ms, n :| 0 <= ms <= top && 0 < n <= count && last == Id(ms, n);
    IdOrder(ms, n, now, count + 1);
  }

  /** Appending keeps a stream in order while the clock does not go back. */
  lemma AppendSorted(es: seq<Entry>, e: Entry, top: int, count: int, now: int, maxLen: int)
    requires Sorted(es) && Ids(es, top, count)
    requires 0 <= top <= now <= MAX_INT64 && 0 <= count < MAX_INT64
    requires e.id == Id(now, count + 1)
    ensures Sorted(Newest(es + [e], maxLen)) && Ids(Newest(es + [e], maxLen), now, count + 1)
  {
    hide Less, Id, IsId;
    var all := es + [e];
    forall i | 0 <= i < |es| ensures Less(es[i].id, e.id) {
      LastIdSmaller(es[i].id, top, count, now);
    }
    IdNotEmpty(now, count + 1);
    forall i | 0 <= i < |all| ensures IsId(all[i].id, now, count + 1) {
      if i < |es| { IdsGrow(es[i].id, top, count, now, count + 1); } else { IsIdOf(now, count + 1); }
    }
  }

  lemma IdsGrow(id: string, top: int, count: int, top': int, count': int)
    requires IsId(id, top, count) && top <= top' && count <= count'
    ensures IsId(id, top', count')
  {
    hide Id;
    var ms, n :| 0 <= ms <= top && 0 < n <= count && id == Id(ms, n);
    assert 0 <= ms <= top' && 0 < n <= count' && id == Id(ms, n);
  }

  lemma IsIdOf(ms: int, n: int)
    requires 0 <= ms && 0 < n
    ensures IsId(Id(ms, n), ms, n)
  {
    hide Id;
  }

  /**
   * Of two entries of any streams, the later minted is the greater exactly when the clock did not go back between
   * them.
   */
  lemma OrderedExactly(ms: int, n: int, now: int, n': int)
    requires 0 <= ms <= MAX_INT64 && 0 <= now <= MAX_INT64 && 0 <= n < n' <= MAX_INT64
    ensures Less(Id(ms, n), Id(now, n')) <==> ms <= now
  {
    hide Less, Id;
    IdOrder(ms, n, now, n');
  }

  lemma {:induction false} AfterHas(es: seq<Entry>, id: string, e: Entry)
    ensures e in After(es, id) <==> e in es && (id == "" || Less(id, e.id))
  {
    hide Less;
    if es != [] {
      AfterHas(es[..|es| - 1], id, e);
      assert es == es[..|es| - 1] + [es[|es| - 1]];
    }
  }

  /** A reader that stands at an entry is given a later one of the stream exactly when the clock did not go back. */
  lemma ReadExactly(es: seq<Entry>, e: Entry, ms: int, n: int, now: int, n': int)
    requires 0 <= ms <= MAX_INT64 && 0 <= now <= MAX_INT64 && 0 <= n < n' <= MAX_INT64
    requires e in es && e.id == Id(now, n')
    ensures e in After(es, Id(ms, n)) <==> ms <= now
  {
    hide Less, Id;
    IdNotEmpty(ms, n);
    AfterHas(es, Id(ms, n), e);
    OrderedExactly(ms, n, now, n');
  }

  // --------------------------------------------------------------------- the client

  class Memory {
    var streams: map<string, seq<Entry>>
    var count: int
    var down: bool

    constructor ()
      ensures streams == map[] && count == 0 && !down
    {
      streams, count, down := map[], 0, false;
    }

    function Of(key: string): seq<Entry>
      reads this
    {
      if key in streams then streams[key] else []
    }

    /** None is an outage. */
    method XAdd(key: string, to: string, kind: string, data: string, maxLen: int, now: int)
      returns (id: string, ok: bool)
      modifies this`streams, this`count
      ensures ok == !down
      ensures !ok ==> streams == old(streams) && count == old(count)
      ensures ok ==> count == old(count) + 1 && id == Id(now, count)
      ensures ok ==> streams == old(streams)[key := Newest(old(Of(key)) + [Entry(id, to, kind, data)], maxLen)]
      ensures ok ==>
                var all, es := old(Of(key)) + [Entry(id, to, kind, data)], Of(key);
                |es| == (if 0 < maxLen < |all| then maxLen else |all|) && es == all[|all| - |es|..] &&
                forall k :: k in old(streams) && k != key ==> k in streams && streams[k] == old(streams)[k]
    {
      if down { return "", false; }
      count := count + 1;
      id := Id(now, count);
      var es := Of(key) + [Entry(id, to, kind, data)];
      if maxLen > 0 && |es| > maxLen { es := es[|es| - maxLen..]; }
      streams := streams[key := es];
      ok := true;
    }

    method EntriesAfter(key: string, afterId: string, limit: int) returns (out: seq<Entry>)
      ensures out == First(After(Of(key), afterId), limit)
      ensures exists all :: Picks(Of(key), all, Later(Of(key), afterId)) && out <= all &&
                            |out| == if 0 < limit < |all| then limit else |all|
    {
      PicksExactly(Of(key), afterId);
      hide Picks, Less;
      var es := Of(key);
      out := [];
      var i := 0;
      while i < |es|
        invariant 0 <= i <= |es|
        invariant out == After(es[..i], afterId)
        invariant limit > 0 ==> |out| < limit
      {
        assert es[..i + 1][..i] == es[..i];
        if afterId == "" || Less(afterId, es[i].id) {
          out := out + [es[i]];
          if limit > 0 && |out| == limit {
            AfterPrefix(es, i + 1, afterId);
            return;
          }
        }
        i := i + 1;
      }
      assert es[..i] == es;
    }

    method XLast(key: string) returns (id: string, ok: bool)
      ensures ok == !down
      ensures ok ==> id == if Of(key) == [] then "" else Of(key)[|Of(key)| - 1].id
    {
      if down { return "", false; }
      var es := Of(key);
      id := if es == [] then "" else es[|es| - 1].id;
      ok := true;
    }

    method XTrimMinID(key: string, minId: string) returns (ok: bool)
      modifies this`streams
      ensures ok == !down
      ensures streams == if ok then old(streams)[key := Kept(old(Of(key)), minId)] else old(streams)
      ensures ok ==> Picks(old(Of(key)), Of(key), NotOlder(old(Of(key)), minId))
    {
      PicksExactly(Of(key), minId);
      hide Picks;
      if down { return false; }
      var es := Of(key);
      var keep: seq<Entry> := [];
      var i := 0;
      while i < |es|
        invariant 0 <= i <= |es|
        invariant keep == Kept(es[..i], minId)
        modifies {}
      {
        assert es[..i + 1][..i] == es[..i];
        if !Less(es[i].id, minId) { keep := keep + [es[i]]; }
        i := i + 1;
      }
      assert es[..i] == es;
      streams := streams[key := keep];
      ok := true;
    }
  }

  lemma {:induction false} AfterPrefix(es: seq<Entry>, n: nat, id: string)
    requires n <= |es|
    ensures After(es[..n], id) <= After(es, id)
    decreases |es| - n
  {
    hide Less;
    if n < |es| {
      AfterPrefix(es, n + 1, id);
      assert es[..n + 1][..n] == es[..n];
    } else {
      assert es[..n] == es;
    }
  }
}
