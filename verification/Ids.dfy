/**
 * The UUIDv7 minter (section 5.7 and section 6.2, method 1, of RFC 9562): a millisecond clock and a
 * 12-bit sequence packed big-endian into sixteen bytes and printed as canonical text. Whatever the clock
 * does, the ids come out in strictly increasing text order.
 */
module Ids {
  import opened Text

  type Byte = b: int | 0 <= b < 256

  const MS_LIMIT: int := 0x1_0000_0000_0000
  const SEQ_LIMIT := 4096

  /** The package state: the last millisecond used and the sequence within it. */
  datatype Clock = Clock(last: int, seqNo: int)

  predicate Ok(c: Clock) { 0 <= c.last && 0 <= c.seqNo < SEQ_LIMIT }

  /** One mint: a reading that did not advance counts up; an exhausted sequence borrows the next millisecond. */
  function Tick(c: Clock, ms: int, rnd: seq<Byte>): Clock
    requires |rnd| == 16
  {
    if ms <= c.last then
      if c.seqNo + 1 >= SEQ_LIMIT then Clock(c.last + 1, 0) else Clock(c.last, c.seqNo + 1)
    else Clock(ms, (rnd[6] % 8) as int * 256 + rnd[7])
  }

  function Be(n: nat, u: int): seq<Byte>
    requires 0 <= u
  {
    if n == 0 then [] else Be(n - 1, u / 256) + [u % 256]
  }

  /** The layout: 48 bits of time, version 7, 12 bits of sequence, variant 10, 62 random bits. */
  function Layout(c: Clock, rnd: seq<Byte>): seq<Byte>
    requires Ok(c) && |rnd| == 16
  {
    Be(6, c.last) + [0x70 + c.seqNo / 256, c.seqNo % 256, rnd[8] % 64 + 128] + rnd[9..]
  }

  function Digit(d: int): char
    requires 0 <= d < 16
  {
    "0123456789abcdef"[d]
  }

  function Hex(bytes: seq<Byte>): string {
    if bytes == [] then "" else [Digit(bytes[0] / 16), Digit(bytes[0] % 16)] + Hex(bytes[1..])
  }

  function Canonical(h: string): string
    requires |h| == 32
  {
    h[0..8] + "-" + h[8..12] + "-" + h[12..16] + "-" + h[16..20] + "-" + h[20..32]
  }

  lemma {:induction false} HexLength(bytes: seq<Byte>)
    ensures |Hex(bytes)| == 2 * |bytes|
  {
    if bytes != [] { HexLength(bytes[1..]); }
  }

  lemma {:induction false} BeLength(n: nat, u: int)
    requires 0 <= u
    ensures |Be(n, u)| == n
  {
    if n > 0 { BeLength(n - 1, u / 256); }
  }

  function IdText(c: Clock, rnd: seq<Byte>): string
    requires Ok(c) && |rnd| == 16
  {
    BeLength(6, c.last);
    HexLength(Layout(c, rnd));
    Canonical(Hex(Layout(c, rnd)))
  }

  /** The minter as the program has it: state updated on every call, bytes packed into an array. */
  class Minter {
    var idLast: int
    var idSeq: int

    constructor ()
      ensures State() == Clock(0, 0)
    {
      idLast, idSeq := 0, 0;
    }

    function State(): Clock reads this { Clock(idLast, idSeq) }

    method NewID(now: int, rnd: seq<Byte>) returns (id: string)
      requires Ok(State()) && |rnd| == 16
      modifies this
      ensures State() == Tick(old(State()), now, rnd) && Ok(State())
      ensures id == IdText(State(), rnd) && |id| == 36
    {
      var ms := now;
      if ms <= idLast {
        ms := idLast;
        idSeq := idSeq + 1;
        if idSeq >= SEQ_LIMIT {
          ms := ms + 1;
          idLast := ms;
          idSeq := 0;
        }
      } else {
        idLast := ms;
        idSeq := (rnd[6] % 8) as int * 256 + rnd[7];
      }
      var b := Pack(ms, idSeq, rnd);
      HexLength(b);
      var h := EncodeToString(b);
      id := h[0..8] + "-" + h[8..12] + "-" + h[12..16] + "-" + h[16..20] + "-" + h[20..32];
    }
  }

  /** Time, version, sequence and variant packed over the random bytes. */
  method Pack(ms: int, seqNo: int, rnd: seq<Byte>) returns (bytes: seq<Byte>)
    requires Ok(Clock(ms, seqNo)) && |rnd| == 16
    ensures bytes == Layout(Clock(ms, seqNo), rnd) && |bytes| == 16
  {
    var b := new Byte[16](i requires 0 <= i < 16 => rnd[i]);
    b[0], b[1], b[2] := ms / 0x100_0000_0000 % 256, ms / 0x1_0000_0000 % 256, ms / 0x100_0000 % 256;
    b[3], b[4], b[5] := ms / 0x1_0000 % 256, ms / 0x100 % 256, ms % 256;
    b[6] := 0x70 + seqNo / 256 % 16;
    b[7] := seqNo % 256;
    b[8] := b[8] % 64 + 128;
    SixBytes(ms);
    hide Be;
    bytes := b[..];
    assert bytes[6..] == [0x70 + seqNo / 256, seqNo % 256, rnd[8] % 64 + 128] + rnd[9..];
    assert bytes[..6] == Be(6, ms);
    assert bytes == bytes[..6] + bytes[6..];
  }

  method EncodeToString(bytes: seq<Byte>) returns (h: string)
    ensures h == Hex(bytes)
  {
    h := "";
    for i := 0 to |bytes|
      invariant h + Hex(bytes[i..]) == Hex(bytes)
    {
      assert bytes[i..][1..] == bytes[i + 1..];
      h := h + [Digit(bytes[i] / 16), Digit(bytes[i] % 16)];
    }
  }

  lemma Shift(u: int)
    requires 0 <= u
    ensures u / 0x100 / 256 == u / 0x1_0000 && u / 0x1_0000 / 256 == u / 0x100_0000
  {
  }

  lemma ShiftMore(u: int)
    requires 0 <= u
    ensures u / 0x100_0000 / 256 == u / 0x1_0000_0000 && u / 0x1_0000_0000 / 256 == u / 0x100_0000_0000
  {
  }

  /** The shifts of the program are the big-endian digits. */
  lemma SixBytes(u: int)
    requires 0 <= u
    ensures Be(6, u) == [u / 0x100_0000_0000 % 256, u / 0x1_0000_0000 % 256, u / 0x100_0000 % 256,
                         u / 0x1_0000 % 256, u / 0x100 % 256, u % 256]
  {
    Shift(u);
    ShiftMore(u);
    BeDigits(u, u / 0x100, u / 0x1_0000, u / 0x100_0000, u / 0x1_0000_0000, u / 0x100_0000_0000);
  }

  lemma BeDigits(u: int, a: int, b: int, c: int, d: int, e: int)
    requires 0 <= u && 0 <= a && 0 <= b && 0 <= c && 0 <= d && 0 <= e
    requires a == u / 256 && b == a / 256 && c == b / 256 && d == c / 256 && e == d / 256
    ensures Be(6, u) == [e % 256, d % 256, c % 256, b % 256, a % 256, u % 256]
  {
    assert Be(1, e) == [e % 256];
    assert Be(2, d) == Be(1, e) + [d % 256];
    assert Be(3, c) == Be(2, d) + [c % 256];
    assert Be(4, b) == Be(3, c) + [b % 256];
    assert Be(5, a) == Be(4, b) + [a % 256];
  }

  // ---------------------------------------------------------------- the order

  function Pow256(n: nat): int { if n == 0 then 1 else 256 * Pow256(n - 1) }

  lemma {:induction false} BeOrder(n: nat, u: int, v: int) returns (i: nat)
    requires 0 <= u < v < Pow256(n)
    ensures i < n && |Be(n, u)| == n == |Be(n, v)| && Be(n, u)[..i] == Be(n, v)[..i] && Be(n, u)[i] < Be(n, v)[i]
  {
    BeLength(n, u);
    BeLength(n, v);
    if u / 256 == v / 256 {
      i := n - 1;
      assert Be(n, u)[..i] == Be(n - 1, u / 256) && Be(n, v)[..i] == Be(n - 1, v / 256);
    } else {
      i := BeOrder(n - 1, u / 256, v / 256);
      assert Be(n, u)[..n - 1] == Be(n - 1, u / 256) && Be(n, v)[..n - 1] == Be(n - 1, v / 256);
      assert Be(n, u)[..i] == Be(n, u)[..n - 1][..i] && Be(n, v)[..i] == Be(n, v)[..n - 1][..i];
    }
  }

  predicate Before(a: Clock, b: Clock) { a.last < b.last || (a.last == b.last && a.seqNo < b.seqNo) }

  /** Later clocks have greater leading bytes, at a position the random tail never reaches. */
  lemma LayoutOrder(a: Clock, b: Clock, r: seq<Byte>, q: seq<Byte>) returns (i: nat)
    requires Ok(a) && Ok(b) && |r| == 16 && |q| == 16 && Before(a, b) && b.last < MS_LIMIT
    ensures |Layout(a, r)| == 16 == |Layout(b, q)| && i < 8
    ensures Layout(a, r)[..i] == Layout(b, q)[..i] && Layout(a, r)[i] < Layout(b, q)[i]
  {
    BeLength(6, a.last);
    BeLength(6, b.last);
    var x, y := Layout(a, r), Layout(b, q);
    if a.last < b.last {
      assert Pow256(6) == MS_LIMIT;
      i := BeOrder(6, a.last, b.last);
      assert x[..i] == Be(6, a.last)[..i] && y[..i] == Be(6, b.last)[..i];
    } else if a.seqNo / 256 < b.seqNo / 256 {
      i := 6;
      assert x[..6] == Be(6, a.last) && y[..6] == Be(6, b.last);
    } else {
      i := 7;
      assert x[..7] == Be(6, a.last) + [0x70 + a.seqNo / 256] && y[..7] == Be(6, b.last) + [0x70 + b.seqNo / 256];
    }
  }

  lemma {:induction false} HexAt(b: seq<Byte>, k: nat)
    requires k < |b|
    ensures |Hex(b)| == 2 * |b| && Hex(b)[2 * k] == Digit(b[k] / 16) && Hex(b)[2 * k + 1] == Digit(b[k] % 16)
  {
    HexLength(b);
    if k > 0 { HexAt(b[1..], k - 1); }
  }

  lemma {:induction false} HexPrefix(a: seq<Byte>, b: seq<Byte>, k: nat)
    requires k <= |a| && k <= |b| && a[..k] == b[..k]
    ensures |Hex(a)| == 2 * |a| && |Hex(b)| == 2 * |b| && Hex(a)[..2 * k] == Hex(b)[..2 * k]
  {
    HexLength(a);
    HexLength(b);
    if k > 0 {
      assert a[0] == a[..k][0] && b[0] == b[..k][0];
      assert a[1..][..k - 1] == a[..k][1..] && b[1..][..k - 1] == b[..k][1..];
      HexPrefix(a[1..], b[1..], k - 1);
      assert Hex(a)[..2 * k] == [Digit(a[0] / 16), Digit(a[0] % 16)] + Hex(a[1..])[..2 * (k - 1)];
      assert Hex(b)[..2 * k] == [Digit(b[0] / 16), Digit(b[0] % 16)] + Hex(b[1..])[..2 * (k - 1)];
    }
  }

  lemma DigitOrder(d: int, e: int)
    requires 0 <= d < e < 16
    ensures Digit(d) < Digit(e)
  {
  }

  lemma HalvesOrder(x: Byte, y: Byte)
    requires x < y
    ensures x / 16 < y / 16 || (x / 16 == y / 16 && x % 16 < y % 16)
    ensures 0 <= x / 16 < 16 && 0 <= y / 16 < 16
  {
  }

  lemma HexOrder(a: seq<Byte>, b: seq<Byte>, k: nat) returns (i: nat)
    requires k < |a| && k < |b| && a[..k] == b[..k] && a[k] < b[k]
    ensures |Hex(a)| == 2 * |a| && |Hex(b)| == 2 * |b|
    ensures i <= 2 * k + 1 && Hex(a)[..i] == Hex(b)[..i] && Hex(a)[i] < Hex(b)[i]
  {
    HexAt(a, k);
    HexAt(b, k);
    HexPrefix(a, b, k);
    hide Hex, Digit;
    HalvesOrder(a[k], b[k]);
    if a[k] / 16 < b[k] / 16 {
      DigitOrder(a[k] / 16, b[k] / 16);
      i := 2 * k;
    } else {
      DigitOrder(a[k] % 16, b[k] % 16);
      i := 2 * k + 1;
      assert Hex(a)[..i] == Hex(a)[..2 * k] + [Hex(a)[2 * k]] && Hex(b)[..i] == Hex(b)[..2 * k] + [Hex(b)[2 * k]];
    }
  }

  lemma {:induction false} FirstDifference(a: string, b: string, i: nat)
    requires i < |a| && i < |b| && a[..i] == b[..i] && a[i] < b[i]
    ensures Less(a, b)
  {
    if i > 0 {
      assert a[0] == a[..i][0] && b[0] == b[..i][0];
      assert a[1..][..i - 1] == a[..i][1..] && b[1..][..i - 1] == b[..i][1..];
      FirstDifference(a[1..], b[1..], i - 1);
    }
  }

  lemma CanonicalAt(h: string)
    requires |h| == 32
    ensures |Canonical(h)| == 36
    ensures forall p :: 0 <= p < 18 ==>
              Canonical(h)[p] == if p < 8 then h[p]
                                 else if p == 8 || p == 13 then '-' else if p < 13 then h[p - 1] else h[p - 2]
  {
    var c := h[0..8] + "-" + h[8..12] + "-" + h[12..16];
    assert c + ("-" + h[16..20] + "-" + h[20..32]) == Canonical(h);
    assert |c| == 18;
  }

  /** The dashes sit at the same places in every id, so they do not disturb the order. */
  lemma CanonicalOrder(g: string, h: string, i: nat)
    requires |g| == 32 && |h| == 32 && i < 16 && g[..i] == h[..i] && g[i] < h[i]
    ensures Less(Canonical(g), Canonical(h))
  {
    var at := if i < 8 then i else if i < 12 then i + 1 else i + 2;
    CanonicalAt(g);
    CanonicalAt(h);
    hide Canonical;
    var x, y := Canonical(g), Canonical(h);
    forall p | 0 <= p < at ensures x[p] == y[p] { CanonicalAgrees(g, h, i, p); }
    assert x[..at] == y[..at] && x[at] == g[i] && y[at] == h[i];
    FirstDifference(x, y, at);
  }

  lemma CanonicalAgrees(g: string, h: string, i: nat, p: nat)
    requires |g| == 32 && |h| == 32 && i < 16 && g[..i] == h[..i] &&
             p < (if i < 8 then i else if i < 12 then i + 1 else i + 2)
    ensures |Canonical(g)| == |Canonical(h)| == 36 && Canonical(g)[p] == Canonical(h)[p]
  {
    CanonicalAt(g);
    CanonicalAt(h);
    hide Canonical;
    if p != 8 && p != 13 {
      var j := if p < 8 then p else if p < 13 then p - 1 else p - 2;
      assert g[..i][j] == h[..i][j];
    }
  }

  /** Ids of later clocks are greater as text, whatever the random bytes. */
  lemma LaterIsGreater(a: Clock, b: Clock, r: seq<Byte>, q: seq<Byte>)
    requires Ok(a) && Ok(b) && |r| == 16 && |q| == 16 && Before(a, b) && b.last < MS_LIMIT
    ensures Less(IdText(a, r), IdText(b, q))
  {
    var k := LayoutOrder(a, b, r, q);
    var i := HexOrder(Layout(a, r), Layout(b, q), k);
    CanonicalOrder(Hex(Layout(a, r)), Hex(Layout(b, q)), i);
  }

  // ----------------------------------------------------------------- whole runs

  /** What one call draws from outside: a clock reading and sixteen random bytes. */
  datatype Draw = Draw(ms: int, rnd: seq<Byte>)

  predicate Full(draws: seq<Draw>) { forall i :: 0 <= i < |draws| ==> |draws[i].rnd| == 16 }

  /** The state after a run of calls. */
  function After(c: Clock, draws: seq<Draw>): Clock
    requires Full(draws)
  {
    if draws == [] then c
    else Tick(After(c, draws[..|draws| - 1]), draws[|draws| - 1].ms, draws[|draws| - 1].rnd)
  }

  lemma {:induction false} AfterOk(c: Clock, draws: seq<Draw>)
    requires Full(draws) && Ok(c)
    ensures Ok(After(c, draws))
  {
    if draws != [] { AfterOk(c, draws[..|draws| - 1]); }
  }

  /** The id of call i of a run. */
  function IdOf(c: Clock, draws: seq<Draw>, i: nat): string
    requires Full(draws) && Ok(c) && i < |draws|
  {
    AfterOk(c, draws[..i + 1]);
    IdText(After(c, draws[..i + 1]), draws[i].rnd)
  }

  lemma {:induction false} ClockAdvances(c: Clock, draws: seq<Draw>, i: nat, j: nat)
    requires Full(draws) && Ok(c) && i < j <= |draws|
    ensures Before(After(c, draws[..i]), After(c, draws[..j])) && After(c, draws[..i]).last <= After(c, draws[..j]).last
  {
    assert draws[..j][..j - 1] == draws[..j - 1];
    if i < j - 1 { ClockAdvances(c, draws, i, j - 1); }
  }

  /**
   * Strict monotonicity over every run: for any readings of the clock, backward jumps and exhausted
   * sequences included, a later call answers a greater text, as long as the time still fits its 48 bits.
   */
  lemma MintedInOrder(c: Clock, draws: seq<Draw>, i: nat, j: nat)
    requires Full(draws) && Ok(c) && i < j < |draws| && After(c, draws).last < MS_LIMIT
    ensures Less(IdOf(c, draws, i), IdOf(c, draws, j)) && IdOf(c, draws, i) != IdOf(c, draws, j)
  {
    hide IdText, Less, Tick, After;
    var x, y := After(c, draws[..i + 1]), After(c, draws[..j + 1]);
    AfterOk(c, draws[..i + 1]);
    AfterOk(c, draws[..j + 1]);
    ClockAdvances(c, draws, i + 1, j + 1);
    assert draws[..|draws|] == draws;
    if j + 1 < |draws| { ClockAdvances(c, draws, j + 1, |draws|); }
    LaterIsGreater(x, y, draws[i].rnd, draws[j].rnd);
    LessIsStrict(IdText(x, draws[i].rnd), IdText(y, draws[j].rnd));
  }

  /** The borrowed milliseconds are bounded by the number of calls. */
  lemma {:induction false} BorrowsLittle(c: Clock, draws: seq<Draw>, top: int)
    requires Full(draws) && Ok(c) && c.last <= top && forall i :: 0 <= i < |draws| ==> draws[i].ms <= top
    ensures After(c, draws).last <= top + |draws|
  {
    if draws != [] { BorrowsLittle(c, draws[..|draws| - 1], top); }
  }

  // -------------------------------------------------- beyond the 48 bits of time

  /** What an id keeps of a clock: the time modulo 2^48. */
  function Wrapped(c: Clock): Clock { Clock(c.last % MS_LIMIT, c.seqNo) }

  lemma {:induction false} BeWraps(n: nat, v: int, k: int)
    requires 0 <= v && 0 <= k
    ensures 0 <= v + k * Pow256(n) && Be(n, v + k * Pow256(n)) == Be(n, v)
  {
    if n > 0 {
      var m := k * Pow256(n - 1);
      assert k * Pow256(n) == 256 * m;
      BeWraps(n - 1, v / 256, k);
      assert (v + 256 * m) / 256 == v / 256 + m && (v + 256 * m) % 256 == v % 256;
    }
  }

  lemma TextWraps(c: Clock, r: seq<Byte>)
    requires Ok(c) && |r| == 16
    ensures Ok(Wrapped(c)) && IdText(c, r) == IdText(Wrapped(c), r)
  {
    hide Hex, Canonical;
    assert Pow256(6) == MS_LIMIT;
    BeWraps(6, c.last % MS_LIMIT, c.last / MS_LIMIT);
    assert c.last % MS_LIMIT + c.last / MS_LIMIT * MS_LIMIT == c.last;
    assert Layout(c, r) == Layout(Wrapped(c), r);
  }

  /** Ids of any two clocks whose kept parts differ are ordered exactly as those parts are. */
  lemma OrderIsWrappedOrder(x: Clock, y: Clock, r: seq<Byte>, q: seq<Byte>)
    requires Ok(x) && Ok(y) && |r| == 16 && |q| == 16 && Wrapped(x) != Wrapped(y)
    ensures Less(IdText(x, r), IdText(y, q)) <==> Before(Wrapped(x), Wrapped(y))
  {
    hide IdText, Less;
    TextWraps(x, r);
    TextWraps(y, q);
    if Before(Wrapped(x), Wrapped(y)) {
      LaterIsGreater(Wrapped(x), Wrapped(y), r, q);
    } else {
      LaterIsGreater(Wrapped(y), Wrapped(x), q, r);
      LessIsStrict(IdText(x, r), IdText(y, q));
    }
  }

  lemma SameBlock(u: int, v: int)
    requires 0 <= u <= v && v - u < MS_LIMIT
    ensures u % MS_LIMIT <= v % MS_LIMIT <==> u / MS_LIMIT == v / MS_LIMIT
    ensures u % MS_LIMIT == v % MS_LIMIT <==> u == v
  {
  }

  /** A later id is greater exactly when both times lie in the same 2^48 milliseconds. */
  lemma LaterIsGreaterExactly(x: Clock, y: Clock, r: seq<Byte>, q: seq<Byte>)
    requires Ok(x) && Ok(y) && |r| == 16 && |q| == 16 && Before(x, y) && y.last - x.last < MS_LIMIT
    ensures Less(IdText(x, r), IdText(y, q)) <==> x.last / MS_LIMIT == y.last / MS_LIMIT
  {
    hide IdText, Less;
    SameBlock(x.last, y.last);
    OrderIsWrappedOrder(x, y, r, q);
  }

  /**
   * Over a whole run: two ids less than 2^48 milliseconds apart are in order exactly when no 2^48 boundary lies
   * between.
   */
  lemma MintedInOrderExactly(c: Clock, draws: seq<Draw>, i: nat, j: nat)
    requires Full(draws) && Ok(c) && i < j < |draws|
    requires After(c, draws[..j + 1]).last - After(c, draws[..i + 1]).last < MS_LIMIT
    ensures Less(IdOf(c, draws, i), IdOf(c, draws, j)) <==>
            After(c, draws[..i + 1]).last / MS_LIMIT == After(c, draws[..j + 1]).last / MS_LIMIT
  {
    hide IdText, Less, Tick, After;
    AfterOk(c, draws[..i + 1]);
    AfterOk(c, draws[..j + 1]);
    ClockAdvances(c, draws, i + 1, j + 1);
    LaterIsGreaterExactly(After(c, draws[..i + 1]), After(c, draws[..j + 1]), draws[i].rnd, draws[j].rnd);
  }

  /** The first boundary, as an instance: the last id before it is greater than the first one after it. */
  lemma OrderBreaksBeyond48Bits(r: seq<Byte>)
    requires |r| == 16
    ensures Less(IdText(Clock(MS_LIMIT, 0), r), IdText(Clock(MS_LIMIT - 1, 0), r))
  {
    hide IdText, Less;
    OrderIsWrappedOrder(Clock(MS_LIMIT, 0), Clock(MS_LIMIT - 1, 0), r, r);
  }

  /** Every id is canonical text of version 7 with the RFC variant. */
  lemma IdShape(c: Clock, r: seq<Byte>)
    requires Ok(c) && |r| == 16
    ensures |IdText(c, r)| == 36
    ensures IdText(c, r)[8] == IdText(c, r)[13] == IdText(c, r)[18] == IdText(c, r)[23] == '-'
    ensures IdText(c, r)[14] == '7'
    ensures IdText(c, r)[19] in {'8', '9', 'a', 'b'}
  {
    BeLength(6, c.last);
    var x := Layout(c, r);
    HexAt(x, 6);
    HexAt(x, 8);
    assert x[6] / 16 == 7;
    assert 8 <= x[8] / 16 < 12;
  }
}
