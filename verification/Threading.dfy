/** Finding the ticket an incoming message belongs to (internal/thread/thread.go). */
module Threading {
  import opened Rows
  import opened Text
  import opened Memstore
  import opened Pipeline
  import S = Store
  import V = StoreValid
  import T = Thread
  import opened Places

  datatype Found = NoMatch | Found(ticket: string, how: string)
  datatype Resolution = Resolved(found: Found) | Unavailable | NoTenant

  const BY_COMMENT := "comment"
  const BY_EXTERNAL_ID := "external_id"
  const BY_BODY_TOKEN := "body_token"
  const BY_SUBJECT_TOKEN := "subject_token"

  // ------------------------------------------------------------------ declared order

  ghost predicate NoComment(db: S.Db, tenant: string, ids: seq<string>, n: int)
    requires n <= |ids|
  {
    forall i :: 0 <= i < n ==> FindComment(db, tenant, ids[i]).None?
  }

  ghost predicate FirstComment(db: S.Db, tenant: string, ids: seq<string>, i: int) {
    0 <= i < |ids| && NoComment(db, tenant, ids, i) && FindComment(db, tenant, ids[i]).Some?
  }

  ghost predicate NoRoot(db: S.Db, tenant: string, ids: seq<string>, n: int)
    requires n <= |ids|
  {
    forall i :: 0 <= i < n ==> FindRoot(db, tenant, ids[i]).None?
  }

  ghost predicate FirstRoot(db: S.Db, tenant: string, ids: seq<string>, i: int) {
    0 <= i < |ids| && NoRoot(db, tenant, ids, i) && FindRoot(db, tenant, ids[i]).Some?
  }

  predicate TokenMatches(db: S.Db, tenant: string, text: string) {
    T.ParseToken(text) != "" && S.HasTicket(db, tenant, T.ParseToken(text))
  }

  /**
   * The first thread id recorded as a comment; else the first recorded as a root; else a body token; else a
   * subject token.
   */
  ghost predicate Matches(db: S.Db, tenant: string, ids: seq<string>, text: string, subject: string, f: Found) {
    if !NoComment(db, tenant, ids, |ids|) then
      exists i :: FirstComment(db, tenant, ids, i) &&
                  f == Found(FindComment(db, tenant, ids[i]).value.ticket, BY_COMMENT)
    else if !NoRoot(db, tenant, ids, |ids|) then
      exists i :: FirstRoot(db, tenant, ids, i) && f == Found(FindRoot(db, tenant, ids[i]).value.id, BY_EXTERNAL_ID)
    else if TokenMatches(db, tenant, text) then f == Found(T.ParseToken(text), BY_BODY_TOKEN)
    else if TokenMatches(db, tenant, subject) then f == Found(T.ParseToken(subject), BY_SUBJECT_TOKEN)
    else f == NoMatch
  }

  lemma FirstOnce(db: S.Db, tenant: string, ids: seq<string>, i: int, j: int)
    ensures FirstComment(db, tenant, ids, i) && FirstComment(db, tenant, ids, j) ==> i == j
    ensures FirstRoot(db, tenant, ids, i) && FirstRoot(db, tenant, ids, j) ==> i == j
  {
  }

  /** The order leaves one answer. */
  lemma MatchesOnce(db: S.Db, tenant: string, ids: seq<string>, text: string, subject: string, f: Found, g: Found)
    requires Matches(db, tenant, ids, text, subject, f) && Matches(db, tenant, ids, text, subject, g)
    ensures f == g
  {
    hide T.ParseToken, FirstComment, FirstRoot, NoComment, NoRoot;
    forall i, j ensures (FirstComment(db, tenant, ids, i) && FirstComment(db, tenant, ids, j) ==> i == j) &&
                        (FirstRoot(db, tenant, ids, i) && FirstRoot(db, tenant, ids, j) ==> i == j)
    {
      FirstOnce(db, tenant, ids, i, j);
    }
  }

  // --------------------------------------------------------------- look-ups are unique

  lemma CommentFound(cs: Casing, db: S.Db, tenant: string, messageId: string, k: string)
    requires V.Valid(cs, db) && messageId != "" && CommentIs(db.comments, k, tenant, messageId)
    ensures FindComment(db, tenant, messageId) == Some(db.comments[k])
  {
    hide V.References, V.Counted, V.KeysMatch, V.UniqueExternal, V.UniqueKey, V.UniqueName, V.UniqueAddress;
    assert V.UniqueMessage(db.comments);
  }

  lemma RootFound(cs: Casing, db: S.Db, tenant: string, externalId: string, k: string)
    requires V.Valid(cs, db) && externalId != "" && RootIs(db.tickets, k, tenant, externalId)
    ensures FindRoot(db, tenant, externalId) == Some(db.tickets[k])
  {
    hide V.References, V.Counted, V.KeysMatch, V.UniqueMessage, V.UniqueKey, V.UniqueName, V.UniqueAddress;
    assert V.UniqueExternal(db.tickets);
  }

  // ------------------------------------------------------------------------- the method

  predicate Armed(names: set<string>) {
    "FindCommentByMessageID" in names || "FindTicketByExternalID" in names || "GetTicket" in names
  }

  /** Comments first, over every thread id; then roots; then tokens. A failing look-up is reported, not skipped. */
  method Resolve(mem: Mem, tenant: string, ids: seq<string>, text: string, subject: string) returns (r: Resolution)
    requires V.Valid(mem.cs, mem.State())
    modifies mem`failNext
    ensures mem.failNext <= old(mem.failNext)
    ensures r.Resolved? ==> Matches(mem.State(), tenant, ids, text, subject, r.found)
    ensures r.Unavailable? ==> Armed(old(mem.failNext))
    ensures r.NoTenant? <==> tenant == ""
  {
    hide V.Valid, T.ParseToken, FirstComment, FirstRoot, NoComment, NoRoot;
    if tenant == "" { return NoTenant; }
    r := ByComment(mem, tenant, ids);
    if r != Resolved(NoMatch) { return; }
    r := ByRoot(mem, tenant, ids);
    if r != Resolved(NoMatch) { return; }
    r := ByToken(mem, tenant, text, BY_BODY_TOKEN);
    if r == Resolved(NoMatch) { r := ByToken(mem, tenant, subject, BY_SUBJECT_TOKEN); }
  }

  method ByComment(mem: Mem, tenant: string, ids: seq<string>) returns (r: Resolution)
    requires V.Valid(mem.cs, mem.State())
    modifies mem`failNext
    ensures mem.failNext <= old(mem.failNext)
    ensures !r.NoTenant? && (r.Unavailable? ==> "FindCommentByMessageID" in old(mem.failNext))
    ensures r == Resolved(NoMatch) ==> NoComment(mem.State(), tenant, ids, |ids|)
    ensures r.Resolved? && r.found != NoMatch ==>
              !NoComment(mem.State(), tenant, ids, |ids|) &&
              exists i :: FirstComment(mem.State(), tenant, ids, i) &&
                          r.found == Found(FindComment(mem.State(), tenant, ids[i]).value.ticket, BY_COMMENT)
  {
    hide V.Valid;
    var i := 0;
    while i < |ids|
      invariant 0 <= i <= |ids| && NoComment(mem.State(), tenant, ids, i)
      invariant mem.failNext <= old(mem.failNext)
    {
      var out, c := mem.FindCommentByMessageID(tenant, ids[i]);
      if out == S.Fault { return Unavailable; }
      if out == S.Done {
        ghost var k :| k in mem.comments && mem.comments[k] == c.value &&
                       c.value.tenant == tenant && c.value.messageId == ids[i];
        CommentFound(mem.cs, mem.State(), tenant, ids[i], k);
        assert FirstComment(mem.State(), tenant, ids, i);
        return Resolved(Found(c.value.ticket, BY_COMMENT));
      }
      NoSuchComment(mem.State(), tenant, ids[i]);
      i := i + 1;
    }
    r := Resolved(NoMatch);
  }

  method ByRoot(mem: Mem, tenant: string, ids: seq<string>) returns (r: Resolution)
    requires V.Valid(mem.cs, mem.State())
    modifies mem`failNext
    ensures mem.failNext <= old(mem.failNext)
    ensures !r.NoTenant? && (r.Unavailable? ==> "FindTicketByExternalID" in old(mem.failNext))
    ensures r == Resolved(NoMatch) ==> NoRoot(mem.State(), tenant, ids, |ids|)
    ensures r.Resolved? && r.found != NoMatch ==>
              !NoRoot(mem.State(), tenant, ids, |ids|) &&
              exists i :: FirstRoot(mem.State(), tenant, ids, i) &&
                          r.found == Found(FindRoot(mem.State(), tenant, ids[i]).value.id, BY_EXTERNAL_ID)
  {
    hide V.Valid;
    var i := 0;
    while i < |ids|
      invariant 0 <= i <= |ids| && NoRoot(mem.State(), tenant, ids, i)
      invariant mem.failNext <= old(mem.failNext)
    {
      var out, t := mem.FindTicketByExternalID(tenant, ids[i]);
      if out == S.Fault { return Unavailable; }
      if out == S.Done {
        ghost var k :| k in mem.tickets && mem.tickets[k] == t.value &&
                       t.value.tenant == tenant && t.value.externalId == ids[i];
        RootFound(mem.cs, mem.State(), tenant, ids[i], k);
        assert FirstRoot(mem.State(), tenant, ids, i);
        return Resolved(Found(t.value.id, BY_EXTERNAL_ID));
      }
      NoSuchRoot(mem.State(), tenant, ids[i]);
      i := i + 1;
    }
    r := Resolved(NoMatch);
  }

  method ByToken(mem: Mem, tenant: string, text: string, how: string) returns (r: Resolution)
    requires V.Valid(mem.cs, mem.State())
    modifies mem`failNext
    ensures mem.failNext <= old(mem.failNext)
    ensures r.Resolved? ==>
              r.found == if TokenMatches(mem.State(), tenant, text) then Found(T.ParseToken(text), how) else NoMatch
    ensures !r.NoTenant? && (r.Unavailable? ==> "GetTicket" in old(mem.failNext))
  {
    hide T.ParseToken;
    var token := T.ParseToken(text);
    if token == "" { return Resolved(NoMatch); }
    var out, t := mem.GetTicket(tenant, token);
    if out == S.Fault { return Unavailable; }
    if out != S.Done { return Resolved(NoMatch); }
    assert t.value.id == token by { assert V.KeysMatch(mem.State()); }
    r := Resolved(Found(t.value.id, how));
  }

  lemma NoSuchComment(db: S.Db, tenant: string, messageId: string)
    requires !(messageId != "" && S.MessageTaken(db.comments, tenant, messageId))
    ensures FindComment(db, tenant, messageId).None?
  {
  }

  lemma NoSuchRoot(db: S.Db, tenant: string, externalId: string)
    requires !(externalId != "" && S.ExternalTaken(db.tickets, tenant, externalId))
    ensures FindRoot(db, tenant, externalId).None?
  {
  }

  // ------------------------------------------------------------- the ids of a message

  const MAX_THREAD_IDS := 50

  function Added(out: seq<string>, id: string): seq<string> {
    if id != "" && id !in out && |out| < MAX_THREAD_IDS then out + [id] else out
  }

  function Chain(ids: seq<string>): seq<string> {
    if ids == [] then [] else Added(Chain(ids[..|ids| - 1]), ids[|ids| - 1])
  }

  function Reversed(ids: seq<string>): seq<string> {
    if ids == [] then [] else Reversed(ids[1..]) + [ids[0]]
  }

  /** The places of the ids that are not empty and not named before. */
  function New(ids: seq<string>): nat -> bool { (i: nat) => i < |ids| && ids[i] != "" && ids[i] !in ids[..i] }

  lemma ChainHas(ids: seq<string>, id: string)
    ensures |Chain(ids)| < MAX_THREAD_IDS && id != "" ==> (id in Chain(ids) <==> id in ids)
  {
    ChainIs(ids);
    hide Chain;
  }

  /** All of them in order, up to the bound. */
  lemma {:induction false} ChainAt(ids: seq<string>) returns (at: seq<nat>)
    ensures Marks(at, |ids|, New(ids))
    ensures |Chain(ids)| == if |at| < MAX_THREAD_IDS then |at| else MAX_THREAD_IDS
    ensures forall x :: 0 <= x < |Chain(ids)| ==> Chain(ids)[x] == ids[at[x]]
  {
    if ids == [] {
      at := [];
    } else {
      var n := |ids| - 1;
      var before := ChainAt(ids[..n]);
      var c := Chain(ids[..n]);
      assert Chain(ids) == Added(c, ids[n]);
      ChainHas(ids[..n], ids[n]);
      hide Chain;
      assert forall x: nat :: x < n ==> ids[..n][x] == ids[x] && ids[..n][..x] == ids[..x];
      at := Marked(before, n, New(ids)(n));
      OneMorePlace(before, n, New(ids[..n]), New(ids));
      hide Marks;
      assert forall x :: 0 <= x < |before| ==> ids[..n][before[x]] == ids[before[x]];
    }
  }

  lemma ChainNext(ids: seq<string>, n: nat)
    requires n < |ids|
    ensures Chain(ids[..n + 1]) == Added(Chain(ids[..n]), ids[n])
  {
    assert ids[..n + 1][..n] == ids[..n];
  }

  /**
   * The ids named, In-Reply-To first and then References from the newest backwards, and of those the first 50 that are
   * not empty, each once, in that order.
   */
  ghost predicate ChainOf(inReplyTo: seq<string>, references: seq<string>, all: seq<string>, at: seq<nat>,
                          out: seq<string>) {
    |all| == |inReplyTo| + |references| && (forall i :: 0 <= i < |inReplyTo| ==> all[i] == inReplyTo[i]) &&
    (forall i :: |inReplyTo| <= i < |all| ==> all[i] == references[|all| - 1 - i]) &&
    Marks(at, |all|, New(all)) && |out| == (if |at| < MAX_THREAD_IDS then |at| else MAX_THREAD_IDS) &&
    forall x :: 0 <= x < |out| ==> out[x] == all[at[x]]
  }

  ghost predicate ThreadChain(inReplyTo: seq<string>, references: seq<string>, out: seq<string>) {
    exists all, at: seq<nat> :: ChainOf(inReplyTo, references, all, at, out)
  }

  lemma ChainsRight(inReplyTo: seq<string>, references: seq<string>)
    ensures ThreadChain(inReplyTo, references, Chain(inReplyTo + Reversed(references)))
  {
    var all := inReplyTo + Reversed(references);
    var at := ChainAt(all);
    ReversedIs(references);
    hide Marks, Chain, Reversed;
    assert ChainOf(inReplyTo, references, all, at, Chain(all));
  }

  /** In-Reply-To first, then References from the newest backwards, without repeats. */
  method ThreadIds(inReplyTo: seq<string>, references: seq<string>) returns (out: seq<string>)
    ensures out == Chain(inReplyTo + Reversed(references))
    ensures ThreadChain(inReplyTo, references, out)
  {
    ChainsRight(inReplyTo, references);
    hide ThreadChain;
    hide Added;
    var all := inReplyTo + Reversed(references);
    ReversedIs(references);
    hide Reversed;
    out := [];
    var i := 0;
    while i < |inReplyTo|
      invariant 0 <= i <= |inReplyTo| && out == Chain(all[..i])
    {
      ChainNext(all, i);
      out := Added(out, inReplyTo[i]);
      i := i + 1;
    }
    hide Chain;
    var j := |references|;
    while j > 0
      invariant 0 <= j <= |references| && out == Chain(all[..|inReplyTo| + |references| - j])
      decreases j
    {
      j := j - 1;
      ChainNext(all, |inReplyTo| + |references| - j - 1);
      out := Added(out, references[j]);
    }
    assert all[..|all|] == all;
  }

  lemma {:induction false} ReversedIs(ids: seq<string>)
    ensures |Reversed(ids)| == |ids|
    ensures forall i :: 0 <= i < |ids| ==> Reversed(ids)[i] == ids[|ids| - 1 - i]
  {
    if ids != [] { ReversedIs(ids[1..]); }
  }

  /** The chain has no empty and no repeated id, loses none below its bound, and starts with the first one named. */
  lemma {:induction false} ChainIs(ids: seq<string>)
    ensures |Chain(ids)| <= MAX_THREAD_IDS
    ensures forall i :: 0 <= i < |Chain(ids)| ==> Chain(ids)[i] != "" && Chain(ids)[i] in ids
    ensures forall i, j :: 0 <= i < j < |Chain(ids)| ==> Chain(ids)[i] != Chain(ids)[j]
    ensures |Chain(ids)| < MAX_THREAD_IDS ==> forall i :: 0 <= i < |ids| && ids[i] != "" ==> ids[i] in Chain(ids)
    ensures ids != [] && ids[0] != "" ==> Chain(ids) != [] && Chain(ids)[0] == ids[0]
  {
    if ids != [] {
      var front := ids[..|ids| - 1];
      ChainIs(front);
      assert front != [] ==> front[0] == ids[0];
    }
  }
}
