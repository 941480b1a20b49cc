/** Attachment safety over every interleaving of ingestion and deletion, whichever calls fail. */
module PipelineSafety {
  import opened Rows
  import opened Text
  import opened Pipeline
  import S = Store
  import V = StoreValid

  // ------------------------------------------------------------------------ accounts

  function RowKeys(attachments: map<string, Attachment>): set<string> {
    set k | k in attachments :: attachments[k].storageKey
  }

  function StagedKeys(staged: seq<Attachment>): set<string> {
    set i | 0 <= i < |staged| :: staged[i].storageKey
  }

  /** The objects a process still answers for. */
  function Held(pr: Proc): set<string> {
    match pr
    case Inbound(_, _, staged, _) => StagedKeys(staged)
    case Eraser(_, _, _, _, doomed) => doomed
    case Poster(_, _, _) => {}
  }

  function Helds(procs: seq<Proc>): seq<set<string>> {
    seq(|procs|, i requires 0 <= i < |procs| => Held(procs[i]))
  }

  ghost predicate InHeld(held: seq<set<string>>, k: string) { exists p :: 0 <= p < |held| && k in held[p] }

  /** Every object belongs to exactly one of: an attachment row, a failed removal, a running process. */
  ghost predicate Balanced(rows: set<string>, leaked: set<string>, held: seq<set<string>>, objects: set<string>) {
    rows <= objects && leaked <= objects && rows !! leaked &&
    (forall p :: 0 <= p < |held| ==> held[p] <= objects && held[p] !! rows && held[p] !! leaked) &&
    (forall p, q :: 0 <= p < q < |held| ==> held[p] !! held[q]) &&
    (forall k :: k in objects ==> k in rows || k in leaked || InHeld(held, k))
  }

  /** Objects move between the rows, the failed removals and one process; some are new, some are gone. */
  lemma Transfer(rows: set<string>, leaked: set<string>, held: seq<set<string>>, objects: set<string>,
                 rows': set<string>, leaked': set<string>, p: nat, mine': set<string>, objects': set<string>,
                 added: set<string>, gone: set<string>)
    requires Balanced(rows, leaked, held, objects) && p < |held|
    requires added !! objects && gone <= rows + leaked + held[p]
    requires rows' + leaked' + mine' == (rows + leaked + held[p] + added) - gone
    requires rows' !! leaked' && mine' !! rows' && mine' !! leaked'
    requires objects' == (objects + added) - gone
    ensures Balanced(rows', leaked', held[p := mine'], objects')
  {
    var all, held' := rows + leaked + held[p] + added, held[p := mine'];
    assert rows' <= all && leaked' <= all && mine' <= all;
    forall q | 0 <= q < |held'| ensures held'[q] <= objects' && held'[q] !! rows' && held'[q] !! leaked' {
      if q != p { OthersApart(rows, leaked, held, objects, p, q, added, all); }
    }
    forall q, r | 0 <= q < r < |held'| ensures held'[q] !! held'[r] {
      if q == p {
        OthersApart(rows, leaked, held, objects, p, r, added, all);
      } else if r == p {
        OthersApart(rows, leaked, held, objects, p, q, added, all);
      } else {
        assert held[q] !! held[r];
      }
    }
    forall k | k in objects' ensures k in rows' || k in leaked' || InHeld(held', k) {
      if k in all {
        assert k in rows' + leaked' + mine';
        if k in mine' { assert k in held'[p]; }
      } else {
        assert InHeld(held, k);
        var q :| 0 <= q < |held| && k in held[q];
        assert k in held'[q];
      }
    }
  }

  lemma OthersApart(rows: set<string>, leaked: set<string>, held: seq<set<string>>, objects: set<string>,
                    p: nat, q: nat, added: set<string>, all: set<string>)
    requires Balanced(rows, leaked, held, objects) && p < |held| && q < |held| && p != q && added !! objects
    requires all == rows + leaked + held[p] + added
    ensures held[q] !! all
  {
    if p < q { assert held[p] !! held[q]; } else { assert held[q] !! held[p]; }
  }

  lemma NewHolder(rows: set<string>, leaked: set<string>, held: seq<set<string>>, objects: set<string>)
    requires Balanced(rows, leaked, held, objects)
    ensures Balanced(rows, leaked, held + [{}], objects)
  {
    var held' := held + [{}];
    forall k | k in objects ensures k in rows || k in leaked || InHeld(held', k) {
      if k !in rows && k !in leaked {
        var p :| 0 <= p < |held| && k in held[p];
        assert k in held'[p];
      }
    }
  }

  lemma HeldsSet(procs: seq<Proc>, p: nat, pr: Proc)
    requires p < |procs|
    ensures Helds(procs[p := pr]) == Helds(procs)[p := Held(pr)]
  {
    hide Held;
  }

  lemma HeldsAdd(procs: seq<Proc>, pr: Proc)
    requires Held(pr) == {}
    ensures Helds(procs + [pr]) == Helds(procs) + [{}]
  {
    hide Held;
  }

  // ------------------------------------------------------------ keys of attachment rows

  lemma FileAdded(db: S.Db, a: Attachment, now: Time)
    requires S.CreateAttachment(db, a, now).out == S.Done
    ensures var db' := S.CreateAttachment(db, a, now).db;
            RowKeys(db'.attachments) == RowKeys(db.attachments) + {a.storageKey} && db'.comments == db.comments
  {
    var rows, rows' := db.attachments, S.CreateAttachment(db, a, now).db.attachments;
    assert forall k :: k in rows ==> rows'[k] == rows[k];
    assert rows'[a.id].storageKey == a.storageKey;
  }

  lemma UniqueKeys(cs: Casing, db: S.Db)
    requires V.Valid(cs, db)
    ensures V.UniqueKey(db.attachments)
  {
  }

  lemma TicketPurged(cs: Casing, db: S.Db, tenant: string, id: string)
    requires V.Valid(cs, db)
    ensures var r := S.DeleteTicket(db, tenant, id);
            RowKeys(r.db.attachments) == RowKeys(db.attachments) - r.keys && r.keys <= RowKeys(db.attachments)
  {
    UniqueKeys(cs, db);
    hide V.Valid, V.UniqueKey, S.HistoryWithout, RowKeys;
    if S.HasTicket(db, tenant, id) {
      var rows, rows' := db.attachments, S.DeleteTicket(db, tenant, id).db.attachments;
      assert S.KeysOfTicket(rows, id) == GoneKeys(rows, rows');
      KeysSplit(rows, rows');
    }
  }

  lemma CommentPurged(cs: Casing, db: S.Db, tenant: string, id: string)
    requires V.Valid(cs, db)
    ensures var r := S.DeleteComment(db, tenant, id);
            RowKeys(r.db.attachments) == RowKeys(db.attachments) - r.keys && r.keys <= RowKeys(db.attachments)
  {
    UniqueKeys(cs, db);
    hide V.Valid, V.UniqueKey, S.Uncommented, RowKeys;
    if S.HasComment(db, tenant, id) {
      var rows, rows' := db.attachments, S.DeleteComment(db, tenant, id).db.attachments;
      assert S.KeysOfComment(rows, id) == GoneKeys(rows, rows');
      KeysSplit(rows, rows');
    }
  }

  function GoneKeys(rows: map<string, Attachment>, rows': map<string, Attachment>): set<string> {
    set k | k in rows && k !in rows' :: rows[k].storageKey
  }

  /** Splitting the rows splits their keys, because no two rows share one. */
  lemma KeysSplit(rows: map<string, Attachment>, rows': map<string, Attachment>)
    requires V.UniqueKey(rows) && V.Within(rows', rows)
    ensures RowKeys(rows') == RowKeys(rows) - GoneKeys(rows, rows') && GoneKeys(rows, rows') <= RowKeys(rows)
  {
    forall x | x in RowKeys(rows') ensures x in RowKeys(rows) && x !in GoneKeys(rows, rows') {
      var k :| k in rows' && rows'[k].storageKey == x;
      assert k in rows && rows[k].storageKey == x;
    }
    forall x | x in RowKeys(rows) && x !in GoneKeys(rows, rows') ensures x in RowKeys(rows') {
      var k :| k in rows && rows[k].storageKey == x;
      assert k in rows' && rows'[k].storageKey == x;
    }
  }

  lemma QuietKeepsFiles(cs: Casing, db: S.Db, op: S.Op)
    requires Quiet(op)
    ensures S.Apply(cs, db, op).attachments == db.attachments
  {
  }

  // --------------------------------------------------------------- processes and keys

  /** Ids are the last 36 characters of an object's key, so a new id makes a new key. */
  ghost predicate Shaped(objects: set<string>, minted: set<string>) {
    forall k :: k in objects ==> 36 <= |k| && k[|k| - 36..] in minted
  }

  lemma NewKey(objects: set<string>, minted: set<string>, tenant: string, ticket: string, id: string)
    requires Shaped(objects, minted) && id !in minted && |id| == 36
    ensures var key := AttachmentKey(tenant, ticket, id);
            key !in objects && Shaped(objects + {key}, minted + {id})
  {
    var key := AttachmentKey(tenant, ticket, id);
    assert key[|key| - 36..] == id;
  }

  ghost predicate Distinct(staged: seq<Attachment>) {
    forall i, j :: 0 <= i < j < |staged| ==> staged[i].storageKey != staged[j].storageKey
  }

  predicate Kept(a: Answer) { a.Threaded? || a.Created? }

  /** A process has written its row exactly from the attachment rows on, and holds nothing once finished. */
  ghost predicate InboundOk(phase: Phase, staged: seq<Attachment>, wrote: bool) {
    Distinct(staged) &&
    (wrote <==> phase.Record? || (phase.Finished? && Kept(phase.answer))) &&
    (phase.Record? ==> Kept(phase.answer) && (phase.failed ==> staged != [])) &&
    (!phase.Upload? && !phase.Discard? && !phase.Record? ==> staged == [])
  }

  ghost predicate ProcOk(pr: Proc) {
    match pr
    case Inbound(_, phase, staged, wrote) => InboundOk(phase, staged, wrote)
    case Eraser(_, _, _, ran, doomed) => !ran ==> doomed == {}
    case Poster(_, recorded, done) => true
  }

  ghost predicate Safe(cs: Casing, y: Sys) {
    V.Valid(cs, y.db) && Shaped(y.objects, y.minted) && (forall p :: 0 <= p < |y.procs| ==> ProcOk(y.procs[p])) &&
    Balanced(RowKeys(y.db.attachments), y.leaked, Helds(y.procs), y.objects)
  }

  lemma FirstStaged(staged: seq<Attachment>)
    requires staged != [] && Distinct(staged)
    ensures Distinct(staged[1..]) && StagedKeys(staged) == StagedKeys(staged[1..]) + {staged[0].storageKey}
    ensures staged[0].storageKey !in StagedKeys(staged[1..])
  {
    forall x ensures x in StagedKeys(staged) <==> x in StagedKeys(staged[1..]) || x == staged[0].storageKey {
      if x in StagedKeys(staged) {
        var i :| 0 <= i < |staged| && staged[i].storageKey == x;
        if i > 0 { assert staged[1..][i - 1].storageKey == x; }
      }
      if x in StagedKeys(staged[1..]) {
        var i :| 0 <= i < |staged[1..]| && staged[1..][i].storageKey == x;
        assert staged[i + 1].storageKey == x;
      }
    }
  }

  lemma MoreStaged(staged: seq<Attachment>, a: Attachment)
    requires Distinct(staged) && a.storageKey !in StagedKeys(staged)
    ensures Distinct(staged + [a]) && StagedKeys(staged + [a]) == StagedKeys(staged) + {a.storageKey}
  {
    var all := staged + [a];
    assert forall i :: 0 <= i < |staged| ==> staged[i].storageKey in StagedKeys(staged);
    forall x ensures x in StagedKeys(all) <==> x in StagedKeys(staged) || x == a.storageKey {
      if x in StagedKeys(staged) {
        var i :| 0 <= i < |staged| && staged[i].storageKey == x;
        assert all[i].storageKey == x;
      }
      assert all[|staged|].storageKey == a.storageKey;
    }
  }

  // --------------------------------------------------------------------- every step

  /** A step that only moves one process on, or changes other tables. */
  lemma OnlyMoves(cs: Casing, y: Sys, y': Sys, p: nat, pr: Proc)
    requires Safe(cs, y) && V.Valid(cs, y'.db) && p < |y.procs| && ProcOk(pr) && Held(pr) == Held(y.procs[p])
    requires y'.procs == y.procs[p := pr] && y'.objects == y.objects && y'.leaked == y.leaked && y.minted <= y'.minted
    requires y'.db.attachments == y.db.attachments
    ensures Safe(cs, y')
  {
    hide V.Valid, ProcOk, Held;
    HeldsSet(y.procs, p, pr);
    assert Helds(y.procs)[p] == Held(y.procs[p]);
    assert Helds(y'.procs) == Helds(y.procs);
  }

  lemma OnlyTables(cs: Casing, y: Sys, y': Sys)
    requires Safe(cs, y) && V.Valid(cs, y'.db) && y'.db.attachments == y.db.attachments
    requires y'.procs == y.procs && y'.objects == y.objects && y'.leaked == y.leaked && y.minted <= y'.minted
    ensures Safe(cs, y')
  {
    hide V.Valid, ProcOk, Held;
  }

  lemma OnlyStarts(cs: Casing, y: Sys, y': Sys, pr: Proc)
    requires Safe(cs, y) && Held(pr) == {} && ProcOk(pr)
    requires y'.procs == y.procs + [pr] && y'.objects == y.objects && y'.leaked == y.leaked && y.minted <= y'.minted
    requires y'.db == y.db
    ensures Safe(cs, y')
  {
    hide V.Valid, ProcOk, Held;
    HeldsAdd(y.procs, pr);
    NewHolder(RowKeys(y.db.attachments), y.leaked, Helds(y.procs), y.objects);
  }

  /** A step that moves objects between the accounts of one process, the rows and the failed removals. */
  lemma Moves(cs: Casing, y: Sys, y': Sys, p: nat, pr: Proc, added: set<string>, gone: set<string>)
    requires Safe(cs, y) && p < |y.procs| && V.Valid(cs, y'.db) && ProcOk(pr) && y'.procs == y.procs[p := pr]
    requires Shaped(y'.objects, y'.minted)
    requires var rows, rows' := RowKeys(y.db.attachments), RowKeys(y'.db.attachments);
             added !! y.objects && gone <= rows + y.leaked + Held(y.procs[p]) &&
             rows' + y'.leaked + Held(pr) == (rows + y.leaked + Held(y.procs[p]) + added) - gone &&
             rows' !! y'.leaked && Held(pr) !! rows' && Held(pr) !! y'.leaked
    requires y'.objects == (y.objects + added) - gone
    ensures Safe(cs, y')
  {
    hide V.Valid, ProcOk, Held, Shaped, RowKeys, Balanced;
    HeldsSet(y.procs, p, pr);
    Transfer(RowKeys(y.db.attachments), y.leaked, Helds(y.procs), y.objects,
             RowKeys(y'.db.attachments), y'.leaked, p, Held(pr), y'.objects, added, gone);
  }

  /** The accounts of one process. */
  lemma Apart(cs: Casing, y: Sys, p: nat)
    requires Safe(cs, y) && p < |y.procs|
    ensures ProcOk(y.procs[p])
    ensures var mine, rows := Held(y.procs[p]), RowKeys(y.db.attachments);
            mine <= y.objects && mine !! rows && mine !! y.leaked && rows !! y.leaked
  {
    hide V.Valid, ProcOk, Held, RowKeys, Shaped;
    assert Helds(y.procs)[p] == Held(y.procs[p]);
  }

  lemma PutKeeps(cs: Casing, y: Sys, p: nat, id: string, fault: bool)
    requires Safe(cs, y) && Busy(y, p)
    ensures Safe(cs, PutFile(y, p, id, fault))
  {
    hide V.Valid, Safe, RowKeys, StagedKeys, Distinct, Shaped, AttachmentKey;
    var pr, y' := y.procs[p], PutFile(y, p, id, fault);
    Apart(cs, y, p);
    if pr.phase.Upload? && |pr.staged| < |pr.mail.files| && Unused(y, id) {
      ValidOf(cs, y);
      if fault {
        OnlyMoves(cs, y, y', p, y'.procs[p]);
      } else {
        var a := Staged(pr.mail, pr.phase.ticket, pr.mail.files[|pr.staged|], id);
        NewKey(y.objects, y.minted, pr.mail.tenant, pr.phase.ticket, id);
        assert RowKeys(y.db.attachments) <= y.objects && y.leaked <= y.objects by { InObjects(cs, y); }
        MoreStaged(pr.staged, a);
        Moves(cs, y, y', p, y'.procs[p], {a.storageKey}, {});
      }
    }
  }

  lemma ValidOf(cs: Casing, y: Sys)
    requires Safe(cs, y)
    ensures V.Valid(cs, y.db) && Shaped(y.objects, y.minted)
  {
  }

  lemma InObjects(cs: Casing, y: Sys)
    requires Safe(cs, y)
    ensures RowKeys(y.db.attachments) <= y.objects && y.leaked <= y.objects
  {
  }

  lemma ShapedLess(y: Sys, gone: set<string>)
    requires Shaped(y.objects, y.minted)
    ensures Shaped(y.objects - gone, y.minted)
  {
  }

  lemma RemoveKeeps(cs: Casing, y: Sys, p: nat, key: string, fault: bool)
    requires Safe(cs, y) && p < |y.procs|
    ensures Safe(cs, RemoveObject(y, p, key, fault))
  {
    hide V.Valid, Safe, RowKeys, StagedKeys, Distinct, Shaped;
    var y' := RemoveObject(y, p, key, fault);
    Apart(cs, y, p);
    ValidOf(cs, y);
    match y.procs[p]
    case Inbound(m, phase, staged, wrote) =>
      if phase.Discard? && staged == [] {
        OnlyMoves(cs, y, y', p, y'.procs[p]);
      } else if staged != [] && (phase.Discard? || (phase.Record? && phase.failed)) {
        FirstStaged(staged);
        RemovedMoves(cs, y, p, staged[0].storageKey, fault, y'.procs[p]);
      }
    case Eraser(tenant, id, isComment, ran, doomed) =>
      if key in doomed { RemovedMoves(cs, y, p, key, fault, y'.procs[p]); }
    case Poster(_, _, _) =>
  }

  lemma RemovedMoves(cs: Casing, y: Sys, p: nat, key: string, fault: bool, pr: Proc)
    requires Safe(cs, y) && p < |y.procs| && ProcOk(pr)
    requires Held(y.procs[p]) == Held(pr) + {key} && key !in Held(pr)
    ensures Safe(cs, SetProc(Removed(y, key, fault), p, pr))
  {
    hide V.Valid, Safe, RowKeys, Held, ProcOk, Shaped;
    var y' := SetProc(Removed(y, key, fault), p, pr);
    Apart(cs, y, p);
    ValidOf(cs, y);
    if fault {
      Moves(cs, y, y', p, pr, {}, {});
    } else {
      ShapedLess(y, {key});
      Moves(cs, y, y', p, pr, {}, {key});
    }
  }

  lemma RowWrittenOk(cs: Casing, db: S.Db, m: Mail, reply: bool, ticket: string, id: string, now: Time, fault: bool)
    requires V.Valid(cs, db) && |id| == 36
    ensures var (db', phase) := RowWritten(db, m, reply, ticket, id, now, fault);
            V.Valid(cs, db') && db'.attachments == db.attachments &&
            (phase.Record? || phase.Discard?) && (phase.Record? ==> Kept(phase.answer) && !phase.failed) &&
            (phase.Discard? ==> db' == db)
  {
    hide V.Valid, S.CreateComment, S.CreateTicket;
    if !fault {
      if reply {
        ReplyWrites(cs, db, NewReply(m, ticket, id), now);
      } else {
        RootWrites(cs, db, NewTicket(m, ticket), now);
      }
    }
  }

  lemma ReplyWrites(cs: Casing, db: S.Db, c: Comment, now: Time)
    requires V.Valid(cs, db) && c.id != ""
    ensures var r := S.CreateComment(db, c, now);
            V.Valid(cs, r.db) && r.db.attachments == db.attachments && (r.out != S.Done ==> r.db == db)
  {
    hide V.Valid;
    V.ApplyKeepsValid(cs, db, S.OpCreateComment(c, now));
  }

  lemma RootWrites(cs: Casing, db: S.Db, t: Ticket, now: Time)
    requires V.Valid(cs, db) && t.commentCount == 0
    ensures var r := S.CreateTicket(db, t, now);
            V.Valid(cs, r.db) && r.db.attachments == db.attachments && (r.out != S.Done ==> r.db == db)
  {
    hide V.Valid;
    V.ApplyKeepsValid(cs, db, S.OpCreateTicket(t, now));
  }

  lemma WriteMainKeeps(cs: Casing, y: Sys, p: nat, id: string, now: Time, fault: bool)
    requires Safe(cs, y) && Busy(y, p)
    ensures Safe(cs, WriteMain(y, p, id, now, fault))
  {
    hide V.Valid, Safe, StagedKeys, Distinct, RowWritten;
    var pr, y' := y.procs[p], WriteMain(y, p, id, now, fault);
    Apart(cs, y, p);
    if pr.phase.Upload? && |pr.staged| >= |pr.mail.files| && Unused(y, id) {
      ValidOf(cs, y);
      RowWrittenOk(cs, y.db, pr.mail, pr.phase.reply, pr.phase.ticket, id, now, fault);
      OnlyMoves(cs, y, y', p, y'.procs[p]);
    }
  }

  lemma WriteNextKeeps(cs: Casing, y: Sys, p: nat, now: Time, fault: bool)
    requires Safe(cs, y) && Busy(y, p)
    ensures Safe(cs, WriteNext(y, p, now, fault))
  {
    hide V.Valid, Safe, RowKeys, StagedKeys, Distinct, Shaped, S.CreateAttachment;
    var pr, y' := y.procs[p], WriteNext(y, p, now, fault);
    Apart(cs, y, p);
    ValidOf(cs, y);
    if pr.phase.Record? && !pr.phase.failed {
      if pr.staged == [] {
        OnlyMoves(cs, y, y', p, y'.procs[p]);
      } else {
        var a := pr.staged[0].(comment := pr.phase.comment);
        var r := Guarded(fault, y.db, S.CreateAttachment(y.db, a, now));
        FirstStaged(pr.staged);
        if r.out == S.Done {
          FileAdded(y.db, a, now);
          V.ApplyKeepsValid(cs, y.db, S.OpCreateAttachment(a, now));
          Moves(cs, y, y', p, y'.procs[p], {}, {});
        } else {
          OnlyMoves(cs, y, y', p, y'.procs[p]);
        }
      }
    }
  }

  /** Without a fault, a staged attachment whose ticket and comment are still there gets its row. */
  lemma FaultlessFile(cs: Casing, y: Sys, p: nat, now: Time)
    requires Safe(cs, y) && Busy(y, p) && y.procs[p].phase.Record? && !y.procs[p].phase.failed &&
             y.procs[p].staged != []
    requires var a := y.procs[p].staged[0].(comment := y.procs[p].phase.comment);
             S.HasTicket(y.db, a.tenant, a.ticket) && (a.comment == "" || S.CommentMatches(y.db.comments, a)) &&
             a.id !in y.db.attachments
    ensures var a, y' := y.procs[p].staged[0], WriteNext(y, p, now, false);
            a.id in y'.db.attachments && y'.db.attachments[a.id].storageKey == a.storageKey &&
            y'.procs[p].staged == y.procs[p].staged[1..] && a.storageKey in y'.objects
  {
    hide V.Valid, Safe, Shaped, StagedKeys, Distinct;
    Apart(cs, y, p);
    FirstStaged(y.procs[p].staged);
    var key := y.procs[p].staged[0].storageKey;
    assert key !in RowKeys(y.db.attachments);
    assert !S.KeyTaken(y.db.attachments, key) by {
      assert forall k :: k in y.db.attachments ==> y.db.attachments[k].storageKey in RowKeys(y.db.attachments);
    }
  }

  lemma PurgeKeeps(cs: Casing, y: Sys, p: nat, fault: bool)
    requires Safe(cs, y) && p < |y.procs|
    ensures Safe(cs, PurgeRows(y, p, fault))
  {
    hide V.Valid, Safe, RowKeys, StagedKeys, Distinct, Shaped, S.DeleteComment, S.DeleteTicket;
    var y' := PurgeRows(y, p, fault);
    Apart(cs, y, p);
    ValidOf(cs, y);
    match y.procs[p]
    case Eraser(tenant, id, isComment, false, doomed) =>
      if fault {
        OnlyMoves(cs, y, y', p, y'.procs[p]);
      } else {
        if isComment {
          CommentPurged(cs, y.db, tenant, id);
          V.ApplyKeepsValid(cs, y.db, S.OpDeleteComment(tenant, id));
        } else {
          TicketPurged(cs, y.db, tenant, id);
          V.ApplyKeepsValid(cs, y.db, S.OpDeleteTicket(tenant, id));
        }
        Moves(cs, y, y', p, y'.procs[p], {}, {});
      }
    case _ =>
  }

  lemma PostKeeps(cs: Casing, y: Sys, p: nat, body: string, author: string, now: Time, fault: bool)
    requires Safe(cs, y) && p < |y.procs| && (y.procs[p].Poster? ==> y.procs[p].letter.comment != "")
    ensures Safe(cs, RecordPost(y, p, body, author, now, fault))
  {
    hide V.Valid, Safe;
    var y' := RecordPost(y, p, body, author, now, fault);
    ValidOf(cs, y);
    match y.procs[p]
    case Poster(letter, false, false) =>
      V.ApplyKeepsValid(cs, y.db, S.OpCreateComment(PostRow(letter, body, author), now));
      OnlyMoves(cs, y, y', p, y'.procs[p]);
    case _ =>
  }

  lemma LookKeeps(cs: Casing, y: Sys, e: Event)
    requires Safe(cs, y) && (e.Look? || e.Matched?)
    ensures Safe(cs, Next(cs, y, e))
  {
    hide V.Valid, Safe, Distinct, StagedKeys;
    var y' := Next(cs, y, e);
    if Busy(y, e.p) {
      Apart(cs, y, e.p);
      ValidOf(cs, y);
      if e.Look? || (y.procs[e.p].phase.Match? && Unused(y, e.newId)) {
        if e.Look? { LookedOk(y.db, y.procs[e.p].mail, y.procs[e.p].phase, e.fault); }
        hide Looked;
        OnlyMoves(cs, y, y', e.p, y'.procs[e.p]);
      }
    }
  }

  lemma LookedOk(db: S.Db, m: Mail, phase: Phase, fault: bool)
    ensures var phase' := Looked(db, m, phase, fault);
            phase' == phase || ((phase.LookComment? || phase.LookTicket? || phase.LookAgain?) &&
                                !phase'.Upload? && !phase'.Discard? && !phase'.Record? &&
                                (phase'.Finished? ==> !Kept(phase'.answer)))
  {
  }

  /** Posters name fresh comments. */
  ghost predicate LettersNamed(y: Sys) {
    forall p :: 0 <= p < |y.procs| && y.procs[p].Poster? ==> y.procs[p].letter.comment != ""
  }

  lemma NextKeepsSafe(cs: Casing, y: Sys, e: Event)
    requires Safe(cs, y) && LettersNamed(y)
    ensures Safe(cs, Next(cs, y, e))
  {
    hide Safe, V.Valid, PutFile, WriteMain, RemoveObject, WriteNext, PurgeRows, RecordPost, Looked, S.Apply;
    var y' := Next(cs, y, e);
    match e
    case Deliver(m) => OnlyStarts(cs, y, y', Inbound(m, LookComment, [], false));
    case Erase(tenant, id, isComment) => OnlyStarts(cs, y, y', Eraser(tenant, id, isComment, false, {}));
    case Post(tenant, ticket, commentId, uuid, domain) =>
      if Unused(y, commentId) { OnlyStarts(cs, y, y', y'.procs[|y.procs|]); }
    case Look(_, _) => LookKeeps(cs, y, e);
    case Matched(_, _, _, _, _) => LookKeeps(cs, y, e);
    case Put(p, newId, fault) => if Busy(y, p) { PutKeeps(cs, y, p, newId, fault); }
    case WriteRow(p, newId, now, fault) => if Busy(y, p) { WriteMainKeeps(cs, y, p, newId, now, fault); }
    case Remove(p, key, fault) => if p < |y.procs| { RemoveKeeps(cs, y, p, key, fault); }
    case WriteFile(p, now, fault) => if Busy(y, p) { WriteNextKeeps(cs, y, p, now, fault); }
    case Purge(p, fault) => if p < |y.procs| { PurgeKeeps(cs, y, p, fault); }
    case WritePost(p, body, author, now, fault) => if p < |y.procs| { PostKeeps(cs, y, p, body, author, now, fault); }
    case Send(p) => SendKeeps(cs, y, e);
    case Other(op) => OtherKeeps(cs, y, e);
  }

  lemma SendKeeps(cs: Casing, y: Sys, e: Event)
    requires Safe(cs, y) && e.Send?
    ensures Safe(cs, Next(cs, y, e))
  {
    hide Safe, V.Valid;
    var p, y' := e.p, Next(cs, y, e);
    if p < |y.procs| && y.procs[p].Poster? && y.procs[p].recorded && !y.procs[p].done {
      ValidOf(cs, y);
      OnlyMoves(cs, y, y', p, y'.procs[p]);
    }
  }

  lemma OtherKeeps(cs: Casing, y: Sys, e: Event)
    requires Safe(cs, y) && e.Other?
    ensures Safe(cs, Next(cs, y, e))
  {
    hide Safe, V.Valid, S.Apply;
    if Permitted(y, e.op) {
      ValidOf(cs, y);
      QuietKeepsFiles(cs, y.db, e.op);
      V.ApplyKeepsValid(cs, y.db, e.op);
      OnlyTables(cs, y, Next(cs, y, e));
    }
  }
}
