/** What a process has written when it ends, over every run: a failed ingestion nothing, a sent mail its record. */
module PipelineWrites {
  import opened Rows
  import opened Text
  import opened Pipeline
  import opened PipelineSafety
  import opened PipelineMail
  import S = Store

  /** A step of process p. */
  predicate IsBy(e: Event, p: nat) {
    (e.Look? || e.Matched? || e.Put? || e.WriteRow? || e.Remove? ||
     e.WriteFile? || e.Purge? || e.WritePost? || e.Send?) && e.p == p
  }

  // ------------------------------------------------------------------------- failed ingestions

  /** A process is left alone by the steps of others, and stays what it is. */
  lemma OthersKeep(cs: Casing, y: Sys, e: Event, p: nat)
    requires p < |y.procs|
    ensures var y' := Next(cs, y, e);
            p < |y'.procs| && (y'.procs[p].Inbound? <==> y.procs[p].Inbound?) &&
            (y'.procs[p].Poster? <==> y.procs[p].Poster?) &&
            (!IsBy(e, p) ==> y'.procs[p] == y.procs[p])
  {
    hide Looked, RowWritten, S.CreateAttachment, S.DeleteComment, S.DeleteTicket, S.CreateComment, S.Apply,
      Permitted;
  }

  lemma NoProcess(cs: Casing, y: Sys, e: Event, p: nat)
    requires |y.procs| <= p && IsBy(e, p)
    ensures Next(cs, y, e) == y
  {
  }

  lemma RefusedRow(db: S.Db, m: Mail, reply: bool, ticket: string, id: string, now: Time, fault: bool)
    ensures var (db', phase) := RowWritten(db, m, reply, ticket, id, now, fault); !phase.Record? ==> db' == db
  {
    hide S.HasTicket, S.MessageTaken, S.ExternalTaken, S.MailboxKnown;
  }

  /** A step that writes a row leaves the process marked, and the mark stays. */
  lemma StepMarks(cs: Casing, y: Sys, e: Event, p: nat)
    requires p < |y.procs| && y.procs[p].Inbound? && ProcOk(y.procs[p]) && IsBy(e, p)
    ensures var y' := Next(cs, y, e);
            p < |y'.procs| && y'.procs[p].Inbound? && (y.procs[p].wrote || y'.db != y.db ==> y'.procs[p].wrote)
  {
    hide Looked, RowWritten, S.CreateAttachment;
    if e.WriteRow? && y.procs[p].phase.Upload? {
      var ph := y.procs[p].phase;
      RefusedRow(y.db, y.procs[p].mail, ph.reply, ph.ticket, e.newId, e.now, e.fault);
    }
  }

  /** While an ingestion is not marked, none of its steps has changed the store. */
  lemma {:induction false} UnmarkedWroteNothing(cs: Casing, states: seq<Sys>, events: seq<Event>, n: nat, p: nat)
    requires IsRun(cs, states, events) && n <= |events|
    requires p < |states[n].procs| ==> states[n].procs[p].Inbound? && !states[n].procs[p].wrote
    ensures forall i :: 0 <= i < n && IsBy(events[i], p) ==> states[i + 1].db == states[i].db
  {
    hide Next, Mailing;
    if n > 0 {
      var y, e := states[n - 1], events[n - 1];
      assert states[n - 1 + 1] == Next(cs, y, e);
      if p < |y.procs| {
        RunsAreSafe(cs, states, events, n - 1);
        OthersKeep(cs, y, e, p);
        assert ProcOk(y.procs[p]);
        if IsBy(e, p) { StepMarks(cs, y, e, p); }
      } else if IsBy(e, p) {
        NoProcess(cs, y, e, p);
      }
      UnmarkedWroteNothing(cs, states, events, n - 1, p);
    }
  }

  /** An ingestion that answers "failed" (the relay will retry it) has changed no row, in any run. */
  lemma FailedWroteNothing(cs: Casing, states: seq<Sys>, events: seq<Event>, n: nat, p: nat, i: nat)
    requires IsRun(cs, states, events) && i < n <= |events| && IsBy(events[i], p)
    requires p < |states[n].procs| && states[n].procs[p].Inbound? && states[n].procs[p].phase == Finished(Failed)
    ensures states[i + 1].db == states[i].db
  {
    hide Next, Mailing;
    RunsAreSafe(cs, states, events, n);
    assert ProcOk(states[n].procs[p]);
    UnmarkedWroteNothing(cs, states, events, n, p);
  }

  // ------------------------------------------------------------------------------ sent mail

  /** The letter's comment is there, public and with its Message-ID. */
  predicate RecordIn(comments: map<string, Comment>, l: Sent) { l.comment in comments && OnRecord(comments, l) }

  /** A letter marked as recorded was recorded in some state so far. */
  lemma {:induction false} MarkedWasRecorded(cs: Casing, states: seq<Sys>, events: seq<Event>, n: nat, p: nat)
    requires IsRun(cs, states, events) && n <= |events|
    requires p < |states[n].procs| && states[n].procs[p].Poster? && states[n].procs[p].recorded
    ensures exists j :: 0 <= j <= n && RecordIn(states[j].db.comments, states[n].procs[p].letter)
  {
    hide Next, RecordIn;
    if n > 0 {
      var y, e := states[n - 1], events[n - 1];
      assert states[n - 1 + 1] == Next(cs, y, e);
      PosterStep(cs, y, e, p);
      if p < |y.procs| && y.procs[p].Poster? && y.procs[p].recorded { MarkedWasRecorded(cs, states, events, n - 1, p); }
    }
  }

  /** A letter gets its mark by its record. */
  lemma PosterStep(cs: Casing, y: Sys, e: Event, p: nat)
    requires p < |Next(cs, y, e).procs| && Next(cs, y, e).procs[p].Poster? && Next(cs, y, e).procs[p].recorded
    ensures var y' := Next(cs, y, e);
            (p < |y.procs| && y.procs[p].Poster? && y.procs[p].recorded && y'.procs[p].letter == y.procs[p].letter) ||
            RecordIn(y'.db.comments, y'.procs[p].letter)
  {
    hide Looked, RowWritten, S.CreateAttachment, S.DeleteComment, S.DeleteTicket, S.Apply, Permitted, S.HasTicket,
      S.MessageTaken;
  }

  /** Every mail handed over was recorded in an earlier state: public, on its ticket, with its Message-ID. */
  lemma {:induction false} SentAfterRecorded(cs: Casing, states: seq<Sys>, events: seq<Event>, n: nat, i: nat)
    requires IsRun(cs, states, events) && n <= |events| && i < |states[n].sent|
    ensures exists j :: 0 <= j < n && RecordIn(states[j].db.comments, states[n].sent[i])
  {
    hide Next, RecordIn;
    if n > 0 {
      var y, e := states[n - 1], events[n - 1];
      assert states[n - 1 + 1] == Next(cs, y, e);
      SendStep(cs, y, e);
      if i < |y.sent| {
        SentAfterRecorded(cs, states, events, n - 1, i);
      } else {
        MarkedWasRecorded(cs, states, events, n - 1, e.p);
      }
    }
  }

  lemma SendStep(cs: Casing, y: Sys, e: Event)
    ensures var y' := Next(cs, y, e);
            y'.sent == y.sent ||
            (e.Send? && e.p < |y.procs| && y.procs[e.p].Poster? && y.procs[e.p].recorded &&
             y'.sent == y.sent + [y.procs[e.p].letter])
  {
    hide Looked, RowWritten, S.CreateAttachment, S.DeleteComment, S.DeleteTicket, S.CreateComment, S.Apply,
      Permitted;
  }
}
