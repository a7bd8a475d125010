/** What every run of the administration helper does to its journal, wherever an append is cut short. */
module AdminJournal {
  import opened Prelude
  import opened ReviewedOperations
  import opened AdminSafety
  import Json
  import Patterns
  import Journal = AuditJournal

  /** What an invocation does to the journal: nothing; one record, with or without an answer to the caller; part of a
      record; or anything behind a last line that lacks its line break. */
  datatype Mark = Untouched | Answered | Silent | Cut | Fused(answered: bool)

  function MarkOf(file: Journal.File, write: Journal.Write): Mark {
    if write.Reached().Nothing? then Untouched
    else if !file.AtLineStart() then Fused(write.Complete?)
    else if write.Complete? then Answered
    else if write.reach.Part? then Cut else Silent
  }

  /** The write of an invocation that gets as far as writing its record. */
  function Attempt(h: Host, s: State, op: Operation, e: Env): Option<Journal.Write> {
    if e.Gate(Operator, e.operatorMatches).Returned? && e.Gate(Lock, true).Returned? && Context(h, s, op, e).Returned?
      && !Dispatch(h, s, op, e).1.Crashed? && e.journalAccessible && Journal.Accepted(h.sha, s.journal.lines)
    then Some(e.journalWrite)
    else None
  }

  function InvocationMark(h: Host, s: State, op: Operation, e: Env): Mark {
    var attempt := Attempt(h, s, op, e);
    if attempt.Some? then MarkOf(s.journal, attempt.value) else Untouched
  }

  /** What each invocation of a run does to the journal. */
  function Marks(h: Host, s: State, calls: seq<Call>): seq<Mark>
    decreases |calls|
  {
    if calls == [] then []
    else
      [InvocationMark(h, s, calls[0].operation, calls[0].env)]
      + Marks(h, Invoke(h, s, calls[0].operation, calls[0].env).0, calls[1..])
  }

  /** The number of records that can be read back. */
  function Readable(h: Host, journal: Journal.File): nat { Journal.ReadableLines(h.sha, journal.lines) }

  predicate Sound(h: Host, journal: Journal.File) { Journal.Accepted(h.sha, journal.lines) }

  /** What each mark says of the journal before and after, and of the answer to the caller. */
  ghost predicate Explains(h: Host, journal: Journal.File, next: Journal.File, returned: bool, mark: Mark) {
    && (returned <==> mark.Answered? || mark == Fused(true))
    && (mark.Untouched? ==> next == journal)
    && (!mark.Untouched? ==> Sound(h, journal) && (mark.Fused? <==> !journal.AtLineStart()))
    && (Sound(h, next) <==> Sound(h, journal) && !mark.Cut? && !mark.Fused?)
    && (mark.Answered? || mark.Silent? ==> journal.lines < next.lines && (mark.Answered? ==> next.terminated))
    && Readable(h, next) ==
       Readable(h, journal) + (if mark.Answered? || mark.Silent? then 1 else 0) - if mark.Fused? then 1 else 0
  }

  lemma WriteExplained(h: Host, file: Journal.File, payload: Journal.Entry, write: Journal.Write)
    requires Sound(h, file)
    requires payload.Keys !! {Journal.Sequence, Journal.PreviousRecordSha256, Journal.RecordSha256}
    ensures
      var record, mark := Journal.NextRecord(h.sha, file.lines, payload), MarkOf(file, write);
      var next := Journal.Written(file, record, write.Reached());
      && Explains(h, file, next, write.Complete?, mark)
      && (mark.Answered? || mark.Silent? ==> next.lines == file.lines + [Journal.Record(record)])
  {
    hide Journal.Accepted, Journal.NextRecord, Journal.ReadableLines, Journal.Chained, Journal.Link;
    Journal.AppendPreservesPayload(h.sha, file, payload);
    Journal.WrittenAccepted(h.sha, file, Journal.NextRecord(h.sha, file.lines, payload), write.Reached());
  }

  lemma UntouchedExplained(h: Host, file: Journal.File)
    ensures Explains(h, file, file, false, Untouched)
  {
  }

  /** The record of an invocation is chained to the journal and holds its report. An answer is given only after the
      record was written; behind a line that lacks its break, the file is not accepted any more. */
  lemma RecordingFacts(h: Host, journal: Journal.File, op: Operation, e: Env, context: Option<Reviewed>,
                       outcome: Outcome<Payload>)
    requires !outcome.Crashed?
    ensures
      var (next, final) := Recording(h, journal, op, e, context, outcome);
      var mark := if e.journalAccessible && Sound(h, journal) then MarkOf(journal, e.journalWrite) else Untouched;
      var record := Journal.NextRecord(h.sha, journal.lines, h.Encode(ReportOf(op, e, context, outcome)));
      && Explains(h, journal, next, final.Returned?, mark)
      && (final.Returned? ==> final.value == PayloadOf(op, outcome))
      && (mark.Answered? || mark.Silent? ==> next.lines == journal.lines + [Journal.Record(record)])
  {
    var payload := h.Encode(ReportOf(op, e, context, outcome));
    assert payload.Keys !! {Journal.Sequence, Journal.PreviousRecordSha256, Journal.RecordSha256};
    hide Explains, Journal.Accepted, Journal.NextRecord, Journal.Written, Host.Encode, ReportOf, PayloadOf;
    UntouchedExplained(h, journal);
    if Sound(h, journal) { WriteExplained(h, journal, payload, e.journalWrite); }
    hide MarkOf;
  }

  lemma OperateKeepsJournal(h: Host, s: State, op: Operation, e: Env)
    ensures Operate(h, s, op, e).0.journal == s.journal
  {
    hide StatusStep, VerifyStep, ReviewStep, ExecuteStep, RevokeStep, AuditRecords;
    match op {
      case Status => StatusAdvances(h, s, e);
      case Verify => VerifyAdvances(s, e);
      case Review => ReviewStepAdvances(h, s, e);
      case AuditVerify =>
      case Revoke => RevokeTouchesPolicy(s, e);
      case _ => ExecuteKeepsJournal(h, s, op, e);
    }
  }

  lemma ExecuteKeepsJournal(h: Host, s: State, op: Operation, e: Env)
    ensures ExecuteStep(h, s, op, e).0.journal == s.journal
  {
    hide Prepare, ExecutePrepared;
    var prepared := Prepare(h, s, op, e);
    if prepared.outcome.Returned? {
      ExecuteStops(WithCommands(s, prepared.commands), op, e, prepared.outcome.value);
    }
  }

  /** One invocation, whatever the state it finds: its mark says what became of the journal and of the caller. */
  lemma InvocationFacts(h: Host, s: State, op: Operation, e: Env)
    ensures
      var (t, outcome) := Invoke(h, s, op, e);
      Explains(h, s.journal, t.journal, outcome.Returned?, InvocationMark(h, s, op, e))
  {
    hide Operate, VerifyInstalled, Context, Recording, Explains, MarkOf, PayloadOf, ReportOf, Journal.Accepted,
         Journal.NextRecord, Journal.Written, Host.Encode;
    DispatchKeepsJournal(h, s, op, e);
    UntouchedExplained(h, s.journal);
    var context := Context(h, s, op, e);
    var (after, outcome) := Dispatch(h, s, op, e);
    hide Dispatch;
    if context.Returned? && !outcome.Crashed? {
      RecordingFacts(h, after.journal, op, e, context.value, outcome);
    }
  }

  lemma DispatchKeepsJournal(h: Host, s: State, op: Operation, e: Env)
    ensures Dispatch(h, s, op, e).0.journal == s.journal
  {
    OperateKeepsJournal(h, s, op, e);
    hide Operate, VerifyInstalled;
  }

  ghost predicate NoneFused(marks: seq<Mark>) { Fused(true) !in marks && Fused(false) !in marks }

  /** How often a mark occurs. */
  ghost function Times(marks: seq<Mark>, mark: Mark): nat { multiset(marks)[mark] }

  lemma TimesHead(marks: seq<Mark>, mark: Mark)
    requires marks != []
    ensures Times(marks, mark) == Times(marks[1..], mark) + if marks[0] == mark then 1 else 0
    ensures mark in marks <==> Times(marks, mark) > 0
  {
    assert marks == [marks[0]] + marks[1..];
  }

  /** The account of a run from any state: a record that was stored in silence counts without an answer, and one that was
      written behind a line without a break counts not at all and costs the record on that line. */
  lemma {:induction false} JournalAccount(h: Host, s: State, calls: seq<Call>)
    ensures
      var marks, last := Marks(h, s, calls), Run(h, s, calls).journal;
      && Readable(h, last) + 2 * Times(marks, Fused(true)) + Times(marks, Fused(false))
         == Readable(h, s.journal) + Returns(Outcomes(h, s, calls)) + Times(marks, Silent)
      && (Sound(h, last) <==> Sound(h, s.journal) && Cut !in marks && NoneFused(marks))
      && Times(marks, Cut) + Times(marks, Fused(true)) + Times(marks, Fused(false)) <= (if Sound(h, s.journal) then 1 else 0)
      && Readable(h, last) <= Readable(h, s.journal) + |calls|
    decreases |calls|
  {
    hide Invoke, InvocationMark, Journal.Accepted, Journal.ReadableLines;
    if calls != [] {
      var op, e, marks := calls[0].operation, calls[0].env, Marks(h, s, calls);
      var (t, outcome) := Invoke(h, s, op, e);
      InvocationFacts(h, s, op, e);
      JournalAccount(h, t, calls[1..]);
      assert marks[1..] == Marks(h, t, calls[1..]);
      assert Outcomes(h, s, calls)[1..] == Outcomes(h, t, calls[1..]);
      TimesHead(marks, Cut);
      TimesHead(marks, Silent);
      TimesHead(marks, Fused(true));
      TimesHead(marks, Fused(false));
      hide Run, Marks, Outcomes, Times, Readable, Sound;
    }
  }

  /** Nothing is written behind a line without a break unless an earlier append left one. */
  lemma {:induction false} FusedBehindSilent(h: Host, s: State, calls: seq<Call>)
    requires s.journal.AtLineStart() || !Sound(h, s.journal)
    requires Silent !in Marks(h, s, calls)
    ensures NoneFused(Marks(h, s, calls))
    decreases |calls|
  {
    hide Invoke, InvocationMark, Journal.Accepted, Journal.ReadableLines;
    if calls != [] {
      var t := Invoke(h, s, calls[0].operation, calls[0].env).0;
      InvocationFacts(h, s, calls[0].operation, calls[0].env);
      var marks := Marks(h, s, calls);
      assert marks[0] != Silent && marks == [marks[0]] + Marks(h, t, calls[1..]);
      FusedBehindSilent(h, t, calls[1..]);
    }
  }

  /** The journal of a run against its answers. It stays acceptable exactly when no record was cut and none was written
      behind a line without a break. In a run without the latter it holds a record for every answer and at most one for
      every invocation, and as many as answers exactly when no append ended after its record was stored. */
  lemma JournalCountsReturns(h: Host, calls: seq<Call>)
    ensures
      var last, marks := Run(h, Installed(), calls).journal, Marks(h, Installed(), calls);
      var records, answers := Readable(h, last), Returns(Outcomes(h, Installed(), calls));
      && (Sound(h, last) <==> Cut !in marks && NoneFused(marks))
      && (Sound(h, last) ==> records == |last.lines|)
      && (NoneFused(marks) ==> answers <= records <= |calls| && (records == answers <==> Silent !in marks))
      && (Silent !in marks ==> NoneFused(marks))
      && (records == answers <==> Times(marks, Silent) == 2 * Times(marks, Fused(true)) + Times(marks, Fused(false)))
  {
    JournalAccount(h, Installed(), calls);
    if Silent !in Marks(h, Installed(), calls) { FusedBehindSilent(h, Installed(), calls); }
    hide Run, Marks, Outcomes;
  }

  /** A revocation that returned its report closes the helper for good: every later answer is an error, nothing but the
      journal changes, and the journal still gets one record for each answer, unless an append ended in silence. */
  lemma RevocationJournaled(h: Host, before: seq<Call>, e: Env, after: seq<Call>)
    requires Invoke(h, Run(h, Installed(), before), Revoke, e).1 == Returned(RevokedReport)
    ensures
      var s := Run(h, Installed(), before + [Call(Revoke, e)]);
      var t, outcomes, marks := Run(h, s, after), Outcomes(h, s, after), Marks(h, s, after);
      && !s.sudoers && t == s.(journal := t.journal)
      && (forall o | o in outcomes && o.Returned? :: o.value.ErrorReport?)
      && (NoneFused(marks) ==> Readable(h, t.journal) == Readable(h, s.journal) + Returns(outcomes) + Times(marks, Silent))
  {
    RunSnoc(h, Installed(), before, Call(Revoke, e));
    var s := Run(h, Installed(), before + [Call(Revoke, e)]);
    RevokeIsAbsorbing(h, Run(h, Installed(), before), e, s, after);
    JournalAccount(h, s, after);
    hide Run, Marks, Outcomes, Invoke;
  }

  /** Everything passes and succeeds, up to the write of the record. */
  function Calm(digest: Patterns.HexDigest, write: Journal.Write): Env {
    Env(_ => Pass, true, 0, 0, 0, 0, 0, 0, 0, true, true, _ => None, true, true, None, digest, "", Json.Null, "",
        _ => true, false, true, "", _ => true, Json.Null, true, write)
  }

  lemma CalmInvocation(h: Host, s: State, digest: Patterns.HexDigest, write: Journal.Write)
    requires s.sudoers && Sound(h, s.journal)
    ensures
      var e := Calm(digest, write);
      var (t, outcome) := Invoke(h, s, AuditVerify, e);
      && InvocationMark(h, s, AuditVerify, e) == MarkOf(s.journal, write)
      && (outcome.Returned? <==> write.Complete?)
      && t.sudoers
      && (!write.Reached().Nothing? ==> t.journal.lines != [] && t.journal.terminated == write.Reached().Whole?)
  {
    hide Journal.Accepted, Journal.NextRecord, Journal.Link, MarkOf, Host.Encode, ReportOf;
  }

  /** The invocations of a short run, one by one. */
  lemma RunTwo(h: Host, s: State, first: Call, second: Call)
    ensures
      var calls := [first, second];
      var (t, one) := Invoke(h, s, first.operation, first.env);
      var (u, two) := Invoke(h, t, second.operation, second.env);
      && Run(h, s, calls) == u && Outcomes(h, s, calls) == [one, two]
      && Marks(h, s, calls)
         == [InvocationMark(h, s, first.operation, first.env), InvocationMark(h, t, second.operation, second.env)]
  {
    hide Invoke, InvocationMark;
    RunHead(h, s, [first, second]);
    var t := Invoke(h, s, first.operation, first.env).0;
    RunHead(h, t, [second]);
    assert [first, second][1..] == [second] && [second][1..] == [];
    RunNone(h, Invoke(h, t, second.operation, second.env).0);
    hide Run, Outcomes, Marks;
  }

  lemma RunHead(h: Host, s: State, calls: seq<Call>)
    requires calls != []
    ensures
      var (t, outcome) := Invoke(h, s, calls[0].operation, calls[0].env);
      && Run(h, s, calls) == Run(h, t, calls[1..])
      && Outcomes(h, s, calls) == [outcome] + Outcomes(h, t, calls[1..])
      && Marks(h, s, calls) == [InvocationMark(h, s, calls[0].operation, calls[0].env)] + Marks(h, t, calls[1..])
  {
    hide Invoke, InvocationMark;
  }

  lemma RunNone(h: Host, s: State)
    ensures Run(h, s, []) == s && Outcomes(h, s, []) == [] && Marks(h, s, []) == []
  {
  }

  /** An `audit-verify` whose append fails after the write, and one that succeeds: two records are accepted, and only one
      caller has an answer. */
  lemma StoredWithoutAnswer(h: Host, digest: Patterns.HexDigest, raised: bool)
    ensures
      var calls := [Call(AuditVerify, Calm(digest, Journal.Stopped(Journal.Whole, raised))),
                    Call(AuditVerify, Calm(digest, Journal.Complete))];
      var last := Run(h, Installed(), calls).journal;
      Sound(h, last) && Readable(h, last) == 2 && Returns(Outcomes(h, Installed(), calls)) == 1
  {
    TwoCalm(h, digest, Journal.Stopped(Journal.Whole, raised), Journal.Complete);
    hide Run, Marks, Outcomes;
  }

  /** An `audit-verify` whose append stops just before the line break, and one that succeeds: the second is answered, and
      yet no record can be read back any more. */
  lemma AnsweredWithoutRecord(h: Host, digest: Patterns.HexDigest, raised: bool)
    ensures
      var calls := [Call(AuditVerify, Calm(digest, Journal.Stopped(Journal.WithoutBreak, raised))),
                    Call(AuditVerify, Calm(digest, Journal.Complete))];
      var last := Run(h, Installed(), calls).journal;
      !Sound(h, last) && Readable(h, last) == 0 && Returns(Outcomes(h, Installed(), calls)) == 1
  {
    TwoCalm(h, digest, Journal.Stopped(Journal.WithoutBreak, raised), Journal.Complete);
    hide Run, Marks, Outcomes;
  }

  lemma TwoCalm(h: Host, digest: Patterns.HexDigest, first: Journal.Write, second: Journal.Write)
    requires first.Stopped? && !first.reach.Nothing? && !first.reach.Part? && second.Complete?
    ensures
      var calls := [Call(AuditVerify, Calm(digest, first)), Call(AuditVerify, Calm(digest, second))];
      var last := Run(h, Installed(), calls).journal;
      && Returns(Outcomes(h, Installed(), calls)) == 1
      && (Sound(h, last) <==> first.reach.Whole?) && Readable(h, last) == (if first.reach.Whole? then 2 else 0)
  {
    hide Invoke, InvocationMark, Calm, Run, Marks, Outcomes, Journal.ReadableLines;
    var s, e, f := Installed(), Calm(digest, first), Calm(digest, second);
    CalmInvocation(h, s, digest, first);
    InvocationFacts(h, s, AuditVerify, e);
    assert Readable(h, s.journal) == 0;
    hide Journal.Accepted;
    var (t, one) := Invoke(h, s, AuditVerify, e);
    assert Sound(h, t.journal) && Readable(h, t.journal) == 1 && !one.Returned?;
    CalmInvocation(h, t, digest, second);
    InvocationFacts(h, t, AuditVerify, f);
    var (u, two) := Invoke(h, t, AuditVerify, f);
    assert two.Returned? && (Sound(h, u.journal) <==> first.reach.Whole?);
    assert Readable(h, u.journal) == if first.reach.Whole? then 2 else 0;
    hide Explains, Sound, Readable, MarkOf;
    RunTwo(h, s, Call(AuditVerify, e), Call(AuditVerify, f));
    assert [one, two][1..] == [two] && [two][1..] == [] && Returns([two]) == 1;
    assert Returns([one, two]) == Returns([two]);
  }
}
