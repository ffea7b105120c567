/**
 * The auto-renew job: every pass in the renewal window is reminded,
 * switched off, or extended; the stamps are committed as one batch at the
 * end. scheduler.ts holds the first version of the job (no notifications);
 * passExtend.ts the second.
 */
module PassExtend {
  import opened Wrappers
  import opened Tables
  import opened WrapperResults
  import opened Transactions
  import opened Passes
  import Results
  import Notifications

  /** A pass as `getExtendablePass({}, true)` returns it: with its program and user when they exist. */
  datatype Candidate = Candidate(pass: PassRow, program: Option<ProgramRow>, user: Option<UserRow>)

  predicate Loaded(c: Candidate) {
    c.program.Some? && c.user.Some?
  }

  /** The query result in some order: each extendable pass once, with what `include` loads. */
  predicate Fetched(t: Tables, cs: seq<Candidate>, now: int) {
    && (forall i :: 0 <= i < |cs| ==>
          && cs[i].pass.passId in GetExtendablePass(t, None, None, now)
          && cs[i].pass == t.passes[cs[i].pass.passId]
          && cs[i].program == (if cs[i].pass.passProgramId in t.programs then Some(t.programs[cs[i].pass.passProgramId]) else None)
          && cs[i].user == (if cs[i].pass.userId in t.users then Some(t.users[cs[i].pass.userId]) else None))
    && (forall i, j :: 0 <= i < j < |cs| ==> cs[i].pass.passId != cs[j].pass.passId)
    && (forall k :: k in GetExtendablePass(t, None, None, now) ==> exists i :: 0 <= i < |cs| && cs[i].pass.passId == k)
  }

  /** The texts dayjs formats for one pass (days left, the new expiry date) and `err.details.message` as printed. */
  datatype Notes = Notes(shortMessage: string, message: string, extendedDate: string, reason: string)

  /** What the job meets for one pass: the payments service's answers, its texts, the notification key. */
  datatype PassInputs = PassInputs(answers: PaymentAnswers, notes: Notes, notificationId: string)

  /** How a version of the job treats its notifications. */
  datatype Notices =
    | Silent     // none are built
    | Discarded  // built and awaited, but the thunk is dropped
    | Queued     // built and added to the batch

  /** What happened to one pass. */
  datatype Verdict =
    | Skipped                   // the program or the user was not loaded
    | Reminded                  // not auto-renewing: stamped
    | Stopped                   // off sale or not renewable: auto-renew switched off
    | Extended                  // extended at once, then stamped
    | Refused(failure: Failure) // a failure classified as a refusal: auto-renew switched off
    | Reported(failure: Failure) // any other failure: reported, nothing more queued
    | Aborted(failure: Failure) // building the refusal notice threw: the job stops

  /** One pass: its verdict, the writes it queued, its payment calls, and the write committed at once. */
  datatype Step = Step(verdict: Verdict, queue: seq<Op>, calls: seq<Call>, write: Option<Op>)

  function Title(program: ProgramRow, suffix: string): string {
    "🎫 " + program.name + " 패스 / " + suffix
  }

  function InfoDraft(title: string, description: string): Notifications.Draft {
    Notifications.Draft(Info, Some(title), Some(description), None, None, None, None)
  }

  function ReminderDraft(program: ProgramRow, notes: Notes): Notifications.Draft {
    InfoDraft(Title(program, notes.shortMessage + " 만료예정"), "패스는 " + notes.message)
  }

  function StoppedDraft(program: ProgramRow): Notifications.Draft {
    InfoDraft(Title(program, "자동연장 실패"), "해당 패스는 판매가 중단되어 더이상 연장할 수 없습니다.")
  }

  function ExtendedDraft(program: ProgramRow, notes: Notes): Notifications.Draft {
    InfoDraft(Title(program, "자동연장 성공"), notes.extendedDate + "까지 이용할 수 있도록 연장되었습니다.")
  }

  function RefusedDraft(program: ProgramRow, notes: Notes): Notifications.Draft {
    InfoDraft(Title(program, "자동연장 실패"), "자동으로 연장할 수 없습니다. " + notes.reason)
  }

  /** None of the job's notifications carries a URL. */
  predicate NoUri(s: string) {
    false
  }

  /** `await Notification.createNotification(user, draft)`, and what the job does with the thunk. */
  function Notify(notices: Notices, userId: string, d: Notifications.Draft, notificationId: string)
    : (r: Result<seq<Op>, Failure>)
    ensures notices != Queued && r.Ok? ==> r.value == []
    ensures notices == Silent ==> r == Ok([])
    ensures notices != Silent ==> (r.Ok? <==> Notifications.ValidDraft(d, NoUri))
    ensures notices == Queued && r.Ok? ==>
              |r.value| == 1 && r.value[0] == Notifications.CreateNotification(userId, d, NoUri, notificationId).value
  {
    if notices == Silent then Ok([])
    else
      match Notifications.CreateNotification(userId, d, NoUri, notificationId)
      case Err(e) => Err(e)
      case Ok(op) => if notices == Queued then Ok([op]) else Ok([])
  }

  /**
   * The classifier as written: `err.name === 'Result'` and
   * `[221, 215].includes(err.details.opcode)`.
   */
  predicate RefusedAsWritten(f: Failure) {
    NamedResult(f) && (DetailsOpcode(f) == Some(Num(221)) || DetailsOpcode(f) == Some(Num(215)))
  }

  /** The classifier evidently intended: the failure's own opcode is 221 or 215. */
  predicate RefusedByOpcode(f: Failure) {
    OwnOpcode(f) == Some(221) || OwnOpcode(f) == Some(215)
  }

  /** A refusal thrown from the `RESULT` table carries its opcode in `.opcode` and no details, so it never matches. */
  lemma TableFailuresNeverRefusedAsWritten(c: Results.Code)
    ensures !RefusedAsWritten(Results.Throw(c))
  {
  }

  /** A refusal from the payments service, or a WrapperResult with opcode 221, escapes the classifier as written. */
  lemma ClassifierMissesRefusals()
    ensures !RefusedAsWritten(Remote(Some(221)))
    ensures RefusedByOpcode(Remote(Some(221)))
    ensures var w := Result(NewWrapperResult(Props(221, 400, None, None, None, None, None)));
            !RefusedAsWritten(w) && RefusedByOpcode(w)
  {
  }

  /** The `catch` block: switch auto-renew off after a refusal (and notify), report anything else. */
  function Catch(f: Failure, queued: seq<Op>, calls: seq<Call>, write: Option<Op>, c: Candidate, inputs: PassInputs,
                 now: int, refused: Failure -> bool, notices: Notices): (s: Step)
    requires Loaded(c)
    ensures refused(f) ==> s.verdict == Refused(f) || (s.verdict.Aborted? && notices != Silent)
    ensures refused(f) ==> |s.queue| > |queued| && s.queue[..|queued| + 1] == queued + [ModifyPass(c.pass, Some(false), Some(now))]
    ensures !refused(f) ==> s == Step(Reported(f), queued, calls, write)
    ensures s.calls == calls && s.write == write
  {
    if refused(f) then
      var off := queued + [ModifyPass(c.pass, Some(false), Some(now))];
      match Notify(notices, c.user.value.userId, RefusedDraft(c.program.value, inputs.notes), inputs.notificationId)
      case Err(e) => Step(Aborted(e), off, calls, write)
      case Ok(ns) =>
        assert (off + ns)[..|queued| + 1] == off;
        Step(Refused(f), off + ns, calls, write)
    else Step(Reported(f), queued, calls, write)
  }

  /**
   * One iteration of the loop over passes, on database `t`: the reminder,
   * the switch-off, or the extension (committed at once) followed by the
   * stamp; any failure goes to `Catch`.
   */
  function Evaluate(c: Candidate, inputs: PassInputs, now: int, refused: Failure -> bool, notices: Notices, t: Tables)
    : (s: Step)
    ensures s.verdict.Skipped? <==> !Loaded(c)
  {
    if !Loaded(c) then Step(Skipped, [], [], None)
    else
      var program := c.program.value;
      var userId := c.user.value.userId;
      var stamp := ModifyPass(c.pass, None, Some(now));
      var off := ModifyPass(c.pass, Some(false), Some(now));
      if !c.pass.autoRenew then
        match Notify(notices, userId, ReminderDraft(program, inputs.notes), inputs.notificationId)
        case Err(e) => Catch(e, [stamp], [], None, c, inputs, now, refused, notices)
        case Ok(ns) => Step(Reminded, [stamp] + ns, [], None)
      else if !program.isSale || !program.allowRenew then
        match Notify(notices, userId, StoppedDraft(program), inputs.notificationId)
        case Err(e) => Catch(e, [off], [], None, c, inputs, now, refused, notices)
        case Ok(ns) => Step(Stopped, [off] + ns, [], None)
      else
        var o := ExtendPass(t, c.pass, c.program, c.user, false, inputs.answers, now);
        match o.result
        case Err(e) => Catch(e, [], o.calls, None, c, inputs, now, refused, notices)
        case Ok(op) =>
          match Apply(t, op)
          case Err(e) => Catch(e, [], o.calls, Some(op), c, inputs, now, refused, notices)
          case Ok(_) =>
            match Notify(notices, userId, ExtendedDraft(program, inputs.notes), inputs.notificationId)
            case Err(e) => Catch(e, [stamp], o.calls, Some(op), c, inputs, now, refused, notices)
            case Ok(ns) => Step(Extended, [stamp] + ns, o.calls, Some(op))
  }

  /** The database after a step's immediate write, which stands alone: applied, or nothing. */
  function AfterWrite(t: Tables, write: Option<Op>): Tables {
    if write.Some? && Apply(t, write.value).Ok? then Apply(t, write.value).value.0 else t
  }

  /** A pass whose program or user is missing is skipped: nothing queued, nothing called. */
  lemma UnloadedSkipped(c: Candidate, inputs: PassInputs, now: int, refused: Failure -> bool, notices: Notices, t: Tables)
    requires !Loaded(c)
    ensures Evaluate(c, inputs, now, refused, notices, t) == Step(Skipped, [], [], None)
  {
  }

  /** A pass that does not auto-renew is only stamped: no payment call, no extension, `autoRenew` untouched. */
  lemma ReminderOnlyStamps(c: Candidate, inputs: PassInputs, now: int, refused: Failure -> bool, notices: Notices, t: Tables)
    requires Loaded(c) && !c.pass.autoRenew
    requires !refused(JoiRejected)
    ensures var s := Evaluate(c, inputs, now, refused, notices, t);
            && s.calls == [] && s.write.None?
            && s.queue[0] == ModifyPass(c.pass, None, Some(now))
            && s.queue[0].passPatch.autoRenew == Keep
            && (s.verdict.Reminded? || s.verdict == Reported(JoiRejected))
            && (notices == Silent ==> s == Step(Reminded, [ModifyPass(c.pass, None, Some(now))], [], None))
  {
  }

  /** An auto-renewing pass of a program off sale or not renewable is switched off, with no charge. */
  lemma StoppedWithoutCharge(c: Candidate, inputs: PassInputs, now: int, refused: Failure -> bool, notices: Notices, t: Tables)
    requires Loaded(c) && c.pass.autoRenew && (!c.program.value.isSale || !c.program.value.allowRenew)
    requires !refused(JoiRejected)
    ensures var s := Evaluate(c, inputs, now, refused, notices, t);
            && s.calls == [] && s.write.None?
            && s.queue[0] == ModifyPass(c.pass, Some(false), Some(now))
            && (notices == Silent ==> s == Step(Stopped, [ModifyPass(c.pass, Some(false), Some(now))], [], None))
  {
  }

  /**
   * Otherwise the extension is prepared (its payment calls made) and
   * committed on its own; only after it went through is the stamp queued.
   */
  lemma ExtensionCommittedFirst(c: Candidate, inputs: PassInputs, now: int, refused: Failure -> bool, notices: Notices,
                                t: Tables)
    requires Loaded(c) && c.pass.autoRenew && c.program.value.isSale && c.program.value.allowRenew
    ensures var s := Evaluate(c, inputs, now, refused, notices, t);
            var o := ExtendPass(t, c.pass, c.program, c.user, false, inputs.answers, now);
            && s.calls == o.calls
            && (s.write.Some? <==> o.result.Ok?)
            && (s.write.Some? ==> s.write.value == o.result.value)
            && (s.verdict == Extended ==> s.write.Some? && Apply(t, s.write.value).Ok?
                                          && s.queue[0] == ModifyPass(c.pass, None, Some(now)))
  {
  }

  /** A failure of the extension that is not classified as a refusal queues nothing: the pass stays in the window. */
  lemma UnclassifiedQueuesNothing(c: Candidate, inputs: PassInputs, now: int, refused: Failure -> bool, notices: Notices,
                                  t: Tables)
    requires Loaded(c) && c.pass.autoRenew && c.program.value.isSale && c.program.value.allowRenew
    requires ExtendPass(t, c.pass, c.program, c.user, false, inputs.answers, now).result.Err?
    requires !refused(ExtendPass(t, c.pass, c.program, c.user, false, inputs.answers, now).result.error)
    ensures Evaluate(c, inputs, now, refused, notices, t).queue == []
    ensures Evaluate(c, inputs, now, refused, notices, t).verdict.Reported?
  {
  }

  /** A failure classified as a refusal switches auto-renew off, with the stamp. */
  lemma RefusalSwitchesOff(c: Candidate, inputs: PassInputs, now: int, refused: Failure -> bool, notices: Notices,
                           t: Tables)
    requires Loaded(c) && c.pass.autoRenew && c.program.value.isSale && c.program.value.allowRenew
    requires ExtendPass(t, c.pass, c.program, c.user, false, inputs.answers, now).result.Err?
    requires refused(ExtendPass(t, c.pass, c.program, c.user, false, inputs.answers, now).result.error)
    ensures Evaluate(c, inputs, now, refused, notices, t).queue[0] == ModifyPass(c.pass, Some(false), Some(now))
  {
  }

  /** With the notices queued, each reminder, switch-off and extension also queues its notification, after the stamp. */
  lemma QueuedNoticeFollows(c: Candidate, inputs: PassInputs, now: int, refused: Failure -> bool, t: Tables)
    requires Loaded(c)
    ensures var s := Evaluate(c, inputs, now, refused, Queued, t);
            s.verdict == Reminded || s.verdict == Stopped || s.verdict == Extended ==>
              |s.queue| == 2 && s.queue[1].CreateNotification? && s.queue[1].notification.userId == c.user.value.userId
              && s.queue[1].notification.notificationId == inputs.notificationId
  {
  }

  /** The job so far: the database, the verdicts, the queued writes, and whether it stopped. */
  datatype Progress = Progress(tables: Tables, verdicts: seq<Verdict>, queued: seq<Op>, aborted: bool)

  /** The loop over `cs`, pass by pass, stopping at an abort. */
  function Sweep(t: Tables, cs: seq<Candidate>, inputs: string -> PassInputs, now: int, refused: Failure -> bool,
                 notices: Notices): (p: Progress)
    ensures |p.verdicts| <= |cs|
    ensures !p.aborted ==> |p.verdicts| == |cs|
    decreases |cs|
  {
    if cs == [] then Progress(t, [], [], false)
    else
      var p := Sweep(t, cs[..|cs| - 1], inputs, now, refused, notices);
      if p.aborted then p
      else
        var c := cs[|cs| - 1];
        var s := Evaluate(c, inputs(c.pass.passId), now, refused, notices, p.tables);
        Progress(AfterWrite(p.tables, s.write), p.verdicts + [s.verdict], p.queued + s.queue, s.verdict.Aborted?)
  }

  /** Once the job stopped, later passes change nothing. */
  lemma {:induction false} AbortSticks(t: Tables, cs: seq<Candidate>, j: nat, inputs: string -> PassInputs, now: int,
                                       refused: Failure -> bool, notices: Notices)
    requires j <= |cs|
    requires Sweep(t, cs[..j], inputs, now, refused, notices).aborted
    ensures Sweep(t, cs, inputs, now, refused, notices) == Sweep(t, cs[..j], inputs, now, refused, notices)
    decreases |cs| - j
  {
    if j < |cs| {
      assert cs[..|cs| - 1][..j] == cs[..j];
      AbortSticks(t, cs[..|cs| - 1], j, inputs, now, refused, notices);
    } else {
      assert cs[..j] == cs;
    }
  }

  /** One pass, on the live database: the step `Evaluate` describes, with the extension committed by `$$$`. */
  method Attend(db: Database, c: Candidate, inputs: PassInputs, now: int, refused: Failure -> bool, notices: Notices)
    returns (s: Step)
    modifies db
    ensures s == Evaluate(c, inputs, now, refused, notices, old(db.tables))
    ensures db.tables == AfterWrite(old(db.tables), s.write)
  {
    if !Loaded(c) {
      return Step(Skipped, [], [], None);
    }
    var program := c.program.value;
    var userId := c.user.value.userId;
    var stamp := ModifyPass(c.pass, None, Some(now));
    var off := ModifyPass(c.pass, Some(false), Some(now));
    if !c.pass.autoRenew {
      var notice := Notify(notices, userId, ReminderDraft(program, inputs.notes), inputs.notificationId);
      if notice.Err? {
        return Catch(notice.error, [stamp], [], None, c, inputs, now, refused, notices);
      }
      return Step(Reminded, [stamp] + notice.value, [], None);
    }
    if !program.isSale || !program.allowRenew {
      var notice := Notify(notices, userId, StoppedDraft(program), inputs.notificationId);
      if notice.Err? {
        return Catch(notice.error, [off], [], None, c, inputs, now, refused, notices);
      }
      return Step(Stopped, [off] + notice.value, [], None);
    }
    var o := ExtendPass(db.tables, c.pass, c.program, c.user, false, inputs.answers, now);
    if o.result.Err? {
      return Catch(o.result.error, [], o.calls, None, c, inputs, now, refused, notices);
    }
    var extended := db.Execute(o.result.value);
    if extended.Err? {
      return Catch(extended.error, [], o.calls, Some(o.result.value), c, inputs, now, refused, notices);
    }
    var notice := Notify(notices, userId, ExtendedDraft(program, inputs.notes), inputs.notificationId);
    if notice.Err? {
      return Catch(notice.error, [stamp], o.calls, Some(o.result.value), c, inputs, now, refused, notices);
    }
    s := Step(Extended, [stamp] + notice.value, o.calls, Some(o.result.value));
  }

  /**
   * The loop of both jobs: every pass in order, queuing its writes, and
   * then, unless the job stopped, one transaction for everything queued.
   */
  method Run(db: Database, cs: seq<Candidate>, inputs: string -> PassInputs, now: int, refused: Failure -> bool,
             notices: Notices) returns (verdicts: seq<Verdict>, queued: seq<Op>)
    modifies db
    ensures var p := Sweep(old(db.tables), cs, inputs, now, refused, notices);
            && verdicts == p.verdicts && queued == p.queued
            && db.tables == if p.aborted then p.tables else Committed(p.tables, p.queued)
  {
    verdicts := [];
    queued := [];
    var aborted := false;
    var i := 0;
    while i < |cs| && !aborted
      invariant 0 <= i <= |cs|
      invariant Sweep(old(db.tables), cs[..i], inputs, now, refused, notices) == Progress(db.tables, verdicts, queued, aborted)
      decreases |cs| - i
    {
      var c := cs[i];
      assert cs[..i + 1][..i] == cs[..i];
      assert cs[..i + 1][i] == c;
      var s := Attend(db, c, inputs(c.pass.passId), now, refused, notices);
      verdicts := verdicts + [s.verdict];
      queued := queued + s.queue;
      aborted := s.verdict.Aborted?;
      i := i + 1;
    }
    if aborted {
      AbortSticks(old(db.tables), cs, i, inputs, now, refused, notices);
      return;
    }
    assert cs[..i] == cs;
    var committed := db.Transaction(queued);
  }

  /** Writes that only update passes leave every other table alone. */
  predicate PassUpdates(ops: seq<Op>) {
    forall i :: 0 <= i < |ops| ==> ops[i].UpdatePass?
  }

  lemma {:induction false} PassUpdatesKeepNotifications(t: Tables, ops: seq<Op>)
    requires PassUpdates(ops)
    ensures Committed(t, ops).notifications == t.notifications
    decreases |ops|
  {
    if ops != [] && Apply(t, ops[0]).Ok? {
      var t1 := Apply(t, ops[0]).value.0;
      assert PassUpdates(ops[1..]) by {
        forall i | 0 <= i < |ops[1..]| ensures ops[1..][i].UpdatePass? {
          assert ops[1..][i] == ops[i + 1];
        }
      }
      PassUpdatesKeepNotifications(t1, ops[1..]);
      match ApplyAll(t1, ops[1..]) {
        case Ok(_) =>
        case Err(_) =>
      }
    }
  }

  /** Without queued notices, a step only ever updates passes. */
  lemma StepUpdatesPasses(c: Candidate, inputs: PassInputs, now: int, refused: Failure -> bool, notices: Notices, t: Tables)
    requires notices != Queued
    ensures var s := Evaluate(c, inputs, now, refused, notices, t);
            PassUpdates(s.queue) && (s.write.Some? ==> s.write.value.UpdatePass?)
  {
  }

  /** An immediate write that updates a pass leaves notifications alone. */
  lemma PassWriteKeepsNotifications(t: Tables, write: Option<Op>)
    requires write.Some? ==> write.value.UpdatePass?
    ensures AfterWrite(t, write).notifications == t.notifications
  {
  }

  lemma PassUpdatesAppend(a: seq<Op>, b: seq<Op>)
    requires PassUpdates(a) && PassUpdates(b)
    ensures PassUpdates(a + b)
  {
    forall i | 0 <= i < |a + b| ensures (a + b)[i].UpdatePass? {
      if i < |a| {
        assert (a + b)[i] == a[i];
      } else {
        assert (a + b)[i] == b[i - |a|];
      }
    }
  }

  /** Without queued notices, the whole sweep only ever updates passes. */
  lemma {:induction false} SweepUpdatesPasses(t: Tables, cs: seq<Candidate>, inputs: string -> PassInputs, now: int,
                                              refused: Failure -> bool, notices: Notices)
    requires notices != Queued
    ensures PassUpdates(Sweep(t, cs, inputs, now, refused, notices).queued)
    ensures Sweep(t, cs, inputs, now, refused, notices).tables.notifications == t.notifications
    decreases |cs|
  {
    if cs != [] {
      SweepUpdatesPasses(t, cs[..|cs| - 1], inputs, now, refused, notices);
      var p := Sweep(t, cs[..|cs| - 1], inputs, now, refused, notices);
      if !p.aborted {
        var c := cs[|cs| - 1];
        var s := Evaluate(c, inputs(c.pass.passId), now, refused, notices, p.tables);
        StepUpdatesPasses(c, inputs(c.pass.passId), now, refused, notices, p.tables);
        PassUpdatesAppend(p.queued, s.queue);
        PassWriteKeepsNotifications(p.tables, s.write);
      }
    }
  }

  /** scheduler.ts `handler`: no notifications, the classifier as written. */
  method Handler(db: Database, cs: seq<Candidate>, inputs: string -> PassInputs, now: int)
    returns (verdicts: seq<Verdict>, queued: seq<Op>)
    requires Fetched(db.tables, cs, now)
    modifies db
    ensures |verdicts| == |cs|
    ensures forall i :: 0 <= i < |cs| ==> (verdicts[i].Skipped? <==> !Loaded(cs[i]))
    ensures PassUpdates(queued)
    ensures var p := Sweep(old(db.tables), cs, inputs, now, RefusedAsWritten, Silent);
            verdicts == p.verdicts && queued == p.queued && db.tables == Committed(p.tables, queued)
    ensures db.tables.notifications == old(db.tables.notifications)
  {
    verdicts, queued := Run(db, cs, inputs, now, RefusedAsWritten, Silent);
    SilentNeverAborts(old(db.tables), cs, inputs, now, RefusedAsWritten);
    SweepUpdatesPasses(old(db.tables), cs, inputs, now, RefusedAsWritten, Silent);
    var p := Sweep(old(db.tables), cs, inputs, now, RefusedAsWritten, Silent);
    PassUpdatesKeepNotifications(p.tables, p.queued);
    SkipsExactlyUnloaded(old(db.tables), cs, inputs, now, RefusedAsWritten, Silent);
  }

  /** Without notices there is nothing that can stop the job early. */
  lemma {:induction false} SilentNeverAborts(t: Tables, cs: seq<Candidate>, inputs: string -> PassInputs, now: int,
                                             refused: Failure -> bool)
    ensures !Sweep(t, cs, inputs, now, refused, Silent).aborted
    decreases |cs|
  {
    if cs != [] {
      SilentNeverAborts(t, cs[..|cs| - 1], inputs, now, refused);
    }
  }

  /** The sweep over a non-empty list: the sweep of all but the last pass, then the last pass unless stopped. */
  lemma SweepLast(t: Tables, cs: seq<Candidate>, inputs: string -> PassInputs, now: int, refused: Failure -> bool,
                  notices: Notices)
    requires cs != []
    ensures var p := Sweep(t, cs[..|cs| - 1], inputs, now, refused, notices);
            var c := cs[|cs| - 1];
            Sweep(t, cs, inputs, now, refused, notices).verdicts
            == if p.aborted then p.verdicts
               else p.verdicts + [Evaluate(c, inputs(c.pass.passId), now, refused, notices, p.tables).verdict]
  {
  }

  /** The verdicts match the passes when each is Skipped exactly when its pass is not loaded. */
  predicate SkipsMatch(verdicts: seq<Verdict>, cs: seq<Candidate>) {
    |verdicts| <= |cs| && forall i :: 0 <= i < |verdicts| ==> (verdicts[i].Skipped? <==> !Loaded(cs[i]))
  }

  /** The verdict of each pass that was reached is Skipped exactly when its program or user was missing. */
  lemma {:induction false} SkipsExactlyUnloaded(t: Tables, cs: seq<Candidate>, inputs: string -> PassInputs, now: int,
                                                refused: Failure -> bool, notices: Notices)
    ensures var p := Sweep(t, cs, inputs, now, refused, notices);
            forall i :: 0 <= i < |p.verdicts| ==> (p.verdicts[i].Skipped? <==> !Loaded(cs[i]))
    decreases |cs|
  {
    if cs != [] {
      var front := cs[..|cs| - 1];
      SkipsExactlyUnloaded(t, front, inputs, now, refused, notices);
      SweepLast(t, cs, inputs, now, refused, notices);
      var p := Sweep(t, front, inputs, now, refused, notices);
      assert SkipsMatch(p.verdicts, front);
      if !p.aborted {
        var c := cs[|cs| - 1];
        var v := Evaluate(c, inputs(c.pass.passId), now, refused, notices, p.tables).verdict;
        assert v.Skipped? <==> !Loaded(c);
        SkipsMatchExtend(p.verdicts, v, cs);
      } else {
        forall i | 0 <= i < |p.verdicts| ensures p.verdicts[i].Skipped? <==> !Loaded(cs[i]) {
          assert front[i] == cs[i];
        }
      }
    }
  }

  lemma SkipsMatchExtend(verdicts: seq<Verdict>, v: Verdict, cs: seq<Candidate>)
    requires |verdicts| == |cs| - 1
    requires SkipsMatch(verdicts, cs[..|cs| - 1])
    requires v.Skipped? <==> !Loaded(cs[|cs| - 1])
    ensures SkipsMatch(verdicts + [v], cs)
  {
    forall i | 0 <= i < |verdicts| + 1 ensures ((verdicts + [v])[i].Skipped? <==> !Loaded(cs[i])) {
      if i < |verdicts| {
        assert cs[..|cs| - 1][i] == cs[i];
        assert (verdicts + [v])[i] == verdicts[i];
      }
    }
  }

  /**
   * passExtend.ts `onPassExtendScheduler` as written: notifications are
   * built but their thunks are dropped, and the classifier reads
   * `details.opcode`. No notification is ever stored.
   */
  method OnPassExtendSchedulerAsWritten(db: Database, cs: seq<Candidate>, inputs: string -> PassInputs, now: int)
    returns (verdicts: seq<Verdict>, queued: seq<Op>)
    requires Fetched(db.tables, cs, now)
    modifies db
    ensures |verdicts| <= |cs|
    ensures forall i :: 0 <= i < |verdicts| ==> (verdicts[i].Skipped? <==> !Loaded(cs[i]))
    ensures PassUpdates(queued)
    ensures var p := Sweep(old(db.tables), cs, inputs, now, RefusedAsWritten, Discarded);
            verdicts == p.verdicts && queued == p.queued
            && db.tables == if p.aborted then p.tables else Committed(p.tables, queued)
    ensures db.tables.notifications == old(db.tables.notifications)
  {
    verdicts, queued := Run(db, cs, inputs, now, RefusedAsWritten, Discarded);
    SweepUpdatesPasses(old(db.tables), cs, inputs, now, RefusedAsWritten, Discarded);
    var p := Sweep(old(db.tables), cs, inputs, now, RefusedAsWritten, Discarded);
    PassUpdatesKeepNotifications(p.tables, p.queued);
    SkipsExactlyUnloaded(old(db.tables), cs, inputs, now, RefusedAsWritten, Discarded);
  }

  /**
   * `onPassExtendScheduler` as evidently intended: each notification joins
   * the batch, and a refusal is recognised by the failure's own opcode.
   */
  method OnPassExtendScheduler(db: Database, cs: seq<Candidate>, inputs: string -> PassInputs, now: int)
    returns (verdicts: seq<Verdict>, queued: seq<Op>)
    requires Fetched(db.tables, cs, now)
    modifies db
    ensures |verdicts| <= |cs|
    ensures forall i :: 0 <= i < |verdicts| ==> (verdicts[i].Skipped? <==> !Loaded(cs[i]))
    ensures var p := Sweep(old(db.tables), cs, inputs, now, RefusedByOpcode, Queued);
            verdicts == p.verdicts && queued == p.queued
            && db.tables == if p.aborted then p.tables else Committed(p.tables, queued)
  {
    verdicts, queued := Run(db, cs, inputs, now, RefusedByOpcode, Queued);
    SkipsExactlyUnloaded(old(db.tables), cs, inputs, now, RefusedByOpcode, Queued);
  }
}
