/**
 * What the workflow guarantees, and what it does not: the effect of each
 * handler, the outcome of the races between a button press and the timer,
 * and the properties every sequence of events keeps.
 */
module WorkflowProperties {
  import opened Wrappers
  import opened Models
  import opened CallbackPayload
  import opened Workflow

  // ---------------------------------------------------------------------
  // The text-message handler
  // ---------------------------------------------------------------------

  /** A message that is not an income update, or carries no value, creates no record and pins nothing. */
  lemma NotAnIncomeUpdate(st: BotState, extracted: Extraction, userId: int, chatId: int, id: ObjectId,
                          fill: FillResult, send: SendResult)
    requires extracted.intent != UPDATE_INCOME || extracted.newIncome.None?
    ensures OnText(st, extracted, userId, chatId, id, fill, send) == st
  {
  }

  /** The record inserted for an income update is PENDING, for the requesting user and chat and the extracted value. */
  lemma CreatedRecordIsPending(userId: int, chatId: int, income: int)
    ensures var r := CreateProfileUpdate(Some(userId), Some(chatId), Some(income), Some(StatusName(Pending)));
            && r.Ok?
            && r.value.status == Pending
            && r.value.telegramUserId == userId && r.value.telegramChatId == chatId
            && r.value.newIncome == income
            && r.value.previousIncome.None? && r.value.actualIncome.None? && r.value.errorMessage.None?
  {
    ParseStatusName(Pending);
  }

  /**
   * A failed preparation leaves the new record FAILED with the error's
   * message, changes no other record, and pins, closes, commits and audits
   * nothing.
   */
  lemma PrepareFailed(st: BotState, income: int, userId: int, chatId: int, id: ObjectId, msg: string, send: SendResult)
    requires id !in st.records
    ensures var st' := OnText(st, Extraction(UPDATE_INCOME, Some(income)), userId, chatId, id, FillFailed(msg), send);
            && st'.records == st.records[id := ProfileUpdate(userId, chatId, income, None, None, Failed,
                                                             None, Some(msg), None)]
            && st'.sessions == st.sessions && st'.audit == st.audit
            && st'.closed == st.closed && st'.commits == st.commits
  {
    CreatedRecordIsPending(userId, chatId, income);
  }

  /**
   * A prepared and delivered preview leaves the new record SCREENSHOT_SENT
   * with the value read, the screenshot and the message id, changes no other
   * record, and pins the record's browser under its id.
   */
  lemma PrepareSucceeded(st: BotState, income: int, userId: int, chatId: int, id: ObjectId,
                         previous: Option<int>, shot: string, msgId: int)
    requires id !in st.records
    ensures var st' := OnText(st, Extraction(UPDATE_INCOME, Some(income)), userId, chatId, id,
                              Filled(previous, shot), Delivered(msgId));
            && st'.records == st.records[id := ProfileUpdate(userId, chatId, income, previous, None, ScreenshotSent,
                                                             Some(shot), None, Some(msgId))]
            && st'.sessions == st.sessions[id := Browser(id)]
            && st'.audit == st.audit && st'.closed == st.closed && st'.commits == st.commits
  {
    CreatedRecordIsPending(userId, chatId, income);
  }

  /**
   * A preview that cannot be sent after the form was filled leaves the new
   * record FAILED and changes nothing else: its browser is neither pinned
   * nor closed.
   */
  lemma PreviewNotDelivered(st: BotState, income: int, userId: int, chatId: int, id: ObjectId,
                            previous: Option<int>, shot: string, msg: string)
    requires Inv(st) && id !in st.records
    ensures var st' := OnText(st, Extraction(UPDATE_INCOME, Some(income)), userId, chatId, id,
                              Filled(previous, shot), SendFailed(msg));
            && st'.records == st.records[id := ProfileUpdate(userId, chatId, income, previous, None, Failed,
                                                             Some(shot), Some(msg), None)]
            && st'.sessions == st.sessions && st'.audit == st.audit
            && st'.closed == st.closed && st'.commits == st.commits
            && Browser(id) !in st'.sessions.Values && Browser(id) !in st'.closed
  {
    CreatedRecordIsPending(userId, chatId, income);
    assert Browser(id) !in st.closed;
  }

  /**
   * A browser that is neither pinned nor closed: its record exists, so no
   * later text message can pin it again, and nothing else can reach it.
   */
  predicate Leaked(st: BotState, id: string) {
    id in st.records && Browser(id) !in st.sessions.Values && Browser(id) !in st.closed
  }

  /** Releasing some pinned session never closes a leaked browser. */
  lemma ReleaseKeepsLeaked(st: BotState, x: string, id: string)
    requires x in st.sessions && Leaked(st, id)
    ensures Leaked(Release(st, x), id)
  {
    assert st.sessions[x] in st.sessions.Values;
  }

  /** No event closes or re-pins a leaked browser. */
  lemma StepKeepsLeaked(st: BotState, ev: Event, id: string)
    requires Leaked(st, id)
    ensures Leaked(Step(st, ev), id)
  {
    match ev
    case TextMessage(x, u, c, nid, f, s) =>
      var st' := Step(st, ev);
      assert nid != id ==> Browser(id) != Browser(nid);
      assert st'.sessions == st.sessions || (nid !in st.records && st'.sessions == st.sessions[nid := Browser(nid)]);
    case TimerFired(rid) =>
      if rid in st.sessions {
        ReleaseKeepsLeaked(st, rid, id);
      }
    case ButtonPressed(data, commit) =>
      var cb := ParseCallback(data);
      if cb.recordId.Some? && cb.recordId.value in st.records {
        var rid := cb.recordId.value;
        if rid in st.sessions {
          if cb.action == CONFIRM {
            ReleaseKeepsLeaked(st.(commits := st.commits + [st.sessions[rid]]), rid, id);
          } else if cb.action == CANCEL {
            var rec := st.records[rid];
            ReleaseKeepsLeaked(st.(records := st.records[rid := rec.(status := Cancelled)],
                                   audit := st.audit + [AuditEntry(rid, rec, None, Cancelled)]), rid, id);
          }
        }
      }
  }

  /** Along any sequence of events, a leaked browser stays leaked. */
  lemma {:induction false} RunKeepsLeaked(st: BotState, events: seq<Event>, id: string)
    requires Leaked(st, id)
    ensures Leaked(Run(st, events), id)
    decreases |events|
  {
    if events != [] {
      StepKeepsLeaked(st, events[0], id);
      RunKeepsLeaked(Step(st, events[0]), events[1..], id);
    }
  }

  /**
   * The browser of a preview that could not be sent is never closed: neither
   * the handler's `catch` nor any later event, timer or button press, reaches it.
   */
  lemma PreviewBrowserNeverClosed(st: BotState, income: int, userId: int, chatId: int, id: ObjectId,
                                  previous: Option<int>, shot: string, msg: string, later: seq<Event>)
    requires Inv(st) && id !in st.records
    ensures var st' := OnText(st, Extraction(UPDATE_INCOME, Some(income)), userId, chatId, id,
                              Filled(previous, shot), SendFailed(msg));
            Browser(id) !in Run(st', later).closed
  {
    PreviewNotDelivered(st, income, userId, chatId, id, previous, shot, msg);
    var st' := OnText(st, Extraction(UPDATE_INCOME, Some(income)), userId, chatId, id,
                      Filled(previous, shot), SendFailed(msg));
    RunKeepsLeaked(st', later, id);
  }

  // ---------------------------------------------------------------------
  // The timer
  // ---------------------------------------------------------------------

  /** The timer never writes an audit entry and never commits. */
  lemma TimeoutNeverAudits(st: BotState, id: string)
    ensures OnTimeout(st, id).audit == st.audit
    ensures OnTimeout(st, id).commits == st.commits
  {
  }

  /** A timer firing for a record that is no longer pinned changes nothing. */
  lemma TimeoutWithoutSession(st: BotState, id: string)
    requires id !in st.sessions
    ensures OnTimeout(st, id) == st
  {
  }

  /**
   * A timer firing while the record is still pinned unpins it, closes its
   * browser, and cancels the record: a pinned record is always still
   * awaiting confirmation.
   */
  lemma TimeoutWithSession(st: BotState, id: string)
    requires Inv(st) && id in st.sessions
    ensures var st' := OnTimeout(st, id);
            && st'.sessions == st.sessions - {id}
            && st'.closed == st.closed + [Browser(id)]
            && Browser(id) !in st.closed
            && st'.records == st.records[id := st.records[id].(status := Cancelled, errorMessage := Some(TIMED_OUT))]
            && st'.audit == st.audit && st'.commits == st.commits
  {
    assert PinnedWell(st, id);
  }

  // ---------------------------------------------------------------------
  // The callback-query handler
  // ---------------------------------------------------------------------

  /** The data of the two buttons of a record's preview parse back to the button's action and that record. */
  lemma PreviewButtons(id: ObjectId)
    ensures ParseCallback(ButtonData(CONFIRM, id)) == Callback(CONFIRM, Some(id))
    ensures ParseCallback(ButtonData(CANCEL, id)) == Callback(CANCEL, Some(id))
  {
    ObjectIdHasNoSeparator(id);
    ParseButtonData(CONFIRM, id);
    ParseButtonData(CANCEL, id);
  }

  /** Data naming no known record changes nothing. */
  lemma UnknownRecordIgnored(st: BotState, data: string, commit: CommitResult)
    requires ParseCallback(data).recordId.None? || ParseCallback(data).recordId.value !in st.records
    ensures OnCallback(st, data, commit) == st
  {
  }

  /** An action other than confirm or cancel changes nothing. */
  lemma UnknownActionIgnored(st: BotState, data: string, commit: CommitResult)
    requires ParseCallback(data).action != CONFIRM && ParseCallback(data).action != CANCEL
    ensures OnCallback(st, data, commit) == st
  {
  }

  /** Confirming with no pinned session marks the record FAILED as expired, and commits, closes and audits nothing. */
  lemma ConfirmWithoutSession(st: BotState, id: string, commit: CommitResult, confirm: string)
    requires ParseCallback(confirm) == Callback(CONFIRM, Some(id))
    requires id in st.records && id !in st.sessions
    ensures var st' := OnCallback(st, confirm, commit);
            && st'.records == st.records[id := st.records[id].(status := Failed, errorMessage := Some(SESSION_EXPIRED))]
            && st'.sessions == st.sessions && st'.audit == st.audit
            && st'.closed == st.closed && st'.commits == st.commits
  {
  }

  /**
   * A confirmed and committed update is SUCCESS with the requested income
   * applied, writes exactly one audit entry from the previous to the new
   * income, and unpins and closes the browser once, after one commit.
   */
  lemma ConfirmCommitted(st: BotState, id: string, confirm: string)
    requires ParseCallback(confirm) == Callback(CONFIRM, Some(id))
    requires Inv(st) && id in st.records && id in st.sessions
    ensures var rec := st.records[id];
            var st' := OnCallback(st, confirm, Committed);
            && st'.records == st.records[id := rec.(status := Success, actualIncome := Some(rec.newIncome))]
            && st'.audit == st.audit + [AuditLog(id, rec.telegramUserId, INCOME_FIELD, rec.previousIncome,
                                                 Some(rec.newIncome), Some("SUCCESS"))]
            && st'.sessions == st.sessions - {id}
            && st'.closed == st.closed + [Browser(id)] && Browser(id) !in st.closed
            && st'.commits == st.commits + [Browser(id)]
  {
    assert PinnedWell(st, id);
    var rec := st.records[id];
    assert StatusName(Success) == "SUCCESS";
    assert AuditEntry(id, rec, Some(rec.newIncome), Success)
        == AuditLog(id, rec.telegramUserId, INCOME_FIELD, rec.previousIncome, Some(rec.newIncome), Some("SUCCESS"));
    var released := Release(st.(commits := st.commits + [Browser(id)]), id);
    assert released.sessions == st.sessions - {id};
    assert released.closed == st.closed + [Browser(id)];
    assert Confirm(st, id, Committed)
        == released.(records := st.records[id := rec.(status := Success, actualIncome := Some(rec.newIncome))],
                     audit := st.audit + [AuditEntry(id, rec, Some(rec.newIncome), Success)]);
  }

  /** A confirmed update whose commit fails is FAILED with the error's message and audits nothing, but still releases the browser once. */
  lemma ConfirmCommitFailed(st: BotState, id: string, msg: string, confirm: string)
    requires ParseCallback(confirm) == Callback(CONFIRM, Some(id))
    requires Inv(st) && id in st.records && id in st.sessions
    ensures var st' := OnCallback(st, confirm, CommitFailed(msg));
            && st'.records == st.records[id := st.records[id].(status := Failed, errorMessage := Some(msg))]
            && st'.audit == st.audit
            && st'.sessions == st.sessions - {id}
            && st'.closed == st.closed + [Browser(id)] && Browser(id) !in st.closed
            && st'.commits == st.commits + [Browser(id)]
  {
    assert PinnedWell(st, id);
  }

  /**
   * Cancelling makes the record CANCELLED whatever its status was, writes one
   * audit entry with no after-value, and releases the browser only if one is
   * pinned.
   */
  lemma CancelRecord(st: BotState, id: string, commit: CommitResult, cancel: string)
    requires ParseCallback(cancel) == Callback(CANCEL, Some(id))
    requires id in st.records
    ensures var rec := st.records[id];
            var st' := OnCallback(st, cancel, commit);
            && st'.records == st.records[id := rec.(status := Cancelled)]
            && st'.audit == st.audit + [AuditLog(id, rec.telegramUserId, INCOME_FIELD, rec.previousIncome,
                                                 None, Some("CANCELLED"))]
            && st'.sessions == st.sessions - {id}
            && st'.closed == (if id in st.sessions then st.closed + [st.sessions[id]] else st.closed)
            && st'.commits == st.commits
  {
    var rec := st.records[id];
    assert StatusName(Cancelled) == "CANCELLED";
    assert AuditEntry(id, rec, None, Cancelled)
        == AuditLog(id, rec.telegramUserId, INCOME_FIELD, rec.previousIncome, None, Some("CANCELLED"));
    assert OnCallback(st, cancel, commit) == Cancel(st, id);
  }

  // ---------------------------------------------------------------------
  // Races and repeated presses
  // ---------------------------------------------------------------------

  /** A timer firing after a confirmation finds nothing pinned: the browser stays closed exactly once. */
  lemma ConfirmThenTimeout(st: BotState, id: string, commit: CommitResult, confirm: string)
    requires ParseCallback(confirm) == Callback(CONFIRM, Some(id))
    requires Inv(st) && id in st.records && id in st.sessions
    ensures var confirmed := OnCallback(st, confirm, commit);
            && OnTimeout(confirmed, id) == confirmed
            && confirmed.closed == st.closed + [Browser(id)]
            && Browser(id) !in st.closed
  {
    assert PinnedWell(st, id);
  }

  /**
   * A confirmation arriving after the timer fired performs no commit, closes
   * nothing more and audits nothing, but overwrites the timer's CANCELLED
   * with FAILED: the handler does not look at the status.
   */
  lemma TimeoutThenConfirm(st: BotState, id: string, commit: CommitResult, confirm: string)
    requires ParseCallback(confirm) == Callback(CONFIRM, Some(id))
    requires Inv(st) && id in st.records && id in st.sessions
    ensures var timedOut := OnTimeout(st, id);
            var st' := OnCallback(timedOut, confirm, commit);
            && timedOut.records[id].status == Cancelled
            && st'.records[id].status == Failed
            && st'.records[id].errorMessage == Some(SESSION_EXPIRED)
            && st'.closed == st.closed + [Browser(id)]
            && st'.commits == st.commits
            && st'.audit == st.audit
  {
    TimeoutWithSession(st, id);
    var timedOut := OnTimeout(st, id);
    ConfirmWithoutSession(timedOut, id, commit, confirm);
  }

  /**
   * Pressing confirm twice commits once and audits once, but the second press
   * finds no session and overwrites SUCCESS with FAILED.
   */
  lemma DoubleConfirm(st: BotState, id: string, again: CommitResult, confirm: string)
    requires ParseCallback(confirm) == Callback(CONFIRM, Some(id))
    requires Inv(st) && id in st.records && id in st.sessions
    ensures var first := OnCallback(st, confirm, Committed);
            var second := OnCallback(first, confirm, again);
            && first.records[id].status == Success
            && second.commits == st.commits + [Browser(id)]
            && second.closed == st.closed + [Browser(id)]
            && second.audit == first.audit && |second.audit| == |st.audit| + 1
            && second.records[id].status == Failed
            && second.records[id].actualIncome == Some(st.records[id].newIncome)
  {
    ConfirmCommitted(st, id, confirm);
    var first := OnCallback(st, confirm, Committed);
    ConfirmWithoutSession(first, id, again, confirm);
  }

  /**
   * Cancelling after a successful update is not refused: the record becomes
   * CANCELLED although the income was applied, and a second audit entry is
   * written for it; nothing more is closed.
   */
  lemma CancelAfterSuccess(st: BotState, id: string, commit: CommitResult, confirm: string, cancel: string)
    requires ParseCallback(confirm) == Callback(CONFIRM, Some(id))
    requires ParseCallback(cancel) == Callback(CANCEL, Some(id))
    requires Inv(st) && id in st.records && id in st.sessions
    ensures var first := OnCallback(st, confirm, Committed);
            var second := OnCallback(first, cancel, commit);
            && second.records[id].status == Cancelled
            && second.records[id].actualIncome == Some(st.records[id].newIncome)
            && |second.audit| == |st.audit| + 2
            && second.audit[|st.audit|].status == Some("SUCCESS")
            && second.audit[|st.audit| + 1].status == Some("CANCELLED")
            && second.closed == first.closed
  {
    ConfirmCommitted(st, id, confirm);
    var first := OnCallback(st, confirm, Committed);
    CancelRecord(first, id, commit, cancel);
  }

  /** Each press of cancel writes another audit entry for the same record. */
  lemma CancelTwice(st: BotState, id: string, commit: CommitResult, cancel: string)
    requires ParseCallback(cancel) == Callback(CANCEL, Some(id))
    requires id in st.records
    ensures var first := OnCallback(st, cancel, commit);
            var second := OnCallback(first, cancel, commit);
            && |second.audit| == |st.audit| + 2
            && second.audit[|st.audit|].profileUpdateId == id
            && second.audit[|st.audit| + 1].profileUpdateId == id
            && second.records[id].status == Cancelled
  {
    CancelRecord(st, id, commit, cancel);
    var first := OnCallback(st, cancel, commit);
    CancelRecord(first, id, commit, cancel);
  }

  // ---------------------------------------------------------------------
  // Every sequence of events
  // ---------------------------------------------------------------------

  lemma {:induction false} RunInv(st: BotState, events: seq<Event>)
    requires Inv(st)
    ensures Inv(Run(st, events))
    decreases |events|
  {
    if events != [] {
      StepInv(st, events[0]);
      RunInv(Step(st, events[0]), events[1..]);
    }
  }

  /** Every state the bot can reach from an empty store satisfies the workflow invariant. */
  lemma ReachableInv(events: seq<Event>)
    ensures Inv(Run(INITIAL, events))
  {
    InitialInv();
    RunInv(INITIAL, events);
  }

  /**
   * In every reachable state: no record is left PENDING or ever CONFIRMED; a
   * browser is closed at most once and committed through at most once, and
   * only ever committed through before it is closed; at most one SUCCESS
   * audit entry exists per record, and only after a commit for it.
   */
  lemma ReachableGuarantees(events: seq<Event>)
    ensures var st := Run(INITIAL, events);
            && (forall id :: id in st.records ==> st.records[id].status != Pending && st.records[id].status != Confirmed)
            && NoDuplicates(st.closed)
            && NoDuplicates(st.commits)
            && (forall k :: 0 <= k < |st.commits| ==> st.commits[k] in st.closed)
            && (forall j, k :: 0 <= j < k < |st.audit| && IsSuccessEntry(st.audit[j]) && IsSuccessEntry(st.audit[k]) ==>
                  st.audit[j].profileUpdateId != st.audit[k].profileUpdateId)
            && (forall k :: 0 <= k < |st.audit| && IsSuccessEntry(st.audit[k]) ==>
                  Browser(st.audit[k].profileUpdateId) in st.commits)
  {
    ReachableInv(events);
    var st := Run(INITIAL, events);
    forall k | 0 <= k < |st.audit| && IsSuccessEntry(st.audit[k])
      ensures Browser(st.audit[k].profileUpdateId) in st.commits
    {
      assert AuditWell(st, st.audit[k]);
    }
  }

  /** Who asked, in which chat and for what income never changes once a record exists. */
  predicate SameRequest(a: ProfileUpdate, b: ProfileUpdate) {
    a.telegramUserId == b.telegramUserId && a.telegramChatId == b.telegramChatId && a.newIncome == b.newIncome
  }

  /**
   * `after` is a later state than `before`: records are never removed nor
   * their request changed, and the audit collection and the logs of closed
   * and committed browsers only grow at the end.
   */
  ghost predicate Extends(before: BotState, after: BotState) {
    && before.records.Keys <= after.records.Keys
    && (forall id :: id in before.records ==> SameRequest(before.records[id], after.records[id]))
    && before.audit <= after.audit
    && before.closed <= after.closed
    && before.commits <= after.commits
  }

  /**
   * The text handler only adds a record under the fresh id, leaving every
   * existing record as it was, and touches neither the audit collection nor
   * the browser logs.
   */
  lemma OnTextExtends(st: BotState, x: Extraction, u: int, c: int, id: ObjectId, f: FillResult, s: SendResult)
    ensures Extends(st, OnText(st, x, u, c, id, f, s))
    ensures var st' := OnText(st, x, u, c, id, f, s);
            && st'.records.Keys <= st.records.Keys + {id}
            && (forall y :: y in st.records ==> y in st'.records && st'.records[y] == st.records[y])
            && st'.audit == st.audit && st'.closed == st.closed && st'.commits == st.commits
  {
  }

  /** The timer only rewrites the status and message of a record. */
  lemma OnTimeoutExtends(st: BotState, id: string)
    ensures Extends(st, OnTimeout(st, id))
  {
  }

  /** Confirming only rewrites status, outcome and message of the record, and appends to the logs. */
  lemma ConfirmExtends(st: BotState, id: string, commit: CommitResult)
    requires id in st.records
    ensures Extends(st, Confirm(st, id, commit))
  {
    match commit
    case Committed =>
    case CommitFailed(_) =>
  }

  /** Cancelling only rewrites the status of the record, and appends to the logs. */
  lemma CancelExtends(st: BotState, id: string)
    requires id in st.records
    ensures Extends(st, Cancel(st, id))
  {
  }

  /** The callback handler only rewrites status, outcome and message of a record, and appends to the logs. */
  lemma OnCallbackExtends(st: BotState, data: string, commit: CommitResult)
    ensures Extends(st, OnCallback(st, data, commit))
  {
    var cb := ParseCallback(data);
    if cb.recordId.Some? && cb.recordId.value in st.records {
      if cb.action == CONFIRM {
        ConfirmExtends(st, cb.recordId.value, commit);
      } else if cb.action == CANCEL {
        CancelExtends(st, cb.recordId.value);
      }
    }
  }

  lemma StepExtends(st: BotState, ev: Event)
    ensures Extends(st, Step(st, ev))
  {
    match ev
    case TextMessage(x, u, c, id, f, s) => OnTextExtends(st, x, u, c, id, f, s);
    case TimerFired(id) => OnTimeoutExtends(st, id);
    case ButtonPressed(data, commit) => OnCallbackExtends(st, data, commit);
  }

  /** Along any sequence of events, the audit collection is append-only and requests are immutable. */
  lemma {:induction false} RunExtends(st: BotState, events: seq<Event>)
    ensures Extends(st, Run(st, events))
    decreases |events|
  {
    if events != [] {
      var next := Step(st, events[0]);
      StepExtends(st, events[0]);
      RunExtends(next, events[1..]);
      var last := Run(next, events[1..]);
      forall id | id in st.records
        ensures SameRequest(st.records[id], last.records[id])
      {
        assert SameRequest(st.records[id], next.records[id]);
        assert SameRequest(next.records[id], last.records[id]);
      }
    }
  }

  // ---------------------------------------------------------------------
  // The intended journey
  // ---------------------------------------------------------------------

  /** Handling two events is handling the first, then the second. */
  lemma RunTwo(st: BotState, first: Event, second: Event)
    ensures Run(st, [first, second]) == Step(Step(st, first), second)
  {
    assert [first, second][1..] == [second];
    assert Run(Step(st, first), [second]) == Run(Step(Step(st, first), second), []);
  }

  /**
   * "Set my income to 8000", the form showing 5000, the preview delivered and
   * confirmed, the commit succeeding: the record is SUCCESS with 8000
   * applied, one audit entry goes from 5000 to 8000, and the browser was
   * committed through and closed once.
   */
  lemma IncomeUpdateJourney(id: ObjectId, userId: int, chatId: int, shot: string, msgId: int, confirm: string)
    requires ParseCallback(confirm) == Callback(CONFIRM, Some(id))
    ensures var st := Run(INITIAL, [
              TextMessage(Extraction(UPDATE_INCOME, Some(8000)), userId, chatId, id, Filled(Some(5000), shot), Delivered(msgId)),
              ButtonPressed(confirm, Committed)]);
            && id in st.records
            && st.records[id].status == Success
            && st.records[id].previousIncome == Some(5000)
            && st.records[id].actualIncome == Some(8000)
            && st.audit == [AuditLog(id, userId, INCOME_FIELD, Some(5000), Some(8000), Some("SUCCESS"))]
            && st.sessions == map[]
            && st.closed == [Browser(id)] && st.commits == [Browser(id)]
  {
    var e1 := TextMessage(Extraction(UPDATE_INCOME, Some(8000)), userId, chatId, id, Filled(Some(5000), shot), Delivered(msgId));
    var e2 := ButtonPressed(confirm, Committed);
    RunTwo(INITIAL, e1, e2);
    var s1 := Step(INITIAL, e1);
    JourneyPrepared(id, userId, chatId, shot, msgId);
    ConfirmCommitted(s1, id, confirm);
    var s2 := OnCallback(s1, confirm, Committed);
    assert Step(s1, e2) == s2;
    assert s1.sessions - {id} == map[];
    assert s2.audit == [AuditLog(id, userId, INCOME_FIELD, Some(5000), Some(8000), Some("SUCCESS"))];
  }

  /** The first half of the journey: the record awaits confirmation with its browser pinned. */
  lemma JourneyPrepared(id: ObjectId, userId: int, chatId: int, shot: string, msgId: int)
    ensures var s1 := Step(INITIAL, TextMessage(Extraction(UPDATE_INCOME, Some(8000)), userId, chatId, id,
                                                Filled(Some(5000), shot), Delivered(msgId)));
            && Inv(s1)
            && id in s1.records && id in s1.sessions
            && s1.records[id].telegramUserId == userId
            && s1.records[id].previousIncome == Some(5000) && s1.records[id].newIncome == 8000
            && s1.sessions == map[id := Browser(id)]
            && s1.audit == [] && s1.closed == [] && s1.commits == []
  {
    var e1 := TextMessage(Extraction(UPDATE_INCOME, Some(8000)), userId, chatId, id, Filled(Some(5000), shot), Delivered(msgId));
    InitialInv();
    StepInv(INITIAL, e1);
    PrepareSucceeded(INITIAL, 8000, userId, chatId, id, Some(5000), shot, msgId);
  }
}
