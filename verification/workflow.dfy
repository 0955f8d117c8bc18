/**
 * The confirmation workflow of the bot as a state machine over one
 * BotState: the ProfileUpdate documents, the in-memory `pendingSessions`
 * map that keeps a browser alive per record id, the AuditLog collection,
 * and two logs of the calls made on browsers (`closeBrowser` and the
 * `clickSimpan` commit). Each handler is one atomic step; whatever the
 * handler gets from outside (the extracted intent, the outcome of filling
 * the form, of sending the preview, of committing) is a parameter.
 */
module Workflow {
  import opened Wrappers
  import opened Models
  import opened CallbackPayload

  const UPDATE_INCOME := "update_income"
  const CONFIRM := "confirm"
  const CANCEL := "cancel"
  const TIMED_OUT := "Timed out waiting for confirmation."
  const SESSION_EXPIRED := "Browser session expired."

  /** What the intent extractor returned for a text message. */
  datatype Extraction = Extraction(intent: string, newIncome: Option<int>)

  /** The outcome of `fillIncomeForm`: the value read from the form and the preview, or the error thrown. */
  datatype FillResult = Filled(previousIncome: Option<int>, screenshotBase64: string) | FillFailed(message: string)

  /** The outcome of sending the preview photo: the id of the sent message, or the error thrown. */
  datatype SendResult = Delivered(messageId: int) | SendFailed(message: string)

  /** The outcome of `clickSimpan`. */
  datatype CommitResult = Committed | CommitFailed(message: string)

  /**
   * A browser launched by `fillIncomeForm`. Every call launches a new one and
   * the call is made once per created record, so a browser is named by the
   * record it was launched for.
   */
  datatype Browser = Browser(launchedFor: string)

  datatype BotState = BotState(
    records: map<string, ProfileUpdate>,
    sessions: map<string, Browser>,
    audit: seq<AuditLog>,
    closed: seq<Browser>,
    commits: seq<Browser>)

  const INITIAL := BotState(map[], map[], [], [], [])

  /** The AuditLog document written for `rec` when it reaches `status`. */
  function AuditEntry(id: string, rec: ProfileUpdate, after: Option<int>, status: Status): (e: AuditLog)
    ensures CreateAuditLog(Some(id), Some(rec.telegramUserId), Some(INCOME_FIELD),
                           rec.previousIncome, after, Some(StatusName(status))) == Ok(e)
  {
    AuditLog(id, rec.telegramUserId, INCOME_FIELD, rec.previousIncome, after, Some(StatusName(status)))
  }

  /**
   * The text-message handler: create a PENDING record for an income update,
   * then prepare it. `id` is the id the store assigns to the new document; an
   * id already in use makes the insert fail, and nothing changes.
   */
  function OnText(st: BotState, extracted: Extraction, userId: int, chatId: int, id: ObjectId,
                  fill: FillResult, send: SendResult): BotState
  {
    if extracted.intent != UPDATE_INCOME || extracted.newIncome.None? then st
    else
      match CreateProfileUpdate(Some(userId), Some(chatId), extracted.newIncome, Some(StatusName(Pending)))
      case Err(_) => st
      case Ok(created) =>
        if id in st.records then st else Prepare(st, id, created, fill, send)
  }

  /**
   * The `try` block of the text-message handler for the new record `created`:
   * fill the form, send the preview, and pin the browser under the record id;
   * an error thrown on the way marks the record FAILED.
   */
  function Prepare(st: BotState, id: string, created: ProfileUpdate, fill: FillResult, send: SendResult): BotState {
    match fill
    case FillFailed(msg) =>
      st.(records := st.records[id := created.(status := Failed, errorMessage := Some(msg))])
    case Filled(prev, shot) =>
      var shown := created.(previousIncome := prev, screenshotBase64 := Some(shot), status := ScreenshotSent);
      match send
      case SendFailed(msg) =>
        st.(records := st.records[id := shown.(status := Failed, errorMessage := Some(msg))])
      case Delivered(msgId) =>
        st.(records := st.records[id := shown.(confirmationMsgId := Some(msgId))],
            sessions := st.sessions[id := Browser(id)])
  }

  /** Preparing overwrites the inserted record, so it may be inserted first. */
  lemma PrepareAfterInsert(st: BotState, id: string, created: ProfileUpdate, fill: FillResult, send: SendResult)
    ensures Prepare(st.(records := st.records[id := created]), id, created, fill, send)
         == Prepare(st, id, created, fill, send)
  {
  }

  /** `pendingSessions.delete(id)` followed by `closeBrowser` on the browser that was pinned under `id`. */
  function Release(st: BotState, id: string): BotState
    requires id in st.sessions
  {
    st.(sessions := st.sessions - {id}, closed := st.closed + [st.sessions[id]])
  }

  /**
   * The deferred timeout armed for record `id`: if a browser is still pinned
   * it is released and closed, and a record still waiting for confirmation is
   * cancelled. No audit entry is written.
   */
  function OnTimeout(st: BotState, id: string): BotState {
    if id !in st.sessions then st
    else
      var released := Release(st, id);
      if id in st.records && st.records[id].status == ScreenshotSent then
        released.(records := st.records[id := st.records[id].(status := Cancelled, errorMessage := Some(TIMED_OUT))])
      else released
  }

  /** The confirm branch of the callback handler, for an existing record. */
  function Confirm(st: BotState, id: string, commit: CommitResult): BotState
    requires id in st.records
  {
    var rec := st.records[id];
    if id !in st.sessions then
      st.(records := st.records[id := rec.(status := Failed, errorMessage := Some(SESSION_EXPIRED))])
    else
      var released := Release(st.(commits := st.commits + [st.sessions[id]]), id);
      match commit
      case Committed =>
        released.(records := st.records[id := rec.(status := Success, actualIncome := Some(rec.newIncome))],
                  audit := st.audit + [AuditEntry(id, rec, Some(rec.newIncome), Success)])
      case CommitFailed(msg) =>
        released.(records := st.records[id := rec.(status := Failed, errorMessage := Some(msg))])
  }

  /** The cancel branch of the callback handler, for an existing record; the current status is not consulted. */
  function Cancel(st: BotState, id: string): BotState
    requires id in st.records
  {
    var rec := st.records[id];
    var cancelled := st.(records := st.records[id := rec.(status := Cancelled)],
                         audit := st.audit + [AuditEntry(id, rec, None, Cancelled)]);
    if id in st.sessions then Release(cancelled, id) else cancelled
  }

  /** The callback-query handler: parse the button data, look the record up, and dispatch on the action. */
  function OnCallback(st: BotState, data: string, commit: CommitResult): BotState {
    var cb := ParseCallback(data);
    if cb.recordId.None? || cb.recordId.value !in st.records then st
    else if cb.action == CONFIRM then Confirm(st, cb.recordId.value, commit)
    else if cb.action == CANCEL then Cancel(st, cb.recordId.value)
    else st
  }

  /** One event the bot reacts to, with everything the outside world decides about it. */
  datatype Event =
    | TextMessage(extracted: Extraction, userId: int, chatId: int, id: ObjectId, fill: FillResult, send: SendResult)
    | TimerFired(recordId: string)
    | ButtonPressed(data: string, commit: CommitResult)

  function Step(st: BotState, ev: Event): BotState {
    match ev
    case TextMessage(x, u, c, id, f, s) => OnText(st, x, u, c, id, f, s)
    case TimerFired(id) => OnTimeout(st, id)
    case ButtonPressed(data, commit) => OnCallback(st, data, commit)
  }

  /** The state after the events, handled one after the other. */
  function Run(st: BotState, events: seq<Event>): BotState
    decreases |events|
  {
    if events == [] then st else Run(Step(st, events[0]), events[1..])
  }

  // ---------------------------------------------------------------------
  // The invariant every reachable state keeps
  // ---------------------------------------------------------------------

  predicate NoDuplicates<T(==)>(s: seq<T>) {
    forall i, j :: 0 <= i < j < |s| ==> s[i] != s[j]
  }

  predicate IsSuccessEntry(e: AuditLog) {
    e.status == Some(StatusName(Success))
  }

  /**
   * A record the handlers have finished with: never left PENDING, never
   * CONFIRMED, an applied income only ever the requested one, and a failure
   * always explained.
   */
  predicate Settled(r: ProfileUpdate) {
    && r.status != Pending && r.status != Confirmed
    && (r.status == Success ==> r.actualIncome == Some(r.newIncome))
    && (r.actualIncome.Some? ==> r.actualIncome == Some(r.newIncome))
    && (r.status == Failed ==> r.errorMessage.Some?)
  }

  /** A pinned session belongs to a record awaiting confirmation, holds that record's browser, and is still open. */
  predicate PinnedWell(st: BotState, id: string)
    requires id in st.sessions
  {
    && id in st.records
    && st.records[id].status == ScreenshotSent
    && st.sessions[id] == Browser(id)
    && Browser(id) !in st.closed
    && Browser(id) !in st.commits
  }

  /** An audit entry names an existing record and its user, the governed field, and one of the two audited outcomes. */
  predicate AuditWell(st: BotState, e: AuditLog) {
    && e.profileUpdateId in st.records
    && e.telegramUserId == st.records[e.profileUpdateId].telegramUserId
    && e.field == INCOME_FIELD
    && (IsSuccessEntry(e) || (e.status == Some(StatusName(Cancelled)) && e.afterValue.None?))
    && (IsSuccessEntry(e) ==>
          && e.afterValue == Some(st.records[e.profileUpdateId].newIncome)
          && e.profileUpdateId !in st.sessions
          && Browser(e.profileUpdateId) in st.commits)
  }

  ghost predicate Inv(st: BotState) {
    && (forall id :: id in st.records ==> IsObjectId(id) && Settled(st.records[id]))
    && (forall id :: id in st.sessions ==> PinnedWell(st, id))
    && (forall k :: 0 <= k < |st.closed| ==> st.closed[k].launchedFor in st.records)
    && NoDuplicates(st.closed)
    && (forall k :: 0 <= k < |st.commits| ==> st.commits[k] in st.closed)
    && NoDuplicates(st.commits)
    && (forall k :: 0 <= k < |st.audit| ==> AuditWell(st, st.audit[k]))
    && (forall j, k :: 0 <= j < k < |st.audit| && IsSuccessEntry(st.audit[j]) && IsSuccessEntry(st.audit[k]) ==>
          st.audit[j].profileUpdateId != st.audit[k].profileUpdateId)
  }

  lemma InitialInv()
    ensures Inv(INITIAL)
  {
  }

  /** Adding a finished record under a fresh id, optionally pinning its browser, keeps the invariant. */
  lemma AddRecordInv(st: BotState, id: ObjectId, rec: ProfileUpdate, pin: bool)
    requires Inv(st) && id !in st.records && Settled(rec)
    requires pin ==> rec.status == ScreenshotSent
    ensures Inv(st.(records := st.records[id := rec],
                    sessions := if pin then st.sessions[id := Browser(id)] else st.sessions))
  {
    var st' := st.(records := st.records[id := rec],
                   sessions := if pin then st.sessions[id := Browser(id)] else st.sessions);
    assert Browser(id) !in st.closed;
    assert Browser(id) !in st.commits;
    forall x | x in st'.sessions
      ensures PinnedWell(st', x)
    {
      if x != id {
        assert PinnedWell(st, x);
      }
    }
    forall k | 0 <= k < |st'.audit|
      ensures AuditWell(st', st'.audit[k])
    {
      assert AuditWell(st, st.audit[k]);
    }
  }

  /** Rewriting the status and messages of an unpinned record, keeping who asked and for what, keeps the invariant. */
  lemma UpdateRecordInv(st: BotState, id: string, rec: ProfileUpdate)
    requires Inv(st) && id in st.records && id !in st.sessions && Settled(rec)
    requires rec.telegramUserId == st.records[id].telegramUserId && rec.newIncome == st.records[id].newIncome
    ensures Inv(st.(records := st.records[id := rec]))
  {
    var st' := st.(records := st.records[id := rec]);
    forall k | 0 <= k < |st'.audit|
      ensures AuditWell(st', st'.audit[k])
    {
      assert AuditWell(st, st.audit[k]);
    }
  }

  /** Appending a well-formed entry keeps the invariant, if a success entry is the first for its record. */
  lemma AppendAuditInv(st: BotState, e: AuditLog)
    requires Inv(st) && AuditWell(st, e)
    requires IsSuccessEntry(e) ==> forall k :: 0 <= k < |st.audit| && IsSuccessEntry(st.audit[k]) ==>
                                      st.audit[k].profileUpdateId != e.profileUpdateId
    ensures Inv(st.(audit := st.audit + [e]))
  {
  }

  /** Releasing a pinned browser, after committing through it or not, keeps the invariant. */
  lemma ReleaseInv(st: BotState, id: string, commit: bool)
    requires Inv(st) && id in st.sessions
    ensures Inv(Release(if commit then st.(commits := st.commits + [st.sessions[id]]) else st, id))
  {
    var pre := if commit then st.(commits := st.commits + [st.sessions[id]]) else st;
    var st' := Release(pre, id);
    assert PinnedWell(st, id);
    forall k | 0 <= k < |st'.audit|
      ensures AuditWell(st', st'.audit[k])
    {
      assert AuditWell(st, st.audit[k]);
    }
  }

  lemma OnTextInv(st: BotState, extracted: Extraction, userId: int, chatId: int, id: ObjectId,
                  fill: FillResult, send: SendResult)
    requires Inv(st)
    ensures Inv(OnText(st, extracted, userId, chatId, id, fill, send))
  {
    if extracted.intent == UPDATE_INCOME && extracted.newIncome.Some? && id !in st.records {
      var created := CreateProfileUpdate(Some(userId), Some(chatId), extracted.newIncome, Some(StatusName(Pending))).value;
      match fill
      case FillFailed(msg) =>
        AddRecordInv(st, id, created.(status := Failed, errorMessage := Some(msg)), false);
      case Filled(prev, shot) =>
        var shown := created.(previousIncome := prev, screenshotBase64 := Some(shot), status := ScreenshotSent);
        match send
        case SendFailed(msg) =>
          AddRecordInv(st, id, shown.(status := Failed, errorMessage := Some(msg)), false);
        case Delivered(msgId) =>
          AddRecordInv(st, id, shown.(confirmationMsgId := Some(msgId)), true);
    }
  }

  lemma OnTimeoutInv(st: BotState, id: string)
    requires Inv(st)
    ensures Inv(OnTimeout(st, id))
  {
    if id in st.sessions {
      ReleaseInv(st, id, false);
      var released := Release(st, id);
      var rec := st.records[id];
      UpdateRecordInv(released, id, rec.(status := Cancelled, errorMessage := Some(TIMED_OUT)));
    }
  }

  lemma ConfirmInv(st: BotState, id: string, commit: CommitResult)
    requires Inv(st) && id in st.records
    ensures Inv(Confirm(st, id, commit))
  {
    var rec := st.records[id];
    if id !in st.sessions {
      UpdateRecordInv(st, id, rec.(status := Failed, errorMessage := Some(SESSION_EXPIRED)));
    } else {
      assert PinnedWell(st, id);
      ReleaseInv(st, id, true);
      var released := Release(st.(commits := st.commits + [st.sessions[id]]), id);
      match commit
      case Committed =>
        var done := rec.(status := Success, actualIncome := Some(rec.newIncome));
        UpdateRecordInv(released, id, done);
        var updated := released.(records := released.records[id := done]);
        var e := AuditEntry(id, rec, Some(rec.newIncome), Success);
        forall k | 0 <= k < |updated.audit| && IsSuccessEntry(updated.audit[k])
          ensures updated.audit[k].profileUpdateId != e.profileUpdateId
        {
          assert AuditWell(st, st.audit[k]);
        }
        AppendAuditInv(updated, e);
        assert updated.(audit := updated.audit + [e]) == Confirm(st, id, commit);
      case CommitFailed(msg) =>
        UpdateRecordInv(released, id, rec.(status := Failed, errorMessage := Some(msg)));
    }
  }

  lemma CancelInv(st: BotState, id: string)
    requires Inv(st) && id in st.records
    ensures Inv(Cancel(st, id))
  {
    var rec := st.records[id];
    var e := AuditEntry(id, rec, None, Cancelled);
    var released := if id in st.sessions then Release(st, id) else st;
    if id in st.sessions {
      ReleaseInv(st, id, false);
    }
    UpdateRecordInv(released, id, rec.(status := Cancelled));
    var updated := released.(records := released.records[id := rec.(status := Cancelled)]);
    AppendAuditInv(updated, e);
    assert updated.(audit := updated.audit + [e]) == Cancel(st, id);
  }

  lemma OnCallbackInv(st: BotState, data: string, commit: CommitResult)
    requires Inv(st)
    ensures Inv(OnCallback(st, data, commit))
  {
    var cb := ParseCallback(data);
    if cb.recordId.Some? && cb.recordId.value in st.records {
      if cb.action == CONFIRM {
        ConfirmInv(st, cb.recordId.value, commit);
      } else if cb.action == CANCEL {
        CancelInv(st, cb.recordId.value);
      }
    }
  }

  lemma StepInv(st: BotState, ev: Event)
    requires Inv(st)
    ensures Inv(Step(st, ev))
  {
    match ev
    case TextMessage(x, u, c, id, f, s) => OnTextInv(st, x, u, c, id, f, s);
    case TimerFired(id) => OnTimeoutInv(st, id);
    case ButtonPressed(data, commit) => OnCallbackInv(st, data, commit);
  }
}
