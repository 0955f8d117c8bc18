/**
 * The bot itself: the handlers update the records, the `pendingSessions`
 * map and the logs in place, one assignment at a time, and each handler is
 * proved to make exactly the step the Workflow module specifies, keeping
 * the workflow invariant.
 */
module TelegramBot {
  import opened Wrappers
  import opened Models
  import opened CallbackPayload
  import opened Workflow

  class Bot {
    /** The ProfileUpdate collection, by document id. */
    var records: map<string, ProfileUpdate>
    /** `pendingSessions`: the browser kept alive for each record awaiting a decision. */
    var sessions: map<string, Browser>
    /** The AuditLog collection, in insertion order. */
    var audit: seq<AuditLog>
    /** Every `closeBrowser` call, in order. */
    var closed: seq<Browser>
    /** Every `clickSimpan` call, by the browser whose page was used. */
    var commits: seq<Browser>

    ghost function State(): BotState
      reads this
    {
      BotState(records, sessions, audit, closed, commits)
    }

    ghost predicate Valid()
      reads this
    {
      Inv(State())
    }

    constructor ()
      ensures Valid() && State() == INITIAL
    {
      records, sessions, audit, closed, commits := map[], map[], [], [], [];
    }

    /** `pendingSessions.delete(id)` and `closeBrowser(session.browser)`. */
    method ReleaseSession(id: string)
      requires id in sessions
      modifies this
      ensures State() == Release(old(State()), id)
    {
      var browser := sessions[id];
      sessions := sessions - {id};
      closed := closed + [browser];
    }

    /** The "message:text" handler. */
    method HandleText(extracted: Extraction, userId: int, chatId: int, id: ObjectId,
                      fill: FillResult, send: SendResult)
      requires Valid()
      modifies this
      ensures Valid()
      ensures State() == OnText(old(State()), extracted, userId, chatId, id, fill, send)
    {
      OnTextInv(State(), extracted, userId, chatId, id, fill, send);
      if extracted.intent != UPDATE_INCOME || extracted.newIncome.None? {
        return;
      }
      var created := CreateProfileUpdate(Some(userId), Some(chatId), extracted.newIncome, Some(StatusName(Pending)));
      if created.Err? || id in records {
        return;
      }
      ghost var st0 := State();
      records := records[id := created.value];
      PrepareRecord(id, created.value, fill, send);
      PrepareAfterInsert(st0, id, created.value, fill, send);
    }

    /** The `try` block of the "message:text" handler, once the record is inserted. */
    method PrepareRecord(id: string, created: ProfileUpdate, fill: FillResult, send: SendResult)
      requires id in records && records[id] == created
      modifies this
      ensures State() == Prepare(old(State()), id, created, fill, send)
    {
      var record := created;
      ghost var before := records;
      match fill {
        case FillFailed(msg) =>
          record := record.(status := Failed, errorMessage := Some(msg));
          records := records[id := record];
        case Filled(prev, shot) =>
          record := record.(previousIncome := prev, screenshotBase64 := Some(shot), status := ScreenshotSent);
          records := records[id := record];
          match send {
            case SendFailed(msg) =>
              record := record.(status := Failed, errorMessage := Some(msg));
              records := records[id := record];
              assert records == before[id := record];
            case Delivered(msgId) =>
              record := record.(confirmationMsgId := Some(msgId));
              records := records[id := record];
              assert records == before[id := record];
              sessions := sessions[id := Browser(id)];
          }
      }
    }

    /** The callback of the five-minute timer armed for record `id`. */
    method HandleTimeout(id: string)
      requires Valid()
      modifies this
      ensures Valid()
      ensures State() == OnTimeout(old(State()), id)
    {
      OnTimeoutInv(State(), id);
      if id in sessions {
        ReleaseSession(id);
        if id in records && records[id].status == ScreenshotSent {
          records := records[id := records[id].(status := Cancelled, errorMessage := Some(TIMED_OUT))];
        }
      }
    }

    /** The "callback_query:data" handler. */
    method HandleCallback(data: string, commit: CommitResult)
      requires Valid()
      modifies this
      ensures Valid()
      ensures State() == OnCallback(old(State()), data, commit)
    {
      OnCallbackInv(State(), data, commit);
      var cb := ParseCallback(data);
      if cb.recordId.None? || cb.recordId.value !in records {
        return;
      }
      if cb.action == CONFIRM {
        ConfirmUpdate(cb.recordId.value, commit);
      } else if cb.action == CANCEL {
        CancelUpdate(cb.recordId.value);
      }
    }

    /** The confirm branch: commit through the pinned page, record the outcome, and release the session in `finally`. */
    method ConfirmUpdate(recordId: string, commit: CommitResult)
      requires recordId in records
      modifies this
      ensures State() == Confirm(old(State()), recordId, commit)
    {
      var record := records[recordId];
      if recordId !in sessions {
        records := records[recordId := record.(status := Failed, errorMessage := Some(SESSION_EXPIRED))];
        return;
      }
      commits := commits + [sessions[recordId]];
      match commit {
        case Committed =>
          record := record.(status := Success, actualIncome := Some(record.newIncome));
          records := records[recordId := record];
          audit := audit + [AuditEntry(recordId, record, Some(record.newIncome), Success)];
        case CommitFailed(msg) =>
          records := records[recordId := record.(status := Failed, errorMessage := Some(msg))];
      }
      ReleaseSession(recordId);
    }

    /** The cancel branch: mark the record CANCELLED, audit it, and release its session if one is pinned. */
    method CancelUpdate(recordId: string)
      requires recordId in records
      modifies this
      ensures State() == Cancel(old(State()), recordId)
    {
      var record := records[recordId];
      records := records[recordId := record.(status := Cancelled)];
      audit := audit + [AuditEntry(recordId, record, None, Cancelled)];
      if recordId in sessions {
        ReleaseSession(recordId);
      }
    }
  }
}
