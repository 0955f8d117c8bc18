/**
 * The two document schemas of the store: ProfileUpdate (one income-change
 * request) and AuditLog (one immutable entry per audited outcome).
 * Creating a document runs the schema's validation: required paths must be
 * present, `status` must be one of the enum's names, and absent paths take
 * their defaults.
 */
module Models {
  import opened Wrappers

  /** The six values of the ProfileUpdate `status` enum. */
  datatype Status = Pending | ScreenshotSent | Confirmed | Cancelled | Success | Failed

  /** The name a status is stored under. */
  function StatusName(s: Status): string {
    match s
    case Pending => "PENDING"
    case ScreenshotSent => "SCREENSHOT_SENT"
    case Confirmed => "CONFIRMED"
    case Cancelled => "CANCELLED"
    case Success => "SUCCESS"
    case Failed => "FAILED"
  }

  /** The enum validator: a name is accepted exactly when it names one of the six statuses. */
  function ParseStatus(name: string): (r: Option<Status>)
    ensures r.Some? ==> StatusName(r.value) == name
    ensures r.None? ==> forall s: Status :: StatusName(s) != name
  {
    if name == "PENDING" then Some(Pending)
    else if name == "SCREENSHOT_SENT" then Some(ScreenshotSent)
    else if name == "CONFIRMED" then Some(Confirmed)
    else if name == "CANCELLED" then Some(Cancelled)
    else if name == "SUCCESS" then Some(Success)
    else if name == "FAILED" then Some(Failed)
    else None
  }

  /** Every status survives being stored by name and validated again. */
  lemma ParseStatusName(s: Status)
    ensures ParseStatus(StatusName(s)) == Some(s)
  {
    match s
    case Pending =>
    case ScreenshotSent =>
    case Confirmed =>
    case Cancelled =>
    case Success =>
    case Failed =>
  }

  /** The value of the AuditLog `field` path when none is given. */
  const INCOME_FIELD := "Pendapatan"

  /** A ProfileUpdate document (timestamps left out). */
  datatype ProfileUpdate = ProfileUpdate(
    telegramUserId: int,
    telegramChatId: int,
    newIncome: int,
    previousIncome: Option<int>,
    actualIncome: Option<int>,
    status: Status,
    screenshotBase64: Option<string>,
    errorMessage: Option<string>,
    confirmationMsgId: Option<int>)

  /** An AuditLog document (timestamps left out). */
  datatype AuditLog = AuditLog(
    profileUpdateId: string,
    telegramUserId: int,
    field: string,
    beforeValue: Option<int>,
    afterValue: Option<int>,
    status: Option<string>)

  /** The one-path error list of a failed check, or nothing when the check passed. */
  function Flag(invalid: bool, path: string): (paths: seq<string>)
    ensures path in paths <==> invalid
    ensures paths <= [path]
  {
    if invalid then [path] else []
  }

  /**
   * `ProfileUpdate.create`: validates the given paths and fills in the
   * defaults. A missing required path or an unknown status name is refused,
   * and the error lists every offending path. A `status` of `None` is a path
   * left out of the call, which takes the default.
   */
  function CreateProfileUpdate(
    telegramUserId: Option<int>,
    telegramChatId: Option<int>,
    newIncome: Option<int>,
    status: Option<string>): (r: Result<ProfileUpdate, seq<string>>)
    ensures r.Ok? <==>
      && telegramUserId.Some? && telegramChatId.Some? && newIncome.Some?
      && (status.Some? ==> ParseStatus(status.value).Some?)
    ensures r.Err? ==>
      && ("telegramUserId" in r.error <==> telegramUserId.None?)
      && ("telegramChatId" in r.error <==> telegramChatId.None?)
      && ("newIncome" in r.error <==> newIncome.None?)
      && ("status" in r.error <==> status.Some? && ParseStatus(status.value).None?)
      && (forall p :: p in r.error ==> p in ["telegramUserId", "telegramChatId", "newIncome", "status"])
    ensures r.Ok? ==>
      && r.value.telegramUserId == telegramUserId.value
      && r.value.telegramChatId == telegramChatId.value
      && r.value.newIncome == newIncome.value
      && r.value.status == (if status.None? then Pending else ParseStatus(status.value).value)
      && r.value.previousIncome == None && r.value.actualIncome == None
      && r.value.screenshotBase64 == None && r.value.errorMessage == None
      && r.value.confirmationMsgId == None
  {
    var badStatus := status.Some? && ParseStatus(status.value).None?;
    var invalid :=
      Flag(telegramUserId.None?, "telegramUserId") + Flag(telegramChatId.None?, "telegramChatId")
      + Flag(newIncome.None?, "newIncome") + Flag(badStatus, "status");
    if invalid != [] then Err(invalid)
    else
      Ok(ProfileUpdate(
        telegramUserId.value, telegramChatId.value, newIncome.value,
        None, None,
        if status.None? then Pending else ParseStatus(status.value).value,
        None, None, None))
  }

  /**
   * `AuditLog.create`: `profileUpdateId` and `telegramUserId` are required,
   * `field` defaults to INCOME_FIELD when it is left out of the call (`None`),
   * the other paths are stored as given.
   */
  function CreateAuditLog(
    profileUpdateId: Option<string>,
    telegramUserId: Option<int>,
    field: Option<string>,
    beforeValue: Option<int>,
    afterValue: Option<int>,
    status: Option<string>): (r: Result<AuditLog, seq<string>>)
    ensures r.Ok? <==> profileUpdateId.Some? && telegramUserId.Some?
    ensures r.Err? ==>
      && ("profileUpdateId" in r.error <==> profileUpdateId.None?)
      && ("telegramUserId" in r.error <==> telegramUserId.None?)
      && (forall p :: p in r.error ==> p in ["profileUpdateId", "telegramUserId"])
    ensures r.Ok? ==>
      && r.value.profileUpdateId == profileUpdateId.value
      && r.value.telegramUserId == telegramUserId.value
      && r.value.field == (if field.None? then INCOME_FIELD else field.value)
      && r.value.beforeValue == beforeValue && r.value.afterValue == afterValue
      && r.value.status == status
  {
    var invalid := Flag(profileUpdateId.None?, "profileUpdateId") + Flag(telegramUserId.None?, "telegramUserId");
    if invalid != [] then Err(invalid)
    else
      Ok(AuditLog(
        profileUpdateId.value, telegramUserId.value,
        if field.None? then INCOME_FIELD else field.value,
        beforeValue, afterValue, status))
  }
}
