/**
  `runActionErrorForColla`: the choice of upgrade prompt for a failed action.
  The prompt itself (`handleCollaPurchaseError`) lies outside this model; a
  call to it is the returned `Dispatch`, carrying the error it would be given
  and the prompt category, and no call is `None`.
 */
module ActionErrors {
  import opened Optional
  import opened JsValues
  import opened DriveOperations
  import opened TypeHelper

  /** The upgrade-prompt categories (`CollarModalType`) the classifier uses. */
  datatype Category = TOKEN | TRAFFIC | STORAGE

  /** The arguments of one call of the upgrade prompt. */
  datatype Dispatch<E> = Dispatch(error: E, category: Category)

  const AiAgentActionType: string := "aiagent"

  /** The value of the content's `operation` property is the string `value`. */
  predicate OperationIs(content: ActionContent, value: string)
  {
    "operation" in content && content["operation"] == JsString(value)
  }

  /** `runActionErrorForColla`, branch for branch: AI agents get the token
      prompt; drive contents get the traffic prompt for downloads and the
      storage prompt for uploads; everything else gets none. */
  function RunActionErrorForColla<E>(drive: DriveEnum, actionType: string, content: ActionContent, error: E)
    : (r: Option<Dispatch<E>>)
    ensures r.Some? ==> r.value.error == error
    ensures (r.Some? && r.value.category == TOKEN) <==> actionType == "aiagent"
    ensures (r.Some? && r.value.category == TRAFFIC) <==>
      && actionType == "illadrive"
      && (OperationIs(content, drive.downloadOne) || OperationIs(content, drive.downloadMultiple))
    ensures (r.Some? && r.value.category == STORAGE) <==>
      && actionType == "illadrive"
      && (OperationIs(content, drive.upload) || OperationIs(content, drive.uploadMultiple))
      && !OperationIs(content, drive.downloadOne) && !OperationIs(content, drive.downloadMultiple)
    ensures r.None? <==>
      && actionType != "aiagent"
      && (|| actionType != "illadrive"
          || !(|| OperationIs(content, drive.downloadOne) || OperationIs(content, drive.downloadMultiple)
               || OperationIs(content, drive.upload) || OperationIs(content, drive.uploadMultiple)))
  {
    if actionType == AiAgentActionType then
      Some(Dispatch(error, TOKEN))
    else if IsDriveActionContent(drive, actionType, content) then
      var operation := content["operation"];
      if operation == JsString(drive.downloadMultiple) || operation == JsString(drive.downloadOne) then
        Some(Dispatch(error, TRAFFIC))
      else if operation == JsString(drive.upload) || operation == JsString(drive.uploadMultiple) then
        Some(Dispatch(error, STORAGE))
      else
        None
    else
      None
  }

  /** The error is only forwarded: whether a prompt is shown, and which one,
      does not depend on it. */
  lemma ErrorNotInspected<E>(drive: DriveEnum, actionType: string, content: ActionContent, e1: E, e2: E)
    ensures RunActionErrorForColla(drive, actionType, content, e1).Some?
        == RunActionErrorForColla(drive, actionType, content, e2).Some?
    ensures RunActionErrorForColla(drive, actionType, content, e1).Some? ==>
      RunActionErrorForColla(drive, actionType, content, e1).value.category
        == RunActionErrorForColla(drive, actionType, content, e2).value.category
  {
  }

  // ---------------------------------------------------------------------
  // Reference: an action as a tagged union, and the category table over it

  /** An action with its content already recognised: the drive operation is a
      member of the enumeration, the S3 command one of the client commands. */
  datatype TypedAction =
    | AiAgentAction
    | DriveAction(operation: DriveOp)
    | ClientS3Action(command: string)
    | OtherAction

  /** Recognises an action by its type tag and its content's shape. */
  function ParseAction(drive: DriveEnum, clientS3: seq<string>, actionType: string, content: ActionContent)
    : (a: TypedAction)
    ensures a.AiAgentAction? <==> actionType == "aiagent"
    ensures a.DriveAction? <==> IsDriveActionContent(drive, actionType, content)
    ensures a.DriveAction? ==> IsMember(drive, a.operation) && OperationIs(content, ValueOf(drive, a.operation))
    ensures a.ClientS3Action? <==> IsClientS3ActionContent(clientS3, actionType, content)
    ensures a.ClientS3Action? ==> a.command in clientS3
  {
    if actionType == AiAgentActionType then AiAgentAction
    else if IsDriveActionContent(drive, actionType, content) then
      DriveAction(Decode(drive, content["operation"].s).value)
    else if IsClientS3ActionContent(clientS3, actionType, content) then
      ClientS3Action(content["commands"].s)
    else OtherAction
  }

  /** Which prompt each kind of action calls for. */
  function CategoryOf(a: TypedAction): Option<Category>
  {
    match a
    case AiAgentAction => Some(TOKEN)
    case DriveAction(DownloadOne) => Some(TRAFFIC)
    case DriveAction(DownloadMultiple) => Some(TRAFFIC)
    case DriveAction(Upload) => Some(STORAGE)
    case DriveAction(UploadMultiple) => Some(STORAGE)
    case DriveAction(OtherOp(_)) => None
    case ClientS3Action(_) => None
    case OtherAction => None
  }

  /** A category paired with the error to forward. */
  function WithError<E>(category: Option<Category>, error: E): Option<Dispatch<E>>
  {
    match category
    case None => None
    case Some(c) => Some(Dispatch(error, c))
  }

  /** The classifier agrees with the table on every input, for any list of
      client S3 commands and even when enumeration values coincide. */
  lemma RunActionErrorMatchesTable<E>(
    drive: DriveEnum, clientS3: seq<string>, actionType: string, content: ActionContent, error: E)
    ensures RunActionErrorForColla(drive, actionType, content, error)
         == WithError(CategoryOf(ParseAction(drive, clientS3, actionType, content)), error)
  {
  }

  /** A drive action naming a member of a well-formed enumeration gets the
      prompt the table gives that member. */
  lemma DriveOperationPrompt<E>(drive: DriveEnum, op: DriveOp, content: ActionContent, error: E)
    requires WellFormed(drive) && IsMember(drive, op)
    requires OperationIs(content, ValueOf(drive, op))
    ensures RunActionErrorForColla(drive, "illadrive", content, error)
         == WithError(CategoryOf(DriveAction(op)), error)
  {
    DecodeValueOf(drive, op);
    RunActionErrorMatchesTable(drive, [], "illadrive", content, error);
  }

  /** In particular, a drive operation other than the four named ones gets no prompt. */
  lemma OtherDriveOperationUnclassified<E>(drive: DriveEnum, name: string, content: ActionContent, error: E)
    requires WellFormed(drive) && name in drive.others
    requires OperationIs(content, name)
    ensures RunActionErrorForColla(drive, "illadrive", content, error) == None
  {
    DriveOperationPrompt(drive, OtherOp(name), content, error);
  }
}
