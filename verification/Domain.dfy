/** The entities that move through the planner: messages, requests, revisions, owner decisions. */
module Domain {
  import opened Wrappers

  type Byte = b: int | 0 <= b < 256
  type Bytes = seq<Byte>

  datatype MessageType = Text | Audio | Voice | Video | Image | Document

  datatype Message = Message(
    id: string,
    kind: MessageType,
    order: int,
    receivedAt: int,
    text: Option<string>,
    caption: Option<string>,
    mediaId: Option<string>,
    mimeType: Option<string>,
    filename: Option<string>,
    rawRef: Option<string>)

  /** The value of a bucket of messages: what an open bucket holds and what it is emitted as. */
  datatype AggregatedRequest = AggregatedRequest(
    requestId: string,
    clientId: string,
    startedAt: int,
    lastAt: int,
    messages: seq<Message>)

  datatype Intent = Quote | ExecutionPlan | NoIntent

  datatype RequestState =
    | Received | Aggregating | ProcessingMedia | Classifying
    | AwaitingClassification | Generating | Rendering | AwaitingApproval
    | Completed | Discarded | Failed

  datatype Trigger =
    | StartAggregation | WindowClosed | MediaProcessed | ClassifiedActionable | ClassifiedNone
    | OwnerConfirmed | OwnerCorrected | OwnerRejected | Generated | Rendered
    | OwnerApproved | OwnerRequestedRevision | Fail

  datatype OwnerDecision = Confirm | Correct | Reject | Approve | Revise

  datatype Gate = Classification | Approval

  /** Generated content; `schema` is the intent whose schema it was validated against. */
  datatype Content = Content(schema: Intent, body: string)

  /** `intent` is optional because a correction copies the clicked link's optional intent. */
  datatype Request = Request(
    id: string,
    clientId: string,
    clientName: string,
    state: RequestState,
    intent: Option<Intent>,
    confidence: Option<real>,
    createdAt: int,
    updatedAt: int,
    transcript: Option<string>,
    currentRevision: nat,
    flags: seq<string>)

  datatype Revision = Revision(
    requestId: string,
    revisionNo: nat,
    content: Content,
    feedback: Option<string>,
    pdfRef: string,
    docxRef: string,
    createdAt: int)

  datatype OwnerAction = OwnerAction(
    requestId: string,
    gate: Gate,
    decision: OwnerDecision,
    actionId: string,
    intent: Option<Intent>,
    revisionNo: nat,
    feedback: Option<string>)

  datatype Interaction = Interaction(id: string, requestId: string, gate: Gate, decision: OwnerDecision)
}
