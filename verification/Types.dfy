/** The wire entities of the streaming lifecycle: parts, items, responses and
    stream events.  Every value is a snapshot, the copy a client would see. */
module Types {

  import opened Wrappers

  // ---- Content parts ----------------------------------------------------------

  /** The type name a content part carries on the wire. */
  datatype PartType = TypeOutputText | TypeRefusal | TypeSummaryText | TypeReasoningText
                    | TypeOtherPart(name: string)

  datatype Annotation = NilAnnotation | Annotation(payload: string)

  type Logprob = string

  datatype Part =
    | NilPart
    | OutputText(text: string, annotations: seq<Annotation>, logprobs: seq<Logprob>)
    | Refusal(refusal: string)
    | SummaryText(text: string)
    | ReasoningText(text: string)
    | OtherPart(otherType: PartType, payload: string)

  function PartTypeOf(part: Part): PartType {
    match part
    case NilPart => TypeOtherPart("")
    case OutputText(_, _, _) => TypeOutputText
    case Refusal(_) => TypeRefusal
    case SummaryText(_) => TypeSummaryText
    case ReasoningText(_) => TypeReasoningText
    case OtherPart(t, _) => t
  }

  // ---- Items --------------------------------------------------------------------

  datatype Status = Unset | InProgress | Completed | Incomplete | OtherStatus(name: string)

  datatype ItemType = TypeMessage | TypeFunctionCall | TypeFunctionCallOutput | TypeReasoning
                    | TypeCompaction | TypeItemReference | TypeOtherItem(name: string)

  /** One entry of a request input or a response output.  NilItem is the null
      entry a padded list holds; RegisteredItem is a type another package
      registered, which has no identity the library can read. */
  datatype Item =
    | NilItem
    | Message(id: string, status: Status, role: string, phase: string, content: seq<Part>)
    | FunctionCall(id: string, status: Status, callId: string, name: string, arguments: string)
    | FunctionCallOutput(id: string, status: Status, callId: string, output: string)
    | Reasoning(id: string, status: Status, summary: seq<Part>, content: seq<Part>, encrypted: string)
    | Compaction(id: string, status: Status, encrypted: string)
    | ItemReference(id: string)
    | UnknownItem(otherType: ItemType, id: string, status: Status, payload: string)
    | RegisteredItem(otherType: ItemType, payload: string)

  function ItemId(item: Item): string {
    if item.NilItem? || item.RegisteredItem? then "" else item.id
  }

  function StatusOf(item: Item): Status {
    if item.NilItem? || item.RegisteredItem? || item.ItemReference? then Unset else item.status
  }

  function ItemTypeOf(item: Item): ItemType {
    match item
    case NilItem => TypeOtherItem("")
    case Message(_, _, _, _, _) => TypeMessage
    case FunctionCall(_, _, _, _, _) => TypeFunctionCall
    case FunctionCallOutput(_, _, _, _) => TypeFunctionCallOutput
    case Reasoning(_, _, _, _, _) => TypeReasoning
    case Compaction(_, _, _) => TypeCompaction
    case ItemReference(_) => TypeItemReference
    case UnknownItem(t, _, _, _) => t
    case RegisteredItem(t, _) => t
  }

  /** Same type and id: what the lifecycle means by "the same item". */
  predicate SameItem(a: Item, b: Item) {
    ItemTypeOf(a) == ItemTypeOf(b) && ItemId(a) == ItemId(b)
  }

  // ---- Responses ------------------------------------------------------------------

  datatype ResponseStatus = RUnset | RQueued | RInProgress | RCompleted | RIncomplete | RFailed
                          | ROther(name: string)
  {
    predicate Terminal() { RCompleted? || RIncomplete? || RFailed? }
  }

  /** details stands for every field the lifecycle never reads (model, usage,
      tools, metadata and the rest). */
  datatype Response = Response(
    id: string, status: ResponseStatus, output: seq<Item>, error: Option<string>,
    reason: Option<string>, previousId: Option<string>, details: string)
  {
    function Complete(): Response { this.(status := RCompleted) }

    function MarkIncomplete(why: string): Response { this.(status := RIncomplete, reason := Some(why)) }

    function Fail(why: string): Response { this.(status := RFailed, error := Some(why)) }
  }

  // ---- Stream events ----------------------------------------------------------------

  datatype SnapshotKind = Created | Queued | Started | Finished | Failed | Stopped
  {
    /** completed, failed and incomplete end a stream. */
    predicate Terminal() { Finished? || Failed? || Stopped? }
  }

  datatype Event =
    | Snapshot(kind: SnapshotKind, response: Option<Response>)
    | ItemAdded(outputIndex: int, item: Item)
    | ItemDone(outputIndex: int, item: Item)
    | PartAdded(itemId: string, outputIndex: int, contentIndex: int, part: Part)
    | PartDone(itemId: string, outputIndex: int, contentIndex: int, part: Part)
    | TextDelta(itemId: string, outputIndex: int, contentIndex: int, delta: string, newLogprobs: seq<Logprob>)
    | TextDone(itemId: string, outputIndex: int, contentIndex: int, text: string, allLogprobs: Option<seq<Logprob>>)
    | AnnotationAdded(itemId: string, outputIndex: int, contentIndex: int, annotationIndex: int, annotation: Annotation)
    | RefusalDelta(itemId: string, outputIndex: int, contentIndex: int, delta: string)
    | RefusalDone(itemId: string, outputIndex: int, contentIndex: int, text: string)
    | ArgumentsDelta(itemId: string, outputIndex: int, delta: string)
    | ArgumentsDone(itemId: string, outputIndex: int, text: string)
    | SummaryAdded(itemId: string, outputIndex: int, summaryIndex: int, part: Part)
    | SummaryDone(itemId: string, outputIndex: int, summaryIndex: int, part: Part)
    | SummaryDelta(itemId: string, outputIndex: int, summaryIndex: int, delta: string)
    | SummaryTextDone(itemId: string, outputIndex: int, summaryIndex: int, text: string)
    | ReasoningDelta(itemId: string, outputIndex: int, contentIndex: int, delta: string)
    | ReasoningDone(itemId: string, outputIndex: int, contentIndex: int, text: string)
    | ErrorEvent(error: string)
    | Extension(name: string)
  {
    predicate Terminal() { Snapshot? && kind.Terminal() }

    /** An event that edits the inside of an item. */
    predicate Content() {
      !Snapshot? && !ItemAdded? && !ItemDone? && !ErrorEvent? && !Extension?
    }

    /** The content, summary and annotation indices the accumulator indexes
        with directly are not negative. */
    predicate WellIndexed() {
      match this
      case PartAdded(_, _, c, _) => c >= 0
      case PartDone(_, _, c, _) => c >= 0
      case AnnotationAdded(_, _, _, k, _) => k >= 0
      case SummaryAdded(_, _, s, _) => s >= 0
      case SummaryDone(_, _, s, _) => s >= 0
      case ReasoningDelta(_, _, c, _) => c >= 0
      case ReasoningDone(_, _, c, _) => c >= 0
      case _ => true
    }
  }

  /** An event as a sink records it, with the sequence number it was given. */
  datatype Frame = Frame(number: int, event: Event)

  function Numbered(events: seq<Event>): (frames: seq<Frame>)
    ensures |frames| == |events|
    ensures forall i :: 0 <= i < |events| ==> frames[i] == Frame(i, events[i])
  {
    seq(|events|, i requires 0 <= i < |events| => Frame(i, events[i]))
  }

  /** The list with `item` at `pos`, padded with `filler` up to it. */
  function PlaceAt<T>(list: seq<T>, pos: nat, item: T, filler: T): (placed: seq<T>)
    ensures |placed| == if pos < |list| then |list| else pos + 1
    ensures placed[pos] == item
    ensures forall p :: 0 <= p < |list| && p != pos ==> placed[p] == list[p]
    ensures forall p :: |list| <= p < pos ==> placed[p] == filler
  {
    if pos < |list| then list[pos := item]
    else list + seq(pos - |list|, _ => filler) + [item]
  }
}
