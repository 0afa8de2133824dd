/** The shared records of src/types/index.ts, as values. Fields that the
    TypeScript declares optional are `Option`s; the item slots of a look and
    the `remaining` count keep the shapes that the JSON payloads can really
    have, because the handlers test those shapes at run time. */
module Types {
  import opened Common

  datatype ProductItem = ProductItem(
    title: string,
    productLink: string,
    source: string,
    icon: string,
    price: real,
    photoUrl: string)

  /** The optional per-slot descriptions of a look (`item1` .. `item5`). */
  datatype LookDescription = LookDescription(
    item1: Option<string>,
    item2: Option<string>,
    item3: Option<string>,
    item4: Option<string>,
    item5: Option<string>)

  /** `remaining` as it can arrive in JSON: missing, `null`, or a number.
      `null !== undefined`, so a `null` count still marks a look batch. */
  datatype Remaining = NoRemaining | NullRemaining | Count(n: int)

  /** One item slot (`items1` .. `items5`) as it can arrive in JSON: missing,
      an array of products, or a single non-array product object. */
  datatype Slot = NoItems | ItemList(items: seq<ProductItem>) | NonArray(item: ProductItem)

  datatype LookData = LookData(
    remaining: Remaining,
    descricaoLooks: Option<LookDescription>,
    items1: Slot,
    items2: Slot,
    items3: Slot,
    items4: Slot,
    items5: Slot)

  /** The slot of category `n` (1 .. 5) of a look. */
  function SlotAt(look: LookData, n: int): Slot
    requires 1 <= n <= 5
  {
    match n
    case 1 => look.items1
    case 2 => look.items2
    case 3 => look.items3
    case 4 => look.items4
    case _ => look.items5
  }

  datatype Sender = User | Bot

  datatype MessageType = TextMessage | LookMessage | InitialMessage

  datatype Message = Message(
    id: string,
    text: Option<string>,
    sender: Sender,
    timestamp: int,
    kind: MessageType,
    looks: Option<seq<LookData>>,
    expectedLooksCount: Option<int>,
    images: Option<seq<string>>)

  datatype QuickResponse = QuickResponse(text: string, id: string)

  /** The browser `File` fields the handlers read. */
  datatype FileRef = FileRef(name: string, mimeType: string, size: int)

  datatype UploadedImage = UploadedImage(
    id: string,
    file: FileRef,
    preview: string,
    url: Option<string>,
    isUploading: bool,
    error: Option<string>)

  /** The ids of a list of messages, in order. */
  function MessageIds(ms: seq<Message>): (ids: seq<string>)
    ensures |ids| == |ms|
    ensures forall i :: 0 <= i < |ms| ==> ids[i] == ms[i].id
  {
    if ms == [] then [] else [ms[0].id] + MessageIds(ms[1..])
  }

  /** The ids of a list of staged images, in order. */
  function ImageIds(imgs: seq<UploadedImage>): (ids: seq<string>)
    ensures |ids| == |imgs|
    ensures forall i :: 0 <= i < |imgs| ==> ids[i] == imgs[i].id
  {
    if imgs == [] then [] else [imgs[0].id] + ImageIds(imgs[1..])
  }
}
