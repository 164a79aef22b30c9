/**
 * The SDK message (V2NIMMessage) as far as the chat UI reads and writes it,
 * the JSON-like values kept in its extension dictionaries, and the layout
 * environment (constants and measurement oracles) shared by the message models.
 */
module Messages {
  import opened Wrappers

  /** A value of a JSON dictionary as produced by the SDK's JSON helpers. */
  datatype Value =
    | Null
    | Bool(b: bool)
    | Num(n: int)
    | Str(s: string)
    | Arr(items: seq<Value>)
    | Obj(fields: map<string, Value>)

  /**
   * A server or local extension after parsing: `None` when the raw string is
   * nil or does not parse as a JSON dictionary.
   */
  type Extension = Option<map<string, Value>>

  /** The `V2NIMMessageType` cases the UI distinguishes; every other SDK type is `OtherMsg`. */
  datatype MessageType =
    | TextMsg | ImageMsg | AudioMsg | VideoMsg | LocationMsg | NotificationMsg
    | FileMsg | TipMsg | CallMsg | CustomMsg | OtherMsg

  /** Image, audio and video attachments are file attachments in the SDK. */
  datatype FileKind = PlainFile | ImageFile | AudioFile | VideoFile

  /**
   * A message attachment. For a custom attachment, `customType`, `data` and
   * `richTextContent` are what `NECustomAttachment.typeOfCustomMessage`,
   * `dataOfCustomMessage` and `contentOfRichText` return for it.
   */
  datatype Attachment =
    | NoAttachment
    | FileAttachment(fileKind: FileKind, url: Option<string>, path: Option<string>, ext: Option<string>)
    | CallAttachment(callType: int)
    | NotificationAttachment(targetIds: Option<seq<string>>)
    | CustomAttachment(customType: Option<int>, data: Option<map<string, Value>>, richTextContent: Option<string>)
    | OtherAttachment

  /**
   * Custom attachment sub-types recognised by the message factory. Their
   * numeric values live in NEChatKit, which is not part of this model; the
   * model relies only on their being distinct.
   */
  const CustomMultiForwardType: int := 101
  const CustomRichTextType: int := 102

  /** `NECustomAttachment.typeOfCustomMessage`: only custom attachments have a sub-type. */
  function CustomTypeOf(a: Attachment): (r: Option<int>)
    ensures r.Some? ==> a.CustomAttachment? && a.customType == r
  {
    if a.CustomAttachment? then a.customType else None
  }

  /**
   * Extension keys. Their string values live in NEChatKit, which is not part
   * of this model; the model relies only on their being pairwise distinct.
   */
  const AtMarkKey: string := "yxAitMsg"
  const ReplyKey: string := "yxReplyMsg"
  const AtSegmentsKey: string := "segments"
  const MergedNickKey: string := "mergedMessageNickKey"
  const MergedAvatarKey: string := "mergedMessageAvatarKey"
  const RevokeFlagKey: string := "revoke_message"
  const RevokeContentKey: string := "revoke_message_content"

  /** A value snapshot of every field of a message. */
  datatype MessageData = MessageData(
    messageType: MessageType,
    attachment: Attachment,
    messageClientId: Option<string>,
    senderId: Option<string>,
    conversationId: Option<string>,
    createTime: real,
    localExtension: Extension,
    text: Option<string>,
    serverExtension: Extension)

  /**
   * An SDK message. The UI core only ever writes `text` and `serverExtension`;
   * every other field is fixed when the SDK hands the message over.
   */
  class Message {
    const messageType: MessageType
    const attachment: Attachment
    const messageClientId: Option<string>
    const senderId: Option<string>
    const conversationId: Option<string>
    const createTime: real
    const localExtension: Extension
    var text: Option<string>
    var serverExtension: Extension

    constructor (d: MessageData)
      ensures Snapshot() == d
    {
      messageType, attachment, messageClientId := d.messageType, d.attachment, d.messageClientId;
      senderId, conversationId, createTime := d.senderId, d.conversationId, d.createTime;
      localExtension, text, serverExtension := d.localExtension, d.text, d.serverExtension;
    }

    function Snapshot(): (d: MessageData)
      reads this
      ensures d.text == text && d.serverExtension == serverExtension
      ensures d.messageType == messageType && d.attachment == attachment && d.senderId == senderId
    {
      MessageData(messageType, attachment, messageClientId, senderId, conversationId,
                  createTime, localExtension, text, serverExtension)
    }
  }

  /** Width and height of a laid-out box (CGSize). */
  datatype Size = Size(width: real, height: real)

  /** A highlighted character range (NSRange) of an attributed string. */
  datatype Span = Span(location: int, length: int)

  /**
   * An attributed string as the models build it: its characters (after emoji
   * substitution), whether its font is the semibold title font, and the ranges
   * coloured as @-mentions.
   */
  datatype StyledText = StyledText(chars: string, semibold: bool, highlights: set<Span>)

  /**
   * Layout constants and the oracles the models call: `localize` is
   * `chatLocalizable`, `emotion` is the character substitution done by
   * `NEEmotionTool.getAttWithStr`, `measure(s, w)` is the bounding box of `s`
   * laid out at maximum width `w` (`finalSize` / `getRealSize`).
   */
  datatype Env = Env(
    margin: real,
    pinHeight: real,
    textMaxWidth: real,
    titleMaxWidth: real,
    atRangeOffset: int,
    multiForwardCellHeight: real,
    localize: string -> string,
    emotion: string -> string,
    measure: (StyledText, real) -> Size)
}
