/**
 * ChatMessageHelper: the message-model factory, the merged-forward bundle
 * builder (header and body), message previews, and the small extension,
 * size and path helpers.
 */
module ChatMessageHelper {
  import opened Wrappers
  import opened Messages
  import opened MessageModels

  // ---------------------------------------------------------------- image size

  /**
   * The fit of one orientation, with sides `l` (long) and `s` (short): the
   * long side is its original or its maximum, whichever is smaller; the
   * short side is at least `miniWH` and keeps the aspect ratio, or is
   * exactly `miniWH` when the ratio would have made it smaller.
   */
  predicate FitOf(maxLong: real, long: real, short: real, miniWH: real, l: real, s: real)
  {
    && (l == long || l == maxLong) && l <= long && l <= maxLong
    && s >= miniWH
    && (s * long == l * short || (s == miniWH && l * short < miniWH * long))
  }

  /**
   * One orientation of the fit: the long side becomes the smaller of itself
   * and its maximum, the short side is scaled by the same factor and raised to
   * `miniWH` when it falls below it. Returns (long side, short side).
   */
  function FitSides(maxLong: real, long: real, short: real, miniWH: real): (r: (real, real))
    requires long > 0.0 && short > 0.0
    ensures FitOf(maxLong, long, short, miniWH, r.0, r.1)
    ensures long <= maxLong && short >= miniWH ==> r == (long, short)
  {
    var x := if maxLong < long then maxLong else long;
    var y := x * short / long;
    ScaledSide(x, long, short, y, miniWH);
    (x, if y < miniWH then miniWH else y)
  }

  lemma ScaledSide(x: real, long: real, short: real, y: real, miniWH: real)
    requires long > 0.0 && y == x * short / long
    ensures y * long == x * short
    ensures y < miniWH ==> x * short < miniWH * long
    ensures x == long ==> y == short
  {
    assert y * long == x * short;
    if y < miniWH {
      assert (miniWH - y) * long > 0.0;
    }
    if x == long {
      CancelEqual(y, short, long);
    }
  }

  /**
   * The size an image is shown at. A landscape image takes the smaller of its
   * width and the maximum width and keeps its aspect ratio, unless that makes
   * it lower than `miniWH`, in which case it is raised to `miniWH`; a portrait
   * or square image does the same with the roles swapped. An image with a
   * zero or negative side is shown at the maximum size.
   */
  function GetSizeWithMaxSize(maxSize: Size, size: Size, miniWH: real): (r: Size)
    ensures !(size.width > 0.0 && size.height > 0.0) ==> r == maxSize
    ensures size.width > size.height > 0.0 ==>
      FitOf(maxSize.width, size.width, size.height, miniWH, r.width, r.height)
    ensures 0.0 < size.width <= size.height ==>
      FitOf(maxSize.height, size.height, size.width, miniWH, r.height, r.width)
    ensures && 0.0 < size.width <= maxSize.width && 0.0 < size.height <= maxSize.height
            && size.width >= miniWH && size.height >= miniWH
        ==> r == size
  {
    if size.width > 0.0 && size.height > 0.0 then
      if size.width > size.height then
        var fit := FitSides(maxSize.width, size.width, size.height, miniWH);
        Size(fit.0, fit.1)
      else
        var fit := FitSides(maxSize.height, size.height, size.width, miniWH);
        Size(fit.1, fit.0)
    else maxSize
  }

  lemma CancelEqual(a: real, b: real, c: real)
    requires c > 0.0 && a * c == c * b
    ensures a == b
  {
    assert (a - b) * c == 0.0;
  }

  // ---------------------------------------------------------------- model factory

  /** The branch `modelFromMessage` takes for a message. */
  datatype Route =
    | VideoRoute | TextRoute | ImageRoute | AudioRoute | TipsRoute | FileRoute
    | LocationRoute | CallRoute | MultiForwardRoute | RichTextRoute | UnknownRoute

  /** The model class each branch instantiates; an unknown message becomes a text model. */
  function KindOf(route: Route): ModelKind
  {
    match route
    case VideoRoute => VideoModel
    case TextRoute => TextModel
    case ImageRoute => ImageModel
    case AudioRoute => AudioModel
    case TipsRoute => TipsModel
    case FileRoute => FileModel
    case LocationRoute => LocationModel
    case CallRoute => CallRecordModel
    case MultiForwardRoute => CustomModel
    case RichTextRoute => RichTextModel
    case UnknownRoute => TextModel
  }

  /**
   * The dispatch on message type and custom sub-type: notifications and tips
   * share the tips model; a custom message is a multi-forward or rich-text
   * model by its sub-type, and falls through to the unknown branch otherwise.
   */
  function Dispatch(t: MessageType, a: Attachment): (r: Route)
    ensures r == TipsRoute <==> t == NotificationMsg || t == TipMsg
    ensures r == MultiForwardRoute <==> t == CustomMsg && CustomTypeOf(a) == Some(CustomMultiForwardType)
    ensures r == RichTextRoute <==> t == CustomMsg && CustomTypeOf(a) == Some(CustomRichTextType)
    ensures r == UnknownRoute <==>
      t == OtherMsg
      || (t == CustomMsg && CustomTypeOf(a) != Some(CustomMultiForwardType) && CustomTypeOf(a) != Some(CustomRichTextType))
    ensures KindOf(r) == TextModel <==> t == TextMsg || r == UnknownRoute
  {
    match t
    case VideoMsg => VideoRoute
    case TextMsg => TextRoute
    case ImageMsg => ImageRoute
    case AudioMsg => AudioRoute
    case NotificationMsg => TipsRoute
    case TipMsg => TipsRoute
    case FileMsg => FileRoute
    case LocationMsg => LocationRoute
    case CallMsg => CallRoute
    case CustomMsg =>
      if CustomTypeOf(a) == Some(CustomMultiForwardType) then MultiForwardRoute
      else if CustomTypeOf(a) == Some(CustomRichTextType) then RichTextRoute
      else UnknownRoute
    case OtherMsg => UnknownRoute
  }

  /**
   * The synchronous `modelFromMessage`. `base(k)` is what the initialisers
   * that are not part of this model leave in a model of class `k` built for
   * this message. The unknown branch overwrites the message text with the
   * localised "msg_unknown" token before building a text model; the
   * multi-forward branch builds a custom model whose content height is the
   * configured cell height truncated to an integer.
   */
  method ModelFromMessage(message: Message, env: Env, base: ModelKind -> BaseLayout) returns (model: MessageModel)
    modifies message
    ensures fresh(model) && model.message == message
    ensures model.kind == KindOf(Dispatch(message.messageType, message.attachment))
    ensures message.serverExtension == old(message.serverExtension)
    ensures Dispatch(message.messageType, message.attachment) == UnknownRoute ==>
      message.text == Some(env.localize("msg_unknown")) && model.modelType == Text
    ensures Dispatch(message.messageType, message.attachment) !in {UnknownRoute, RichTextRoute} ==>
      message.text == old(message.text)
    ensures Dispatch(message.messageType, message.attachment) == MultiForwardRoute ==>
      model.modelType == Custom && model.contentSize == Size(0.0, TruncateToInt(env.multiForwardCellHeight) as real)
    ensures Dispatch(message.messageType, message.attachment) == TextRoute ==> model.modelType == Text
  {
    var route := Dispatch(message.messageType, message.attachment);
    if route == TextRoute {
      model := new MessageModel.InitText(message, base(TextModel), env);
    } else if route == MultiForwardRoute {
      model := new MessageModel.InitCustomHeight(message, TruncateToInt(env.multiForwardCellHeight), base(CustomModel), env);
    } else if route == RichTextRoute {
      model := new MessageModel.InitRichText(message, base(RichTextModel), env);
    } else if route == UnknownRoute {
      message.text := Some(env.localize("msg_unknown"));
      model := new MessageModel.InitText(message, base(TextModel), env);
    } else {
      model := new MessageModel.InitBase(KindOf(route), message, base(KindOf(route)));
    }
  }

  /** What the asynchronous factory calls, in order. */
  datatype Callback =
    | LoadShowName(userIds: seq<string>, teamId: string)
    | Completion(kind: ModelKind)

  /**
   * The name load the asynchronous factory issues before completing: only for
   * a notification whose attachment lists target ids, and only when the
   * conversation's target id resolves; the ids are the targets followed by the
   * sender, when there is one.
   */
  function NameLoads(d: MessageData, targetIdOf: string -> Option<string>): (r: seq<Callback>)
    ensures |r| <= 1
    ensures forall c | c in r :: c.LoadShowName?
    ensures r != [] <==>
      d.messageType == NotificationMsg && d.attachment.NotificationAttachment? && d.attachment.targetIds.Some?
      && d.conversationId.Some? && targetIdOf(d.conversationId.value).Some?
    ensures r != [] ==>
      && r[0].userIds == d.attachment.targetIds.value + (if d.senderId.Some? then [d.senderId.value] else [])
      && r[0].teamId == targetIdOf(d.conversationId.value).value
  {
    if d.messageType == NotificationMsg && d.attachment.NotificationAttachment? && d.attachment.targetIds.Some?
       && d.conversationId.Some? && targetIdOf(d.conversationId.value).Some?
    then
      var ids := d.attachment.targetIds.value + (if d.senderId.Some? then [d.senderId.value] else []);
      [LoadShowName(ids, targetIdOf(d.conversationId.value).value)]
    else []
  }

  /** The number of completion calls in a trace. */
  function Completions(trace: seq<Callback>): (n: nat)
    ensures n <= |trace|
  {
    if trace == [] then 0
    else Completions(trace[..|trace| - 1]) + (if trace[|trace| - 1].Completion? then 1 else 0)
  }

  /** `n` copies of a callback, one after the other. */
  function Repeat(c: Callback, n: nat): (r: seq<Callback>)
    ensures |r| == n
    ensures forall i | 0 <= i < n :: r[i] == c
  {
    if n == 0 then [] else Repeat(c, n - 1) + [c]
  }

  /** A trace of name loads followed by `n` completions calls the completion exactly `n` times. */
  lemma {:induction false} CompletionsCount(loads: seq<Callback>, kind: ModelKind, n: nat)
    requires forall c | c in loads :: c.LoadShowName?
    ensures Completions(loads + Repeat(Completion(kind), n)) == n
  {
    if n == 0 {
      assert loads + Repeat(Completion(kind), 0) == loads;
      NoCompletions(loads);
    } else {
      var t := loads + Repeat(Completion(kind), n);
      assert t[..|t| - 1] == loads + Repeat(Completion(kind), n - 1);
      CompletionsCount(loads, kind, n - 1);
    }
  }

  /** A trace of name loads alone calls no completion. */
  lemma {:induction false} NoCompletions(loads: seq<Callback>)
    requires forall c | c in loads :: c.LoadShowName?
    ensures Completions(loads) == 0
  {
    if loads != [] {
      assert loads[|loads| - 1] in loads;
      NoCompletions(loads[..|loads| - 1]);
    }
  }

  /**
   * The asynchronous `modelFromMessage`: the same dispatch as the synchronous
   * one. When a notification needs a name load, the completion runs inside
   * the team cache's callback, so it runs once per callback; `loadCallbacks`
   * is how many times the cache calls back. On every other path the
   * completion runs exactly once. `targetIdOf` is the SDK's conversation-id
   * parser. Each completion gets a model built as `model` is.
   */
  method ModelFromMessageAsync(message: Message, env: Env, base: ModelKind -> BaseLayout,
                               targetIdOf: string -> Option<string>, loadCallbacks: nat)
    returns (model: MessageModel, trace: seq<Callback>)
    modifies message
    ensures fresh(model) && model.message == message
    ensures model.kind == KindOf(Dispatch(message.messageType, message.attachment))
    ensures var loads := NameLoads(old(message.Snapshot()), targetIdOf);
      && trace == loads + Repeat(Completion(model.kind), if loads == [] then 1 else loadCallbacks)
      && Completions(trace) == (if loads == [] then 1 else loadCallbacks)
    ensures NameLoads(old(message.Snapshot()), targetIdOf) == [] ==>
      Completions(trace) == 1 && trace[|trace| - 1] == Completion(model.kind)
    ensures Dispatch(message.messageType, message.attachment) == UnknownRoute ==>
      message.text == Some(env.localize("msg_unknown"))
  {
    var loads := NameLoads(message.Snapshot(), targetIdOf);
    model := ModelFromMessage(message, env, base);
    var n := if loads == [] then 1 else loadCallbacks;
    trace := loads + Repeat(Completion(model.kind), n);
    CompletionsCount(loads, model.kind, n);
  }

  // ---------------------------------------------------------------- image urls

  /**
   * The url an image model contributes to the gallery: its attachment's url,
   * else its local path when that file exists; nothing for any other model.
   */
  function UrlOf(model: MessageModel, fileExists: string -> bool): Option<string>
    reads model
  {
    if model.modelType == Image && model.message != null
       && model.message.attachment.FileAttachment? && model.message.attachment.fileKind == ImageFile
    then
      var a := model.message.attachment;
      if a.url.Some? then a.url
      else if a.path.Some? && fileExists(a.path.value) then a.path
      else None
    else None
  }

  /** The urls of a list of models, in list order. */
  function UrlsOf(models: seq<MessageModel>, fileExists: string -> bool): seq<string>
    reads set m | m in models
  {
    if models == [] then []
    else
      var last := UrlOf(models[|models| - 1], fileExists);
      UrlsOf(models[..|models| - 1], fileExists) + (if last.Some? then [last.value] else [])
  }

  /** A url is in the gallery exactly when some model contributes it. */
  lemma {:induction false} UrlsOfMembership(models: seq<MessageModel>, fileExists: string -> bool, u: string)
    ensures u in UrlsOf(models, fileExists) <==>
      exists i :: 0 <= i < |models| && UrlOf(models[i], fileExists) == Some(u)
    ensures |UrlsOf(models, fileExists)| <= |models|
  {
    if models != [] {
      var init := models[..|models| - 1];
      UrlsOfMembership(init, fileExists, u);
      if u in UrlsOf(init, fileExists) {
        var i :| 0 <= i < |init| && UrlOf(init[i], fileExists) == Some(u);
        assert models[i] == init[i];
      }
      if exists i :: 0 <= i < |models| && UrlOf(models[i], fileExists) == Some(u) {
        var i :| 0 <= i < |models| && UrlOf(models[i], fileExists) == Some(u);
        if i < |init| {
          assert init[i] == models[i];
        }
      }
    }
  }

  /** `getUrls`: the loop over the models, collecting each image model's url. */
  method GetUrls(models: seq<MessageModel>, fileExists: string -> bool) returns (urls: seq<string>)
    ensures urls == UrlsOf(models, fileExists)
  {
    urls := [];
    var i := 0;
    while i < |models|
      invariant 0 <= i <= |models|
      invariant urls == UrlsOf(models[..i], fileExists)
    {
      assert models[..i + 1][..i] == models[..i];
      var m := models[i];
      if m.modelType == Image && m.message != null
         && m.message.attachment.FileAttachment? && m.message.attachment.fileKind == ImageFile
      {
        var a := m.message.attachment;
        if a.url.Some? {
          urls := urls + [a.url.value];
        } else if a.path.Some? && fileExists(a.path.value) {
          urls := urls + [a.path.value];
        }
      }
      i := i + 1;
    }
    assert models[..i] == models;
  }

  // ---------------------------------------------------------------- time rows

  /** More than five minutes, as `(dur / 60) > 5` on seconds. */
  predicate TimeGap(cur: real, last: real)
  {
    (cur - last) / 60.0 > 5.0
  }

  lemma TimeGapIsOverFiveMinutes(cur: real, last: real)
    ensures TimeGap(cur, last) <==> cur - last > 300.0
  {
  }

  /** The create time of the previous model's message, 0 when there is none. */
  function LastTimestamp(lastModel: MessageModel?): real
  {
    if lastModel != null && lastModel.message != null then lastModel.message.createTime else 0.0
  }

  /**
   * `addTimeMessage`: a model whose message is more than five minutes younger
   * than the previous one gets the formatted time; a model without a message
   * and a discussion/senior-team notification are left alone.
   * `isDiscussSeniorNoti` and `formatDate` are the SDK helpers it calls.
   */
  method AddTimeMessage(model: MessageModel, lastModel: MessageModel?,
                        isDiscussSeniorNoti: MessageData -> bool, formatDate: real -> string)
    modifies model`timeContent
    ensures model.message == null ==> model.timeContent == old(model.timeContent)
    ensures model.message != null && isDiscussSeniorNoti(model.message.Snapshot()) ==>
      model.timeContent == old(model.timeContent)
    ensures model.message != null && !isDiscussSeniorNoti(model.message.Snapshot()) ==>
      model.timeContent ==
        (if TimeGap(model.message.createTime, LastTimestamp(lastModel))
         then Some(formatDate(model.message.createTime)) else old(model.timeContent))
  {
    var message := model.message;
    if message == null {
      return;
    }
    if isDiscussSeniorNoti(message.Snapshot()) {
      return;
    }
    var lastTs := LastTimestamp(lastModel);
    var curTs := message.createTime;
    if (curTs - lastTs) / 60.0 > 5.0 {
      model.timeContent := Some(formatDate(curTs));
    }
  }

  // ---------------------------------------------------------------- previews

  /**
   * `contentOfMessage`: the text a conversation list or a merged-forward
   * abstract shows for a message. `localize` maps a token to its text.
   */
  function ContentOfMessage(message: Option<MessageData>, localize: string -> string): (r: string)
    ensures message.None? ==> r == localize("msg_unknown")
    ensures message.Some? && message.value.messageType == TextMsg ==>
      r == (if message.value.text.Some? then message.value.text.value else localize("message_not_found"))
    ensures message.Some? && message.value.messageType == ImageMsg ==> r == localize("msg_image")
    ensures message.Some? && message.value.messageType == AudioMsg ==> r == localize("msg_audio")
    ensures message.Some? && message.value.messageType == VideoMsg ==> r == localize("msg_video")
    ensures message.Some? && message.value.messageType == FileMsg ==> r == localize("msg_file")
    ensures message.Some? && message.value.messageType == LocationMsg ==> r == localize("msg_location")
    ensures message.Some? && message.value.messageType == CallMsg ==>
      r == localize(if !message.value.attachment.CallAttachment? then "msg_rtc_call"
                    else if message.value.attachment.callType == 1 then "msg_rtc_audio"
                    else "msg_rtc_video")
    ensures message.Some? && message.value.messageType == CustomMsg ==>
      var a := message.value.attachment;
      if a.CustomAttachment? && a.richTextContent.Some? then r == a.richTextContent.value
      else if CustomTypeOf(a) == Some(CustomMultiForwardType) then r == "[" + localize("chat_history") + "]"
      else r == localize("msg_custom")
    ensures message.Some? && message.value.messageType in {NotificationMsg, TipMsg, OtherMsg} ==>
      r == localize("msg_unknown")
  {
    if message.None? then localize("msg_unknown")
    else
      var m := message.value;
      match m.messageType
      case TextMsg => if m.text.Some? then m.text.value else localize("message_not_found")
      case ImageMsg => localize("msg_image")
      case AudioMsg => localize("msg_audio")
      case VideoMsg => localize("msg_video")
      case FileMsg => localize("msg_file")
      case LocationMsg => localize("msg_location")
      case CallMsg =>
        if m.attachment.CallAttachment? then
          (if m.attachment.callType == 1 then localize("msg_rtc_audio") else localize("msg_rtc_video"))
        else localize("msg_rtc_call")
      case CustomMsg =>
        if m.attachment.CustomAttachment? && m.attachment.richTextContent.Some? then m.attachment.richTextContent.value
        else if CustomTypeOf(m.attachment) == Some(CustomMultiForwardType) then "[" + localize("chat_history") + "]"
        else localize("msg_custom")
      case _ => localize("msg_unknown")
  }

  /** The preview depends on neither extension: rewriting them leaves it unchanged. */
  lemma ContentIgnoresExtensions(d: MessageData, ext: Extension, localize: string -> string)
    ensures ContentOfMessage(Some(d.(serverExtension := ext)), localize) == ContentOfMessage(Some(d), localize)
  {
  }

  // ---------------------------------------------------------------- extensions

  /**
   * The server extension with the @-mention and reply entries removed; an
   * extension that does not parse is left as it is.
   */
  function ClearedExtension(ext: Extension): (r: Extension)
    ensures r.None? <==> ext.None?
    ensures ext.Some? ==> r.value.Keys == ext.value.Keys - {AtMarkKey, ReplyKey}
    ensures ext.Some? ==> forall k | k in r.value :: r.value[k] == ext.value[k]
  {
    if ext.Some? then Some(ext.value - {AtMarkKey, ReplyKey}) else None
  }

  /** Clearing twice is clearing once. */
  lemma ClearedIdempotent(ext: Extension)
    ensures ClearedExtension(ClearedExtension(ext)) == ClearedExtension(ext)
  {
    if ext.Some? {
      assert ClearedExtension(ClearedExtension(ext)).value == ClearedExtension(ext).value;
    }
  }

  /** A cleared extension has neither a reply record nor any @-mention to colour. */
  lemma ClearedHasNoReplyNorMentions(d: MessageData)
    ensures GetReplyDictionary(d.(serverExtension := ClearedExtension(d.serverExtension))).None?
    ensures AtMapOf(ClearedExtension(d.serverExtension)) == map[]
  {
  }

  /** `clearForwardAtMark`: drops the @-mention and reply entries from a message's server extension. */
  method ClearForwardAtMark(message: Message)
    modifies message`serverExtension
    ensures message.serverExtension == ClearedExtension(old(message.serverExtension))
  {
    if message.serverExtension.None? {
      return;
    }
    var remoteExt := message.serverExtension.value;
    remoteExt := remoteExt - {AtMarkKey};
    remoteExt := remoteExt - {ReplyKey};
    assert remoteExt == message.serverExtension.value - {AtMarkKey, ReplyKey};
    message.serverExtension := Some(remoteExt);
  }

  /**
   * Whether a decoded JSON value reads as `true` through `as? Bool`: the JSON
   * literal `true`, or the number 1, which Foundation bridges to `true`.
   */
  predicate IsTrue(v: Value)
  {
    (v.Bool? && v.b) || (v.Num? && v.n == 1)
  }

  /** `isRevokeMessage`: the local extension holds the revoke flag, and it reads as `true`. */
  function IsRevokeMessage(message: Option<MessageData>): (r: bool)
    ensures r ==> message.Some? && message.value.localExtension.Some?
    ensures r <==>
      message.Some? && message.value.localExtension.Some?
      && RevokeFlagKey in message.value.localExtension.value
      && message.value.localExtension.value[RevokeFlagKey] in {Bool(true), Num(1)}
  {
    match message
    case None => false
    case Some(m) =>
      m.localExtension.Some? && RevokeFlagKey in m.localExtension.value
      && IsTrue(m.localExtension.value[RevokeFlagKey])
  }

  /** `getRevokeMessageContent`: the pre-revoke text kept in the local extension, if it is a string. */
  function GetRevokeMessageContent(message: Option<MessageData>): (r: Option<string>)
    ensures r.Some? <==>
      message.Some? && message.value.localExtension.Some?
      && RevokeContentKey in message.value.localExtension.value
      && message.value.localExtension.value[RevokeContentKey].Str?
    ensures r.Some? ==> message.value.localExtension.value[RevokeContentKey] == Str(r.value)
  {
    if message.Some? && message.value.localExtension.Some?
       && RevokeContentKey in message.value.localExtension.value
       && message.value.localExtension.value[RevokeContentKey].Str?
    then Some(message.value.localExtension.value[RevokeContentKey].s)
    else None
  }

  /** `getReplyDictionary`: the reply record of the server extension, when it is a dictionary. */
  function GetReplyDictionary(message: MessageData): (r: Option<map<string, Value>>)
    ensures r.Some? <==>
      message.serverExtension.Some? && ReplyKey in message.serverExtension.value
      && message.serverExtension.value[ReplyKey].Obj?
    ensures r.Some? ==> message.serverExtension.value[ReplyKey] == Obj(r.value)
  {
    if message.serverExtension.Some? && ReplyKey in message.serverExtension.value
       && message.serverExtension.value[ReplyKey].Obj?
    then Some(message.serverExtension.value[ReplyKey].fields)
    else None
  }

  // ---------------------------------------------------------------- names and paths

  /**
   * `getShortName`: the last `length` characters of a longer name, else the
   * whole name. A negative length would index past the end of the string.
   */
  function ShortName(name: string, length: int): (r: string)
    requires length >= 0
    ensures |r| == if |name| > length then length else |name|
    ensures r == name[|name| - |r|..]
  {
    if |name| > length then name[|name| - length..] else name
  }

  /** The documents sub-directory a message attachment is stored under, by message type. */
  function FileDirectory(t: MessageType): string
  {
    match t
    case AudioMsg => "NEIMUIKit/audio/"
    case ImageMsg => "NEIMUIKit/image/"
    case VideoMsg => "NEIMUIKit/video/"
    case _ => "NEIMUIKit/file/"
  }

  /**
   * `createFilePath`: for a message with a file attachment, the type's
   * documents directory followed by the client id and the file extension,
   * each only when present; otherwise the root "NEIMUIKit" directory.
   * `documentsDir` is the documents-directory lookup, `None` when it fails.
   */
  function CreateFilePath(message: Option<MessageData>, documentsDir: string -> Option<string>): (r: string)
    ensures !(message.Some? && message.value.attachment.FileAttachment?) ==> r == documentsDir("NEIMUIKit").GetOr("")
    ensures message.Some? && message.value.attachment.FileAttachment? ==>
      var dir := documentsDir(FileDirectory(message.value.messageType)).GetOr("");
      var id := message.value.messageClientId.GetOr("");
      var ext := message.value.attachment.ext.GetOr("");
      && |r| == |dir| + |id| + |ext|
      && r[..|dir|] == dir
      && r[|dir|..|dir| + |id|] == id
      && r[|dir| + |id|..] == ext
  {
    if message.Some? && message.value.attachment.FileAttachment? then
      var path := documentsDir(FileDirectory(message.value.messageType)).GetOr("");
      var path' := if message.value.messageClientId.Some? then path + message.value.messageClientId.value else path;
      if message.value.attachment.ext.Some? then path' + message.value.attachment.ext.value else path'
    else documentsDir("NEIMUIKit").GetOr("")
  }

  /** Two attachments of the same type and extension with client ids of equal length but different content get different paths. */
  lemma FilePathsSeparateClientIds(d1: MessageData, d2: MessageData, documentsDir: string -> Option<string>)
    requires d1.attachment.FileAttachment? && d2.attachment.FileAttachment?
    requires d1.messageType == d2.messageType && d1.attachment.ext == d2.attachment.ext
    requires d1.messageClientId.Some? && d2.messageClientId.Some?
    requires |d1.messageClientId.value| == |d2.messageClientId.value|
    requires d1.messageClientId != d2.messageClientId
    ensures CreateFilePath(Some(d1), documentsDir) != CreateFilePath(Some(d2), documentsDir)
  {
    var dir := documentsDir(FileDirectory(d1.messageType)).GetOr("");
    var p1 := CreateFilePath(Some(d1), documentsDir);
    var p2 := CreateFilePath(Some(d2), documentsDir);
    var n := |d1.messageClientId.value|;
    assert p1[|dir|..|dir| + n] == d1.messageClientId.value;
    assert p2[|dir|..|dir| + n] == d2.messageClientId.value;
  }

  // ---------------------------------------------------------------- merged forward

  /** `buildHeader`: format version 0, terminal 2 (iOS) and the message count. */
  function BuildHeader(messageCount: int): (r: map<string, Value>)
    ensures r.Keys == {"version", "terminal", "message_count"}
    ensures r["version"] == Num(0) && r["terminal"] == Num(2)
    ensures IntField(r, "message_count") == messageCount
  {
    map["version" := Num(0), "terminal" := Num(2), "message_count" := Num(messageCount)]
  }

  /** The profile the user caches hold for a sender: display name (without alias) and avatar. */
  datatype UserInfo = UserInfo(showName: Option<string>, avatar: Option<string>)

  /** The three caches `buildBody` consults, in order: team member, friend, user. */
  datatype SenderCaches = SenderCaches(
    teamMember: string -> Option<UserInfo>,
    friend: string -> Option<UserInfo>,
    user: string -> Option<UserInfo>)

  /** The first cache that knows the sender: the team member, then the friend, then the user. */
  function ResolveSender(caches: SenderCaches, from: string): (r: Option<UserInfo>)
    ensures r.None? <==> caches.teamMember(from).None? && caches.friend(from).None? && caches.user(from).None?
    ensures caches.teamMember(from).Some? ==> r == caches.teamMember(from)
    ensures caches.teamMember(from).None? && caches.friend(from).Some? ==> r == caches.friend(from)
    ensures caches.teamMember(from).None? && caches.friend(from).None? ==> r == caches.user(from)
  {
    if caches.teamMember(from).Some? then caches.teamMember(from)
    else if caches.friend(from).Some? then caches.friend(from)
    else caches.user(from)
  }

  /** A Swift optional boxed into a JSON dictionary: nil becomes JSON null. */
  function OrNull(s: Option<string>): Value
  {
    if s.Some? then Str(s.value) else Null
  }

  /**
   * The server extension a forwarded message is serialised with: the cleared
   * extension, then, when the sender resolves, the sender's nick (removed when
   * the nick is nil) and avatar (the short name of the nick when there is no
   * avatar); a message whose extension does not parse gets a fresh dictionary
   * holding the nick and avatar as they are.
   */
  function ForwardExtension(d: MessageData, caches: SenderCaches): (r: Extension)
    ensures d.senderId.None? || ResolveSender(caches, d.senderId.value).None? ==> r == ClearedExtension(d.serverExtension)
    ensures d.senderId.Some? && ResolveSender(caches, d.senderId.value).Some? ==>
      var user := ResolveSender(caches, d.senderId.value).value;
      && r.Some? && MergedAvatarKey in r.value
      && (user.showName.Some? <==> MergedNickKey in r.value && r.value[MergedNickKey].Str?)
      && (user.showName.Some? ==> r.value[MergedNickKey] == Str(user.showName.value))
      && (d.serverExtension.Some? ==>
            && r.value[MergedAvatarKey] == Str(if user.avatar.Some? then user.avatar.value
                                               else ShortName(user.showName.GetOr(""), 2))
            && (user.showName.None? ==> MergedNickKey !in r.value)
            && (forall k | k !in {AtMarkKey, ReplyKey, MergedNickKey, MergedAvatarKey} ::
                  (k in r.value <==> k in d.serverExtension.value)
                  && (k in r.value ==> r.value[k] == d.serverExtension.value[k]))
            && (forall k | k in {AtMarkKey, ReplyKey} :: k !in r.value))
      && (d.serverExtension.None? ==>
            r.value == map[MergedNickKey := OrNull(user.showName), MergedAvatarKey := OrNull(user.avatar)])
  {
    var cleared := ClearedExtension(d.serverExtension);
    if d.senderId.None? then cleared
    else
      var user := ResolveSender(caches, d.senderId.value);
      if user.None? then cleared
      else
        var nick := user.value.showName;
        if cleared.Some? then
          var withNick := if nick.Some? then cleared.value[MergedNickKey := Str(nick.value)] else cleared.value - {MergedNickKey};
          var avatar := if user.value.avatar.Some? then user.value.avatar.value else ShortName(nick.GetOr(""), 2);
          Some(withNick[MergedAvatarKey := Str(avatar)])
        else
          Some(map[MergedNickKey := OrNull(nick), MergedAvatarKey := OrNull(user.value.avatar)])
  }

  /** One entry of the merged-forward abstract list. */
  datatype Abstract = Abstract(senderNick: Option<string>, content: string, userAccId: string)

  /** The abstract recorded for the message at `index`: only among the first three, and only when the sender resolves. */
  function AbstractAt(d: MessageData, index: nat, caches: SenderCaches, localize: string -> string): seq<Abstract>
  {
    if index < 3 && d.senderId.Some? && ResolveSender(caches, d.senderId.value).Some? then
      [Abstract(ResolveSender(caches, d.senderId.value).value.showName,
                ContentOfMessage(Some(d.(serverExtension := ForwardExtension(d, caches))), localize),
                d.senderId.value)]
    else []
  }

  /** The body line of one message: "\n" and its serialisation, when it has a sender and serialises. */
  function BodyLine(d: MessageData, caches: SenderCaches, serialize: MessageData -> Option<string>): string
  {
    if d.senderId.Some? then
      var data := serialize(d.(serverExtension := ForwardExtension(d, caches)));
      if data.Some? then "\n" + data.value else ""
    else ""
  }

  /** The body of a bundle: the body lines in message order. */
  function BodyOf(ds: seq<MessageData>, caches: SenderCaches, serialize: MessageData -> Option<string>): string
  {
    if ds == [] then ""
    else BodyOf(ds[..|ds| - 1], caches, serialize) + BodyLine(ds[|ds| - 1], caches, serialize)
  }

  /** The abstracts of a bundle, in message order. */
  function AbstractsOf(ds: seq<MessageData>, caches: SenderCaches, localize: string -> string): seq<Abstract>
  {
    if ds == [] then []
    else AbstractsOf(ds[..|ds| - 1], caches, localize) + AbstractAt(ds[|ds| - 1], |ds| - 1, caches, localize)
  }

  /** The body of two batches is the body of the first followed by the body of the second. */
  lemma {:induction false} BodyOfAppend(xs: seq<MessageData>, ys: seq<MessageData>,
                                        caches: SenderCaches, serialize: MessageData -> Option<string>)
    ensures BodyOf(xs + ys, caches, serialize) == BodyOf(xs, caches, serialize) + BodyOf(ys, caches, serialize)
  {
    if ys == [] {
      assert xs + ys == xs;
    } else {
      var ys' := ys[..|ys| - 1];
      assert (xs + ys)[..|xs + ys| - 1] == xs + ys';
      BodyOfAppend(xs, ys', caches, serialize);
    }
  }

  /** A message without a sender adds nothing to the body. */
  lemma {:induction false} BodyWithoutSenders(ds: seq<MessageData>, caches: SenderCaches, serialize: MessageData -> Option<string>)
    requires forall i | 0 <= i < |ds| :: ds[i].senderId.None?
    ensures BodyOf(ds, caches, serialize) == ""
  {
    if ds != [] {
      BodyWithoutSenders(ds[..|ds| - 1], caches, serialize);
    }
  }

  /**
   * At most three abstracts, none more than there are messages, each naming
   * the sender of one of the first three messages, that sender being known
   * to a cache.
   */
  lemma {:induction false} AbstractsBounded(ds: seq<MessageData>, caches: SenderCaches, localize: string -> string)
    ensures |AbstractsOf(ds, caches, localize)| <= 3
    ensures |AbstractsOf(ds, caches, localize)| <= |ds|
    ensures forall a | a in AbstractsOf(ds, caches, localize) ::
      exists i :: 0 <= i < |ds| && i < 3 && ds[i].senderId == Some(a.userAccId)
                  && ResolveSender(caches, a.userAccId).Some?
  {
    if ds != [] {
      var init := ds[..|ds| - 1];
      AbstractsBounded(init, caches, localize);
      if |ds| > 3 {
        assert AbstractAt(ds[|ds| - 1], |ds| - 1, caches, localize) == [];
      }
      forall a | a in AbstractsOf(ds, caches, localize)
        ensures exists i :: 0 <= i < |ds| && i < 3 && ds[i].senderId == Some(a.userAccId)
                            && ResolveSender(caches, a.userAccId).Some?
      {
        if a in AbstractsOf(init, caches, localize) {
          var i :| 0 <= i < |init| && i < 3 && init[i].senderId == Some(a.userAccId)
                   && ResolveSender(caches, a.userAccId).Some?;
          assert ds[i] == init[i];
        } else {
          assert ds[|ds| - 1].senderId == Some(a.userAccId);
        }
      }
    }
  }

  /** Whether the message at `i` of a bundle gets an abstract: among the first three, with a sender the caches know. */
  predicate HasAbstract(ds: seq<MessageData>, i: int, caches: SenderCaches)
    requires 0 <= i < |ds|
  {
    i < 3 && ds[i].senderId.Some? && ResolveSender(caches, ds[i].senderId.value).Some?
  }

  /** The positions of a bundle whose messages get an abstract. */
  ghost function AbstractIndices(ds: seq<MessageData>, caches: SenderCaches): set<int>
  {
    set i | 0 <= i < |ds| && HasAbstract(ds, i, caches)
  }

  /** Adding a message at the end adds its position exactly when it gets an abstract. */
  lemma AbstractIndicesSnoc(ds: seq<MessageData>, caches: SenderCaches)
    requires ds != []
    ensures var n := |ds| - 1;
      AbstractIndices(ds, caches)
        == AbstractIndices(ds[..n], caches) + (if HasAbstract(ds, n, caches) then {n} else {})
    ensures |ds| - 1 !in AbstractIndices(ds[..|ds| - 1], caches)
  {
    var n := |ds| - 1;
    forall i | 0 <= i < n
      ensures HasAbstract(ds, i, caches) == HasAbstract(ds[..n], i, caches)
    {
      assert ds[i] == ds[..n][i];
    }
  }

  /** Every message of the bundle whose sender resolves and that is among the first three has an abstract. */
  lemma {:induction false} AbstractsComplete(ds: seq<MessageData>, caches: SenderCaches, localize: string -> string)
    ensures |AbstractsOf(ds, caches, localize)| == |AbstractIndices(ds, caches)|
  {
    if ds != [] {
      var n := |ds| - 1;
      AbstractsComplete(ds[..n], caches, localize);
      AbstractIndicesSnoc(ds, caches);
      if HasAbstract(ds, n, caches) {
        assert |AbstractAt(ds[n], n, caches, localize)| == 1;
      } else {
        assert AbstractAt(ds[n], n, caches, localize) == [];
      }
    }
  }

  /** The value snapshots of a list of messages. */
  function Snapshots(messages: seq<Message>): (r: seq<MessageData>)
    reads set m | m in messages
    ensures |r| == |messages|
    ensures forall i | 0 <= i < |messages| :: r[i] == messages[i].Snapshot()
  {
    if messages == [] then []
    else Snapshots(messages[..|messages| - 1]) + [messages[|messages| - 1].Snapshot()]
  }

  /**
   * `buildBody`: for each message in turn, save its server extension, clear
   * it, write the sender's nick and avatar, record an abstract for the first
   * three resolved senders, append the serialisation, and restore the saved
   * extension. `serialize` is the repository's message serialisation; the
   * completion's arguments are the returned body and abstracts.
   */
  method BuildBody(messages: seq<Message>, caches: SenderCaches, serialize: MessageData -> Option<string>,
                   localize: string -> string)
    returns (body: string, abstracts: seq<Abstract>)
    modifies set m | m in messages
    ensures forall m | m in messages :: m.serverExtension == old(m.serverExtension) && m.text == old(m.text)
    ensures body == BodyOf(old(Snapshots(messages)), caches, serialize)
    ensures abstracts == AbstractsOf(old(Snapshots(messages)), caches, localize)
  {
    ghost var ds := Snapshots(messages);
    body, abstracts := "", [];
    var i := 0;
    while i < |messages|
      invariant 0 <= i <= |messages|
      invariant forall j | 0 <= j < |messages| :: messages[j].Snapshot() == ds[j]
      invariant body == BodyOf(ds[..i], caches, serialize)
      invariant abstracts == AbstractsOf(ds[..i], caches, localize)
    {
      assert ds[..i + 1][..i] == ds[..i];
      var line, entry := ForwardOne(messages[i], i, caches, serialize, localize);
      body := body + line;
      abstracts := abstracts + entry;
      i := i + 1;
    }
    assert ds[..i] == ds;
  }

  /**
   * One iteration of `buildBody`: save the server extension, clear it, write
   * the sender's nick and avatar, take the abstract and the serialisation, and
   * put the saved extension back.
   */
  method ForwardOne(msg: Message, index: nat, caches: SenderCaches, serialize: MessageData -> Option<string>,
                    localize: string -> string)
    returns (line: string, entry: seq<Abstract>)
    modifies msg`serverExtension
    ensures msg.serverExtension == old(msg.serverExtension)
    ensures line == BodyLine(old(msg.Snapshot()), caches, serialize)
    ensures entry == AbstractAt(old(msg.Snapshot()), index, caches, localize)
  {
    ghost var d := msg.Snapshot();
    line, entry := "", [];
    var remoteExt := msg.serverExtension;
    ClearForwardAtMark(msg);
    if msg.senderId.Some? {
      var from := msg.senderId.value;
      var user := ResolveSender(caches, from);
      if user.Some? {
        var senderNick := user.value.showName;
        WriteSender(msg, senderNick, user.value.avatar);
        assert msg.serverExtension == ForwardExtension(d, caches);
        if index < 3 {
          var content := ContentOfMessage(Some(msg.Snapshot()), localize);
          entry := [Abstract(senderNick, content, from)];
        }
      }
      assert msg.Snapshot() == d.(serverExtension := ForwardExtension(d, caches));
      var stringData := serialize(msg.Snapshot());
      if stringData.Some? {
        line := "\n" + stringData.value;
      }
    }
    msg.serverExtension := remoteExt;
  }

  /** Writes the sender's nick and avatar into a (cleared) server extension, as `buildBody` does. */
  method WriteSender(msg: Message, senderNick: Option<string>, avatar: Option<string>)
    modifies msg`serverExtension
    ensures old(msg.serverExtension).Some? ==>
      var withNick := if senderNick.Some? then old(msg.serverExtension).value[MergedNickKey := Str(senderNick.value)]
                      else old(msg.serverExtension).value - {MergedNickKey};
      msg.serverExtension
        == Some(withNick[MergedAvatarKey := Str(if avatar.Some? then avatar.value else ShortName(senderNick.GetOr(""), 2))])
    ensures old(msg.serverExtension).None? ==>
      msg.serverExtension == Some(map[MergedNickKey := OrNull(senderNick), MergedAvatarKey := OrNull(avatar)])
  {
    if msg.serverExtension.Some? {
      var ext := msg.serverExtension.value;
      if senderNick.Some? {
        ext := ext[MergedNickKey := Str(senderNick.value)];
      } else {
        ext := ext - {MergedNickKey};
      }
      var shown := if avatar.Some? then avatar.value else ShortName(senderNick.GetOr(""), 2);
      ext := ext[MergedAvatarKey := Str(shown)];
      msg.serverExtension := Some(ext);
    } else {
      msg.serverExtension := Some(map[MergedNickKey := OrNull(senderNick), MergedAvatarKey := OrNull(avatar)]);
    }
  }
}
