/**
 * The message presentation models: MessageTextModel, MessageRichTextModel and
 * MessageCustomModel, plus the models built by initialisers that are not part
 * of this model (video, image, audio, tips, file, location, call record).
 * All of them are one class here, `MessageModel`, whose `kind` names the Swift
 * subclass that was instantiated.
 */
module MessageModels {
  import opened Wrappers
  import opened Messages

  /** The Swift class a model is an instance of. */
  datatype ModelKind =
    | VideoModel | TextModel | ImageModel | AudioModel | TipsModel | FileModel
    | LocationModel | CallRecordModel | CustomModel | RichTextModel

  /** The UI message type stored in `model.type`. */
  datatype ModelType =
    | Text | Image | Audio | Video | Location | Notification | File | Tip
    | Custom | RtcCallRecord | Revoke | Reply | Time

  /**
   * What the base initialiser `MessageContentModel.init(message:)` (and, for
   * the kinds whose own initialisers are not part of this model, those
   * initialisers) leave in the model's fields.
   */
  datatype BaseLayout = BaseLayout(
    modelType: ModelType,
    contentSize: Size,
    height: real,
    offset: real,
    fullNameHeight: real)

  /** One @-mention segment (`MessageAtInfoModel`). */
  datatype AtSegment = AtSegment(start: int, end: int)

  /** An integer field of a decoded JSON object; a missing or non-numeric field decodes as 0. */
  function IntField(fields: map<string, Value>, key: string): (r: int)
    ensures key in fields && fields[key].Num? ==> r == fields[key].n
    ensures !(key in fields && fields[key].Num?) ==> r == 0
  {
    if key in fields && fields[key].Num? then fields[key].n else 0
  }

  /** `yx_modelArray(with: MessageAtInfoModel.self, json:)`: one segment per JSON object, other items skipped. */
  function ParseSegments(items: seq<Value>): (r: seq<AtSegment>)
    ensures |r| <= |items|
  {
    if items == [] then []
    else
      var rest := ParseSegments(items[1..]);
      if items[0].Obj? then
        [AtSegment(IntField(items[0].fields, "start"), IntField(items[0].fields, "end"))] + rest
      else rest
  }

  /** The segments listed under one key of the @ map (`contentDic[atSegmentsKey]`). */
  function SegmentsOf(v: Value): seq<AtSegment>
  {
    if v.Obj? && AtSegmentsKey in v.fields && v.fields[AtSegmentsKey].Arr? then
      ParseSegments(v.fields[AtSegmentsKey].items)
    else []
  }

  /** The @ map of a server extension (`remoteExt[yxAtMsg] as? [String: AnyObject]`), empty when absent. */
  function AtMapOf(ext: Extension): (r: map<string, Value>)
    ensures ext.None? ==> r == map[]
  {
    if ext.Some? && AtMarkKey in ext.value && ext.value[AtMarkKey].Obj? then
      ext.value[AtMarkKey].fields
    else map[]
  }

  /** The range a segment colours: from `start`, of length `end - start + atRangeOffset`. */
  function SpanOf(seg: AtSegment, offset: int): Span
  {
    Span(seg.start, seg.end - seg.start + offset)
  }

  /**
   * A range `addAttribute` accepts on a string of length `len`: it starts
   * and ends inside the string. Any other range raises `NSRangeException`.
   */
  predicate RangeFits(sp: Span, len: int)
  {
    0 <= sp.location && 0 <= sp.length && sp.location + sp.length <= len
  }

  /** The only test the loop applies before colouring a segment: the string is longer than the segment's `end`. */
  predicate PassesGuard(seg: AtSegment, len: int)
  {
    len > seg.end
  }

  /** A segment is coloured when it passes the guard and its range fits the string. */
  predicate Colours(seg: AtSegment, len: int, offset: int)
  {
    PassesGuard(seg, len) && RangeFits(SpanOf(seg, offset), len)
  }

  /** The ranges the loop hands to `addAttribute`, as written: every segment that passes the guard. */
  function GuardedSpans(at: map<string, Value>, len: int, offset: int): set<Span>
  {
    set k, seg | k in at && seg in SegmentsOf(at[k]) && PassesGuard(seg, len) :: SpanOf(seg, offset)
  }

  /**
   * The guard lets through a segment whose range does not fit: with
   * `{start 3, end 0}` on a string of length 10 and an offset of 1, the loop
   * hands `addAttribute` the range (3, -2), which raises.
   */
  lemma GuardAdmitsCrashingRange()
    ensures
      var at := map["k" := Obj(map[AtSegmentsKey := Arr([Obj(map["start" := Num(3), "end" := Num(0)])])])];
      Span(3, -2) in GuardedSpans(at, 10, 1) && !RangeFits(Span(3, -2), 10)
  {
    var v := Obj(map[AtSegmentsKey := Arr([Obj(map["start" := Num(3), "end" := Num(0)])])]);
    var at := map["k" := v];
    var seg := AtSegment(3, 0);
    assert SegmentsOf(v) == [seg];
    assert seg in SegmentsOf(at["k"]) && PassesGuard(seg, 10) && SpanOf(seg, 1) == Span(3, -2);
  }

  /** The ranges coloured for a list of segments over a string of length `len`. */
  function SegmentSpans(segs: seq<AtSegment>, len: int, offset: int): set<Span>
  {
    set seg | seg in segs && Colours(seg, len, offset) :: SpanOf(seg, offset)
  }

  /** The ranges coloured for every key of the @ map. */
  function MentionSpans(at: map<string, Value>, len: int, offset: int): set<Span>
  {
    set k, sp | k in at && sp in SegmentSpans(SegmentsOf(at[k]), len, offset) :: sp
  }

  /**
   * The coloured ranges are exactly the ranges that pass the guard and fit
   * the string. Each ends `offset` past its segment's `end`, which lies
   * inside the string.
   */
  lemma MentionSpanGuarded(at: map<string, Value>, len: int, offset: int, sp: Span)
    ensures sp in MentionSpans(at, len, offset) <==> sp in GuardedSpans(at, len, offset) && RangeFits(sp, len)
    ensures sp in MentionSpans(at, len, offset) ==>
      && (exists k, seg :: k in at && seg in SegmentsOf(at[k]) && seg.end < len && sp == SpanOf(seg, offset))
      && sp.location + sp.length - offset < len
  {
    if sp in MentionSpans(at, len, offset) {
      var k :| k in at && sp in SegmentSpans(SegmentsOf(at[k]), len, offset);
      var seg :| seg in SegmentsOf(at[k]) && Colours(seg, len, offset) && sp == SpanOf(seg, offset);
      assert sp in GuardedSpans(at, len, offset);
    }
    if sp in GuardedSpans(at, len, offset) && RangeFits(sp, len) {
      var k, seg :| k in at && seg in SegmentsOf(at[k]) && PassesGuard(seg, len) && sp == SpanOf(seg, offset);
      assert sp in SegmentSpans(SegmentsOf(at[k]), len, offset);
    }
  }

  /**
   * A string of length 10 with the segments {start 2, end 5} and {start 3, end 15}:
   * only the first is coloured, over [2, 5 + offset); the second is skipped.
   */
  lemma MentionExample(offset: int)
    requires 0 <= offset <= 5
    ensures
      var at := map["group" := Obj(map[AtSegmentsKey := Arr([
                      Obj(map["start" := Num(2), "end" := Num(5)]),
                      Obj(map["start" := Num(3), "end" := Num(15)])])])];
      MentionSpans(at, 10, offset) == {Span(2, 5 + offset - 2)}
  {
    var v := Obj(map[AtSegmentsKey := Arr([
                Obj(map["start" := Num(2), "end" := Num(5)]),
                Obj(map["start" := Num(3), "end" := Num(15)])])]);
    var at := map["group" := v];
    var segs := SegmentsOf(v);
    assert segs == [AtSegment(2, 5), AtSegment(3, 15)];
    assert Colours(segs[0], 10, offset) && !Colours(segs[1], 10, offset);
    assert SegmentSpans(segs, 10, offset) == {Span(2, 5 + offset - 2)} by {
      assert SpanOf(segs[0], offset) == Span(2, 5 + offset - 2);
      assert SpanOf(segs[0], offset) in SegmentSpans(segs, 10, offset);
    }
    forall sp | sp in MentionSpans(at, 10, offset)
      ensures sp == Span(2, 5 + offset - 2)
    {
      var k :| k in at && sp in SegmentSpans(SegmentsOf(at[k]), 10, offset);
      assert k == "group";
    }
    assert Span(2, 5 + offset - 2) in SegmentSpans(SegmentsOf(at["group"]), 10, offset);
  }

  /** Step lemma: the spans of a list grown by one segment. */
  lemma SegmentSpansSnoc(segs: seq<AtSegment>, seg: AtSegment, len: int, offset: int)
    ensures SegmentSpans(segs + [seg], len, offset)
         == SegmentSpans(segs, len, offset) + (if Colours(seg, len, offset) then {SpanOf(seg, offset)} else {})
  {
  }

  /** The spans of the keys in `keys` (a subset of the @ map's keys). */
  function SpansOfKeys(at: map<string, Value>, keys: set<string>, len: int, offset: int): set<Span>
  {
    set k, sp | k in keys && k in at && sp in SegmentSpans(SegmentsOf(at[k]), len, offset) :: sp
  }

  /**
   * MessageTextModel's nested loops over the @ map: every segment of every key
   * whose `end` lies inside the string and whose range fits the string is
   * coloured; characters and font are untouched.
   */
  method ApplyMentionHighlights(s: StyledText, at: map<string, Value>, offset: int) returns (r: StyledText)
    ensures r.chars == s.chars && r.semibold == s.semibold
    ensures r.highlights == s.highlights + MentionSpans(at, |s.chars|, offset)
  {
    var len := |s.chars|;
    r := s;
    var todo := at.Keys;
    ghost var done: set<string> := {};
    while todo != {}
      invariant todo + done == at.Keys && todo !! done
      invariant r.chars == s.chars && r.semibold == s.semibold
      invariant r.highlights == s.highlights + SpansOfKeys(at, done, len, offset)
      decreases todo
    {
      var key :| key in todo;
      var segs := SegmentsOf(at[key]);
      ghost var before := r.highlights;
      var i := 0;
      while i < |segs|
        invariant 0 <= i <= |segs|
        invariant r.chars == s.chars && r.semibold == s.semibold
        invariant r.highlights == before + SegmentSpans(segs[..i], len, offset)
      {
        SegmentSpansSnoc(segs[..i], segs[i], len, offset);
        assert segs[..i + 1] == segs[..i] + [segs[i]];
        if len > segs[i].end && RangeFits(SpanOf(segs[i], offset), len) {
          r := r.(highlights := r.highlights + {SpanOf(segs[i], offset)});
        }
        i := i + 1;
      }
      assert segs[..i] == segs;
      assert SpansOfKeys(at, done + {key}, len, offset)
          == SpansOfKeys(at, done, len, offset) + SegmentSpans(segs, len, offset);
      todo := todo - {key};
      done := done + {key};
    }
    assert SpansOfKeys(at, done, len, offset) == MentionSpans(at, len, offset);
  }

  /**
   * The text layout of MessageTextModel.init: the attributed body with its
   * mentions coloured, measured at the maximum text width.
   */
  method LayoutText(text: string, ext: Extension, env: Env) returns (attr: StyledText, size: Size)
    ensures attr.chars == env.emotion(text) && !attr.semibold
    ensures attr.highlights == MentionSpans(AtMapOf(ext), |env.emotion(text)|, env.atRangeOffset)
    ensures size == env.measure(attr, env.textMaxWidth)
  {
    attr := StyledText(env.emotion(text), false, {});
    attr := ApplyMentionHighlights(attr, AtMapOf(ext), env.atRangeOffset);
    size := env.measure(attr, env.textMaxWidth);
  }

  /** `message?.text ?? ""`. */
  function TextOf(message: Message?): string
    reads message
  {
    if message == null then "" else message.text.GetOr("")
  }

  /** `message?.serverExtension`, parsed. */
  function ServerExtensionOf(message: Message?): Extension
    reads message
  {
    if message == null then None else message.serverExtension
  }

  /** `NECustomAttachment.dataOfCustomMessage`: the data dictionary of a custom attachment. */
  function CustomDataOf(message: Message?): Option<map<string, Value>>
  {
    if message != null && message.attachment.CustomAttachment? then message.attachment.data else None
  }

  /** The rich-text title, when the custom data holds a string `title`. */
  function RichTitleOf(message: Message?): Option<string>
  {
    var data := CustomDataOf(message);
    if data.Some? && "title" in data.value && data.value["title"].Str? then Some(data.value["title"].s) else None
  }

  /** The rich-text body: the string `body` of the custom data, or "" when absent. */
  function RichBodyOf(message: Message?): string
  {
    var data := CustomDataOf(message);
    if data.Some? && "body" in data.value && data.value["body"].Str? then data.value["body"].s else ""
  }

  /** `Int(x)` on a CGFloat: truncation toward zero. */
  function TruncateToInt(x: real): (r: int)
    ensures x >= 0.0 ==> r as real <= x < r as real + 1.0
    ensures x < 0.0 ==> r as real - 1.0 < x <= r as real
  {
    if x >= 0.0 then x.Floor else -((-x).Floor)
  }

  class MessageModel {
    const kind: ModelKind
    const message: Message?
    const fullNameHeight: real
    var modelType: ModelType
    var contentSize: Size
    var height: real
    var offset: real
    var timeContent: Option<string>
    var attributeStr: Option<StyledText>
    var textHeight: real
    var textWidth: real
    var titleAttributeStr: Option<StyledText>
    var titleTextHeight: real

    /** A model of a kind whose own initialiser is not part of this model: it keeps the base layout. */
    constructor InitBase(kind: ModelKind, message: Message?, base: BaseLayout)
      ensures this.kind == kind && this.message == message
      ensures modelType == base.modelType && contentSize == base.contentSize && height == base.height
      ensures offset == base.offset && fullNameHeight == base.fullNameHeight
      ensures timeContent == None && attributeStr == None && titleAttributeStr == None
    {
      this.kind, this.message, fullNameHeight := kind, message, base.fullNameHeight;
      modelType, contentSize, height, offset := base.modelType, base.contentSize, base.height, base.offset;
      timeContent, attributeStr, titleAttributeStr := None, None, None;
      textHeight, textWidth, titleTextHeight := 0.0, 0.0, 0.0;
    }

    /**
     * MessageTextModel.init(message:): type `.text`; the attributed body with
     * coloured mentions; `textHeight` is its measured height at the maximum
     * text width; the content box adds a margin on every side; `height` adds
     * two more margins and the name row.
     */
    constructor InitText(message: Message?, base: BaseLayout, env: Env)
      ensures kind == TextModel && this.message == message && modelType == Text
      ensures attributeStr.Some? && attributeStr.value.chars == env.emotion(TextOf(message))
      ensures attributeStr.value.highlights
           == MentionSpans(AtMapOf(ServerExtensionOf(message)), |env.emotion(TextOf(message))|, env.atRangeOffset)
      ensures textHeight == env.measure(attributeStr.value, env.textMaxWidth).height
      ensures textWidth == env.measure(attributeStr.value, env.textMaxWidth).width
      ensures contentSize == Size(env.measure(attributeStr.value, env.textMaxWidth).width + 2.0 * env.margin,
                                  textHeight + 2.0 * env.margin)
      ensures height == contentSize.height + 2.0 * env.margin + fullNameHeight
      ensures fullNameHeight == base.fullNameHeight && offset == base.offset
      ensures timeContent == None && titleAttributeStr == None && titleTextHeight == 0.0
    {
      var attr, size := LayoutText(TextOf(message), ServerExtensionOf(message), env);
      this.kind, this.message, fullNameHeight := TextModel, message, base.fullNameHeight;
      modelType, offset, timeContent := Text, base.offset, None;
      attributeStr, textHeight, textWidth := Some(attr), size.height, size.width;
      var box := Size(size.width + 2.0 * env.margin, size.height + 2.0 * env.margin);
      contentSize, height := box, box.height + 2.0 * env.margin + base.fullNameHeight;
      titleAttributeStr, titleTextHeight := None, 0.0;
    }

    /**
     * MessageRichTextModel.init(message:). Without a string `title` in the
     * custom data it is the text model. With one, the message text is
     * replaced by the body (or ""), the body is laid out as text, the type
     * becomes `.custom`, the semibold title is measured, the content box is
     * as wide as the wider of body and title plus two margins and as high as
     * the body box plus the title plus one margin when the body is non-empty,
     * and `height` adds two margins, the name row and the pin bar.
     */
    constructor InitRichText(message: Message?, base: BaseLayout, env: Env)
      modifies message
      ensures kind == RichTextModel && this.message == message
      ensures message != null ==> message.serverExtension == old(message.serverExtension)
      ensures fullNameHeight == base.fullNameHeight && offset == base.offset && timeContent == None
      ensures RichTitleOf(message).None? ==>
        && modelType == Text && titleTextHeight == 0.0 && titleAttributeStr == None
        && (message != null ==> message.text == old(message.text))
        && attributeStr == Some(StyledText(env.emotion(TextOf(message)), false,
             MentionSpans(AtMapOf(ServerExtensionOf(message)), |env.emotion(TextOf(message))|, env.atRangeOffset)))
        && textHeight == env.measure(attributeStr.value, env.textMaxWidth).height
        && textWidth == env.measure(attributeStr.value, env.textMaxWidth).width
        && contentSize == Size(textWidth + 2.0 * env.margin, textHeight + 2.0 * env.margin)
        && height == contentSize.height + 2.0 * env.margin + fullNameHeight
      ensures RichTitleOf(message).Some? ==>
        var body := RichBodyOf(message);
        var title := RichTitleOf(message).value;
        && message != null && message.text == Some(body)
        && modelType == Custom
        && attributeStr == Some(StyledText(env.emotion(body), false,
             MentionSpans(AtMapOf(ServerExtensionOf(message)), |env.emotion(body)|, env.atRangeOffset)))
        && textHeight == env.measure(attributeStr.value, env.textMaxWidth).height
        && textWidth == env.measure(attributeStr.value, env.textMaxWidth).width
        && titleAttributeStr == Some(StyledText(env.emotion(title), true, {}))
        && titleTextHeight == env.measure(titleAttributeStr.value, env.titleMaxWidth).height
        && contentSize.width
           == (if textWidth >= env.measure(titleAttributeStr.value, env.titleMaxWidth).width then textWidth
               else env.measure(titleAttributeStr.value, env.titleMaxWidth).width) + 2.0 * env.margin
        && contentSize.height
           == textHeight + 2.0 * env.margin + titleTextHeight + (if body == [] then 0.0 else env.margin)
        && height == contentSize.height + 2.0 * env.margin + fullNameHeight + env.pinHeight
    {
      var title := RichTitleOf(message);
      if title.None? {
        var attr, size := LayoutText(TextOf(message), ServerExtensionOf(message), env);
        this.kind, this.message, fullNameHeight := RichTextModel, message, base.fullNameHeight;
        modelType, offset, timeContent := Text, base.offset, None;
        attributeStr, textHeight, textWidth := Some(attr), size.height, size.width;
        var box := Size(size.width + 2.0 * env.margin, size.height + 2.0 * env.margin);
        contentSize, height := box, box.height + 2.0 * env.margin + base.fullNameHeight;
        titleAttributeStr, titleTextHeight := None, 0.0;
      } else {
        var body := RichBodyOf(message);
        message.text := Some(body);
        var attr, size := LayoutText(body, message.serverExtension, env);
        var titleAttr := StyledText(env.emotion(title.value), true, {});
        var titleSize := env.measure(titleAttr, env.titleMaxWidth);
        var bodyBoxHeight := size.height + 2.0 * env.margin;
        this.kind, this.message, fullNameHeight := RichTextModel, message, base.fullNameHeight;
        modelType, offset, timeContent := Custom, base.offset, None;
        attributeStr, textHeight, textWidth := Some(attr), size.height, size.width;
        titleAttributeStr, titleTextHeight := Some(titleAttr), titleSize.height;
        var width := if size.width >= titleSize.width then size.width else titleSize.width;
        var box := Size(width + 2.0 * env.margin,
                        bodyBoxHeight + titleSize.height + (if body == [] then 0.0 else env.margin));
        contentSize, height := box, box.height + 2.0 * env.margin + base.fullNameHeight + env.pinHeight;
      }
    }

    /** MessageCustomModel.init(message:): only the type changes, to `.custom`. */
    constructor InitCustom(message: Message?, base: BaseLayout)
      ensures kind == CustomModel && this.message == message && modelType == Custom
      ensures contentSize == base.contentSize && height == base.height
      ensures offset == base.offset && fullNameHeight == base.fullNameHeight && timeContent == None
    {
      this.kind, this.message, fullNameHeight := CustomModel, message, base.fullNameHeight;
      modelType, contentSize, height, offset := Custom, base.contentSize, base.height, base.offset;
      timeContent, attributeStr, titleAttributeStr := None, None, None;
      textHeight, textWidth, titleTextHeight := 0.0, 0.0, 0.0;
    }

    /**
     * MessageCustomModel.init(message:contentHeight:): type `.custom`, a
     * content box of width 0 and the given height, and `height` adding two
     * margins, the name row and the pin bar.
     */
    constructor InitCustomHeight(message: Message?, contentHeight: int, base: BaseLayout, env: Env)
      ensures kind == CustomModel && this.message == message && modelType == Custom
      ensures contentSize == Size(0.0, contentHeight as real)
      ensures height == contentHeight as real + 2.0 * env.margin + fullNameHeight + env.pinHeight
      ensures offset == base.offset && fullNameHeight == base.fullNameHeight && timeContent == None
    {
      this.kind, this.message, fullNameHeight := CustomModel, message, base.fullNameHeight;
      modelType, offset := Custom, base.offset;
      contentSize := Size(0.0, contentHeight as real);
      height := contentHeight as real + 2.0 * env.margin + base.fullNameHeight + env.pinHeight;
      timeContent, attributeStr, titleAttributeStr := None, None, None;
      textHeight, textWidth, titleTextHeight := 0.0, 0.0, 0.0;
    }
  }
}
