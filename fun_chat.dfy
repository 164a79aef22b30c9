/**
 * FunChatViewController: the chat screen of the "fun" skin. Modelled here are
 * its input-bar layout state (the input bar's resting height and vertical
 * offset, driven by the keyboard, the reply bar, the record mode and the
 * multi-line editor), the content-size adjustment it applies to every message
 * model, its row heights, and the "more" panel it opens.
 */
module FunChat {
  import opened Wrappers
  import opened Messages
  import opened MessageModels
  import opened ChatClient

  /** The input bar's mode (`chatInpuMode`): single-line, the multi-line editor with a title, or any other mode. */
  datatype InputMode = Normal | MultipleSend | OtherMode

  /** One call of `layoutInputView` (or its animated variant) with the bottom offset it was given. */
  datatype InputLayout = InputLayout(offset: real, animated: bool)

  /** The input bar's resting heights: single-line, multi-line, and the expanded editor. */
  const SingleLineHeight: real := 90.0
  const MultiLineHeight: real := 130.0
  const ExpandedHeight: real := 295.0

  /** The bar's offset with no keyboard: pulled up over the reply bar while replying, else none. */
  function RestingOffset(isReplying: bool): real
  {
    if isReplying then -30.0 else 0.0
  }

  /** The bar's offset above a keyboard: less while replying, since the reply bar takes room. */
  function KeyboardOffset(isReplying: bool): real
  {
    if isReplying then -10.0 else 30.0
  }

  /** The modes in which keyboard events move the bar. */
  predicate EditsText(mode: InputMode)
  {
    mode == Normal || mode == MultipleSend
  }

  class FunChatView {
    var normalInputHeight: real
    var normalOffset: real
    var currentKeyboardHeight: real
    var mode: InputMode
    var isReplying: bool
    /** `bottomViewTopAnchor.constant`, when the expanded editor sets it. */
    var bottomAnchor: Option<real>
    var layouts: seq<InputLayout>

    /**
     * The layout state the fun skin keeps: the bar rests at one of its three
     * heights, its offset is one the handlers set, and the keyboard height is
     * never negative.
     */
    predicate Valid()
      reads this
    {
      && normalInputHeight in {SingleLineHeight, MultiLineHeight, ExpandedHeight}
      && normalOffset in {-30.0, -10.0, 0.0, 30.0}
      && currentKeyboardHeight >= 0.0
    }

    /** `init(conversationId:)`: the single-line height; no keyboard, no reply, no layout yet. */
    constructor ()
      ensures Valid()
      ensures normalInputHeight == SingleLineHeight && normalOffset == 0.0 && currentKeyboardHeight == 0.0
      ensures mode == Normal && !isReplying && bottomAnchor == None && layouts == []
    {
      normalInputHeight := SingleLineHeight;
      normalOffset := 0.0;
      currentKeyboardHeight := 0.0;
      mode := Normal;
      isReplying := false;
      bottomAnchor := None;
      layouts := [];
    }

    /**
     * `setInputValue`: the resting height follows the mode (single-line or
     * multi-line, other modes keep it) and the offset is the resting offset.
     */
    method SetInputValue()
      requires Valid()
      modifies this`normalInputHeight, this`normalOffset
      ensures Valid()
      ensures mode == Normal ==> normalInputHeight == SingleLineHeight
      ensures mode == MultipleSend ==> normalInputHeight == MultiLineHeight
      ensures mode == OtherMode ==> normalInputHeight == old(normalInputHeight)
      ensures normalOffset == RestingOffset(isReplying)
    {
      if mode == Normal {
        normalInputHeight := SingleLineHeight;
      } else if mode == MultipleSend {
        normalInputHeight := MultiLineHeight;
      }
      if isReplying {
        normalOffset := -30.0;
      } else {
        normalOffset := 0.0;
      }
    }

    /**
     * `keyBoardWillShow`: while editing text the bar sits at the keyboard
     * offset; the keyboard height is recorded (a frame's height is never
     * negative).
     */
    method KeyBoardWillShow(frameHeight: real)
      requires Valid()
      modifies this`normalOffset, this`currentKeyboardHeight
      ensures Valid()
      ensures EditsText(mode) ==> normalOffset == KeyboardOffset(isReplying)
      ensures !EditsText(mode) ==> normalOffset == old(normalOffset)
      ensures currentKeyboardHeight == if frameHeight < 0.0 then -frameHeight else frameHeight
    {
      if mode == Normal || mode == MultipleSend {
        if isReplying {
          normalOffset := -10.0;
        } else {
          normalOffset := 30.0;
        }
      }
      currentKeyboardHeight := if frameHeight < 0.0 then -frameHeight else frameHeight;
    }

    /**
     * `keyBoardWillHide`: while editing text the bar returns to the resting
     * offset `setInputValue` gives; the keyboard height drops to zero.
     */
    method KeyBoardWillHide()
      requires Valid()
      modifies this`normalOffset, this`currentKeyboardHeight
      ensures Valid()
      ensures EditsText(mode) ==> normalOffset == RestingOffset(isReplying)
      ensures !EditsText(mode) ==> normalOffset == old(normalOffset)
      ensures currentKeyboardHeight == 0.0
    {
      if mode == Normal || mode == MultipleSend {
        if isReplying {
          normalOffset := -30.0;
        } else {
          normalOffset := 0.0;
        }
      }
      currentKeyboardHeight := 0.0;
    }

    /**
     * `recordModeChangeDidClick`: the offset drops to zero, the multi-line
     * editor falls back to the single-line height, and the bar is laid out at
     * the bottom.
     */
    method RecordModeChangeDidClick()
      requires Valid()
      modifies this`normalOffset, this`normalInputHeight, this`layouts
      ensures Valid()
      ensures normalOffset == 0.0
      ensures normalInputHeight == if mode == MultipleSend then SingleLineHeight else old(normalInputHeight)
      ensures layouts == old(layouts) + [InputLayout(0.0, false)]
    {
      normalOffset := 0.0;
      if mode == MultipleSend {
        normalInputHeight := SingleLineHeight;
      }
      layouts := layouts + [InputLayout(0.0, false)];
    }

    /** `didHideRecordMode`: back from recording, the multi-line editor regains its height and is laid out. */
    method DidHideRecordMode()
      requires Valid()
      modifies this`normalInputHeight, this`layouts
      ensures Valid()
      ensures mode == MultipleSend ==>
        normalInputHeight == MultiLineHeight && layouts == old(layouts) + [InputLayout(0.0, false)]
      ensures mode != MultipleSend ==> normalInputHeight == old(normalInputHeight) && layouts == old(layouts)
    {
      if mode == MultipleSend {
        normalInputHeight := MultiLineHeight;
        layouts := layouts + [InputLayout(0.0, false)];
      }
    }

    /** `didShowReplyMode`: the reply bar is up. */
    method DidShowReplyMode()
      requires Valid()
      modifies this`isReplying
      ensures Valid() && isReplying
    {
      isReplying := true;
    }

    /**
     * `showReplyMessageView`: the screen is replying from the start. When the
     * input view is the fun one and a message is being replied to, a text view
     * that already has the keyboard puts the bar at the replying keyboard
     * offset and lays it out above the keyboard; otherwise the text view is
     * asked for the keyboard, whose notification is a separate event.
     */
    method ShowReplyMessageView(hasFunInputView: bool, hasOperationMessage: bool, firstResponder: bool)
      requires Valid()
      modifies this`isReplying, this`normalOffset, this`layouts
      ensures Valid() && isReplying
      ensures hasFunInputView && hasOperationMessage && firstResponder ==>
        normalOffset == KeyboardOffset(true)
        && layouts == old(layouts) + [InputLayout(currentKeyboardHeight, false)]
      ensures !(hasFunInputView && hasOperationMessage && firstResponder) ==>
        normalOffset == old(normalOffset) && layouts == old(layouts)
    {
      isReplying := true;
      if !hasFunInputView {
        return;
      }
      if hasOperationMessage {
        if firstResponder {
          normalOffset := -10.0;
          layouts := layouts + [InputLayout(currentKeyboardHeight, false)];
        }
      }
    }

    /** `closeReply`: the screen is no longer replying; the bar's layout is left to the reply bar's hide event. */
    method CloseReply()
      requires Valid()
      modifies this`isReplying
      ensures Valid() && !isReplying
    {
      isReplying := false;
    }

    /**
     * `didHideReplyMode`: the reply bar is gone; the bar sits at the keyboard
     * offset when a keyboard is up and at rest otherwise, and is laid out
     * above the keyboard.
     */
    method DidHideReplyMode()
      requires Valid()
      modifies this`isReplying, this`normalOffset, this`layouts
      ensures Valid() && !isReplying
      ensures normalOffset == if currentKeyboardHeight > 0.0 then KeyboardOffset(false) else RestingOffset(false)
      ensures layouts == old(layouts) + [InputLayout(currentKeyboardHeight, false)]
    {
      isReplying := false;
      if currentKeyboardHeight > 0.0 {
        normalOffset := 30.0;
      } else {
        normalOffset := 0.0;
      }
      layouts := layouts + [InputLayout(currentKeyboardHeight, false)];
    }

    /**
     * `expandButtonDidClick`: the editor opens at its expanded height and the
     * bottom view is anchored above it. The base class's handler and the input
     * view's `changeToMultipleLineStyle` are not part of this model; the mode
     * they leave is `styledMode`.
     */
    method ExpandButtonDidClick(styledMode: InputMode)
      requires Valid()
      modifies this`normalInputHeight, this`bottomAnchor, this`mode
      ensures Valid()
      ensures mode == styledMode
      ensures normalInputHeight == ExpandedHeight && bottomAnchor == Some(-ExpandedHeight)
    {
      mode := styledMode;
      normalInputHeight := ExpandedHeight;
      bottomAnchor := Some(-normalInputHeight);
    }

    /**
     * `didHideMultipleButtonClick`: the resting layout of the mode the base
     * class's handler leaves (`superMode`; that handler is not part of this
     * model), laid out at the bottom with animation.
     */
    method DidHideMultipleButtonClick(superMode: InputMode)
      requires Valid()
      modifies this`normalInputHeight, this`normalOffset, this`layouts, this`mode
      ensures Valid()
      ensures mode == superMode
      ensures mode == Normal ==> normalInputHeight == SingleLineHeight
      ensures mode == MultipleSend ==> normalInputHeight == MultiLineHeight
      ensures mode == OtherMode ==> normalInputHeight == old(normalInputHeight)
      ensures normalOffset == RestingOffset(isReplying)
      ensures layouts == old(layouts) + [InputLayout(0.0, true)]
    {
      mode := superMode;
      SetInputValue();
      layouts := layouts + [InputLayout(0.0, true)];
    }

    /**
     * `titleTextDidClearEmpty`: an emptied title turns the multi-line editor
     * back into the single-line bar at rest, laid out above the keyboard with
     * animation; in any other mode nothing changes.
     */
    method TitleTextDidClearEmpty()
      requires Valid()
      modifies this`mode, this`normalInputHeight, this`normalOffset, this`layouts
      ensures Valid()
      ensures old(mode) == MultipleSend ==>
        && mode == Normal && normalInputHeight == SingleLineHeight
        && normalOffset == RestingOffset(isReplying)
        && layouts == old(layouts) + [InputLayout(currentKeyboardHeight, true)]
      ensures old(mode) != MultipleSend ==>
        && mode == old(mode) && normalInputHeight == old(normalInputHeight)
        && normalOffset == old(normalOffset) && layouts == old(layouts)
    {
      if mode == MultipleSend {
        mode := Normal;
        SetInputValue();
        layouts := layouts + [InputLayout(currentKeyboardHeight, true)];
      }
    }

    /**
     * `didHideMultiple` (the editor closes, the keyboard stays): the
     * single-line height, the keyboard offset when a keyboard is up, and an
     * animated layout above it.
     */
    method DidHideMultiple()
      requires Valid()
      modifies this`normalInputHeight, this`normalOffset, this`layouts
      ensures Valid()
      ensures normalInputHeight == SingleLineHeight
      ensures normalOffset == if currentKeyboardHeight > 0.0 then KeyboardOffset(false) else old(normalOffset)
      ensures layouts == old(layouts) + [InputLayout(currentKeyboardHeight, true)]
    {
      normalInputHeight := SingleLineHeight;
      if currentKeyboardHeight > 0.0 {
        normalOffset := 30.0;
      }
      layouts := layouts + [InputLayout(currentKeyboardHeight, true)];
    }
  }

  /** The smallest content height a bubble is given. */
  const MinContentHeight: real := 42.0

  /** The extra offset of a reply bubble, above the chat content margin. */
  const ReplyOffset: real := 44.0

  /**
   * The content size and offset `getMessageModel` leaves on a model of the
   * given type, starting from `size` and `offset`. Tips and notifications keep
   * their layout; call records lose two points of height and sit two points
   * up; every other bubble keeps its width, is at least the minimum height,
   * and a short one is offset by exactly the height it gained (plus the reply
   * bar's room for a reply).
   */
  function AdjustedLayout(modelType: ModelType, size: Size, offset: real, contentMargin: real): (r: (Size, real))
    ensures modelType == Tip || modelType == Notification ==> r == (size, offset)
    ensures modelType == RtcCallRecord ==> r.0 == Size(size.width, size.height - 2.0) && r.1 == -2.0
    ensures modelType !in {Tip, Notification, RtcCallRecord} ==>
      && r.0.width == size.width
      && r.0.height >= MinContentHeight
      && r.0.height >= size.height
      && (size.height >= MinContentHeight ==> r.0 == size)
      && (size.height < MinContentHeight ==> r.0 == Size(size.width, MinContentHeight))
      && (size.height < MinContentHeight ==>
            r.1 == r.0.height - size.height + (if modelType == Reply then ReplyOffset + contentMargin else 0.0))
      && (size.height >= MinContentHeight ==>
            r.1 == offset + (if modelType == Reply then ReplyOffset + contentMargin else 0.0))
  {
    if modelType == Tip || modelType == Notification then (size, offset)
    else if modelType == RtcCallRecord then (Size(size.width, size.height - 2.0), -2.0)
    else
      var padded := if size.height < MinContentHeight
                    then (Size(size.width, MinContentHeight), MinContentHeight - size.height)
                    else (size, offset);
      if modelType == Reply then (padded.0, padded.1 + ReplyOffset + contentMargin) else padded
  }

  /**
   * Adjusting twice is adjusting once for every bubble but replies (whose
   * offset grows again) and call records (which shrink again).
   */
  lemma AdjustedLayoutIdempotent(modelType: ModelType, size: Size, offset: real, contentMargin: real)
    requires modelType != Reply && modelType != RtcCallRecord
    ensures var r := AdjustedLayout(modelType, size, offset, contentMargin);
      AdjustedLayout(modelType, r.0, r.1, contentMargin) == r
  {
  }

  /** `getMessageModel`: the model takes the adjusted content size and offset; nothing else changes. */
  method GetMessageModel(model: MessageModel, contentMargin: real)
    modifies model`contentSize, model`offset
    ensures (model.contentSize, model.offset)
         == AdjustedLayout(model.modelType, old(model.contentSize), old(model.offset), contentMargin)
  {
    if model.modelType == Tip || model.modelType == Notification {
      return;
    }
    var contentWidth := model.contentSize.width;
    var contentHeight := model.contentSize.height;
    if contentHeight < 42.0 {
      var subHeight := 42.0 - contentHeight;
      model.contentSize := Size(contentWidth, 42.0);
      model.offset := subHeight;
    }
    if model.modelType == Reply {
      model.offset := model.offset + 44.0 + contentMargin;
    }
    if model.modelType == RtcCallRecord {
      model.contentSize := Size(contentWidth, contentHeight - 2.0);
      model.offset := -2.0;
    }
  }

  /** The height of a revoked message's row without its time header. */
  const RevokeRowHeight: real := 28.0

  /**
   * `tableView(_:heightForRowAt:)`: a revoked message's row is the fixed
   * revoke height, plus the time cell when it shows a time; every other row
   * is the model's `cellHeight()`, which is not part of this model and is
   * passed in.
   */
  function HeightForRow(model: MessageModel, timeCellHeight: real, cellHeight: MessageModel -> real): (h: real)
    reads model
    ensures model.modelType != Revoke ==> h == cellHeight(model)
    ensures model.modelType == Revoke ==>
      h - RevokeRowHeight == (if model.timeContent.Some? && model.timeContent.value != "" then timeCellHeight else 0.0)
  {
    if model.modelType == Revoke then
      if model.timeContent.Some? && model.timeContent.value != "" then RevokeRowHeight + timeCellHeight
      else RevokeRowHeight
    else cellHeight(model)
  }

  /** A revoked message's row never consults the model's own cell height. */
  lemma RevokeRowIgnoresCellHeight(model: MessageModel, timeCellHeight: real,
                                   cellHeight: MessageModel -> real, otherCellHeight: MessageModel -> real)
    requires model.modelType == Revoke
    ensures HeightForRow(model, timeCellHeight, cellHeight) == HeightForRow(model, timeCellHeight, otherCellHeight)
  {
  }

  /** `filter`: the items that are not location items, in order. */
  function WithoutLocation(items: seq<MoreItem>): (r: seq<MoreItem>)
    ensures |r| <= |items|
    ensures forall x :: x in r <==> x in items && x.kind != MoreKind.Location
    ensures |items| == 1 ==> r == (if items[0].kind == MoreKind.Location then [] else items)
  {
    if items == [] then []
    else (if items[0].kind == MoreKind.Location then [] else [items[0]]) + WithoutLocation(items[1..])
  }

  /** Filtering keeps order and multiplicity: two lists are filtered list by list. */
  lemma {:induction false} WithoutLocationAppend(xs: seq<MoreItem>, ys: seq<MoreItem>)
    ensures WithoutLocation(xs + ys) == WithoutLocation(xs) + WithoutLocation(ys)
  {
    if xs == [] {
      assert xs + ys == ys;
    } else {
      assert (xs + ys)[1..] == xs[1..] + ys;
      WithoutLocationAppend(xs[1..], ys);
    }
  }

  /** The photo item the fun skin puts first, with its own action. */
  function FunPhotoItem(localize: string -> string): MoreItem
  {
    MoreItem("fun_chat_photo", localize("chat_photo"), Photo, true)
  }

  /**
   * `expandMoreAction`: the client's items for the session, without location
   * items when no chat-kit delegate can handle them, behind the fun skin's
   * own photo item.
   */
  method ExpandMoreAction(client: ChatUIKitClient, sessionType: SessionType,
                          chatInputMenu: Option<seq<MoreItem> -> seq<MoreItem>>,
                          hasDelegate: bool, localize: string -> string)
    returns (items: seq<MoreItem>)
    ensures |items| >= 1 && items[0] == FunPhotoItem(localize)
    ensures chatInputMenu.None? && hasDelegate ==> items[1..] == Offered(client.moreAction, sessionType)
    ensures chatInputMenu.None? && !hasDelegate ==> items[1..] == WithoutLocation(Offered(client.moreAction, sessionType))
    ensures chatInputMenu.Some? ==>
      var m := chatInputMenu.value(Offered(client.moreAction, sessionType));
      items[1..] == if hasDelegate then m else WithoutLocation(m)
    ensures !hasDelegate ==> forall i | 1 <= i < |items| :: items[i].kind != MoreKind.Location
  {
    var more := client.GetMoreActionData(sessionType, chatInputMenu);
    if !hasDelegate {
      more := WithoutLocation(more);
    }
    items := [FunPhotoItem(localize)] + more;
    assert items[1..] == more;
    if !hasDelegate {
      forall i | 1 <= i < |items|
        ensures items[i].kind != MoreKind.Location
      {
        assert items[i] in more;
      }
    }
  }
}
