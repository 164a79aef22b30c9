/**
 * NEChatUIKitClient: the shared client of the chat UI kit, holding the
 * "more" panel's action items and the registry of custom message cells.
 */
module ChatClient {
  import opened Wrappers

  /** The action an item of the "more" panel stands for (`NEMoreItemModel.type`). */
  datatype MoreKind = Photo | TakePicture | Location | File | Rtc | OtherAction(code: int)

  /**
   * An item of the "more" panel: its image name, its localised title, its
   * kind, and whether it carries an action of its own (set by the screen
   * that builds it) instead of the panel's default handling.
   */
  datatype MoreItem = MoreItem(image: string, title: string, kind: MoreKind, ownAction: bool)

  /** The conversation type the panel is shown for (`NIMSessionType`). */
  datatype SessionType = P2P | TeamSession | SuperTeamSession | OtherSession

  /** A table-view cell class registered for a custom message, by name. */
  datatype CellClass = CellClass(name: string)

  /** The kinds of a list of items, in order. */
  function Kinds(items: seq<MoreItem>): (r: seq<MoreKind>)
    ensures |r| == |items|
    ensures forall i | 0 <= i < |items| :: r[i] == items[i].kind
  {
    if items == [] then [] else [items[0].kind] + Kinds(items[1..])
  }

  /** An item of the panel is offered for a session unless it is a call item and the session is not one-to-one. */
  predicate IsOffered(item: MoreItem, sessionType: SessionType)
  {
    item.kind != Rtc || sessionType == P2P
  }

  /** The items offered for a session, in panel order. */
  function Offered(items: seq<MoreItem>, sessionType: SessionType): seq<MoreItem>
  {
    if items == [] then []
    else Offered(items[..|items| - 1], sessionType)
         + (if IsOffered(items[|items| - 1], sessionType) then [items[|items| - 1]] else [])
  }

  /**
   * The offered items are exactly the panel's items that are not call items
   * or are shown in a one-to-one session, and there are never more of them
   * than items.
   */
  lemma {:induction false} OfferedMembers(items: seq<MoreItem>, sessionType: SessionType, x: MoreItem)
    ensures x in Offered(items, sessionType) <==> x in items && IsOffered(x, sessionType)
    ensures |Offered(items, sessionType)| <= |items|
  {
    if items != [] {
      var init := items[..|items| - 1];
      OfferedMembers(init, sessionType, x);
      assert items == init + [items[|items| - 1]];
    }
  }

  /** A one-to-one session is offered the whole panel. */
  lemma {:induction false} OfferedToP2P(items: seq<MoreItem>)
    ensures Offered(items, P2P) == items
  {
    if items != [] {
      var init := items[..|items| - 1];
      OfferedToP2P(init);
      assert items == init + [items[|items| - 1]];
    }
  }

  /** Any other session is offered no call item. */
  lemma OfferedNoCallOutsideP2P(items: seq<MoreItem>, sessionType: SessionType)
    requires sessionType != P2P
    ensures Rtc !in Kinds(Offered(items, sessionType))
  {
    var r := Offered(items, sessionType);
    forall i | 0 <= i < |r|
      ensures r[i].kind != Rtc
    {
      assert r[i] in r;
      OfferedMembers(items, sessionType, r[i]);
    }
  }

  /** Offering keeps the panel order: the items of two lists are offered list by list. */
  lemma {:induction false} OfferedAppend(xs: seq<MoreItem>, ys: seq<MoreItem>, sessionType: SessionType)
    ensures Offered(xs + ys, sessionType) == Offered(xs, sessionType) + Offered(ys, sessionType)
  {
    if ys == [] {
      assert xs + ys == xs;
    } else {
      var ys' := ys[..|ys| - 1];
      assert (xs + ys)[..|xs + ys| - 1] == xs + ys';
      OfferedAppend(xs, ys', sessionType);
    }
  }

  /** The registry after a series of registrations, applied in order. */
  function Accumulated(registry: map<string, CellClass>, registrations: seq<map<string, CellClass>>): map<string, CellClass>
    decreases |registrations|
  {
    if registrations == [] then registry
    else Accumulated(registry + registrations[0], registrations[1..])
  }

  /**
   * Registrations accumulate: a key is registered when it was before or when
   * some registration names it, and it maps to the class of the last
   * registration naming it, or to its earlier class when none does.
   */
  lemma {:induction false} AccumulatedSpec(registry: map<string, CellClass>, registrations: seq<map<string, CellClass>>, key: string)
    ensures key in Accumulated(registry, registrations)
        <==> key in registry || exists i :: 0 <= i < |registrations| && key in registrations[i]
    ensures forall i | 0 <= i < |registrations| && key in registrations[i]
                     && (forall j | i < j < |registrations| :: key !in registrations[j])
              :: Accumulated(registry, registrations)[key] == registrations[i][key]
    ensures ((forall i | 0 <= i < |registrations| :: key !in registrations[i]) && key in registry)
        ==> Accumulated(registry, registrations)[key] == registry[key]
    decreases |registrations|
  {
    if registrations != [] {
      var rest := registrations[1..];
      AccumulatedSpec(registry + registrations[0], rest, key);
      if exists i :: 0 <= i < |registrations| && key in registrations[i] {
        var i :| 0 <= i < |registrations| && key in registrations[i];
        if i > 0 {
          assert key in rest[i - 1];
        }
      }
      if exists i :: 0 <= i < |rest| && key in rest[i] {
        var i :| 0 <= i < |rest| && key in rest[i];
        assert key in registrations[i + 1];
      }
      forall i | 0 <= i < |registrations| && key in registrations[i]
                 && (forall j | i < j < |registrations| :: key !in registrations[j])
        ensures Accumulated(registry, registrations)[key] == registrations[i][key]
      {
        if i > 0 {
          assert key in rest[i - 1];
          assert forall j | i - 1 < j < |rest| :: key !in rest[j] by {
            forall j | i - 1 < j < |rest| ensures key !in rest[j] {
              assert rest[j] == registrations[j + 1];
            }
          }
        } else {
          assert forall j | 0 <= j < |rest| :: key !in rest[j] by {
            forall j | 0 <= j < |rest| ensures key !in rest[j] {
              assert rest[j] == registrations[j + 1];
            }
          }
        }
      }
      if (forall i | 0 <= i < |registrations| :: key !in registrations[i]) && key in registry {
        assert key !in registrations[0];
        assert forall j | 0 <= j < |rest| :: key !in rest[j] by {
          forall j | 0 <= j < |rest| ensures key !in rest[j] {
            assert rest[j] == registrations[j + 1];
          }
        }
      }
    }
  }

  /** Registering one more dictionary merges it over the registry the earlier ones left. */
  lemma {:induction false} AccumulatedSnoc(registry: map<string, CellClass>, registrations: seq<map<string, CellClass>>,
                                           registerDic: map<string, CellClass>)
    ensures Accumulated(registry, registrations + [registerDic]) == Accumulated(registry, registrations) + registerDic
    decreases |registrations|
  {
    if registrations == [] {
      assert registrations + [registerDic] == [registerDic];
      assert [registerDic][1..] == [];
    } else {
      assert (registrations + [registerDic])[1..] == registrations[1..] + [registerDic];
      AccumulatedSnoc(registry + registrations[0], registrations[1..], registerDic);
    }
  }

  class ChatUIKitClient {
    var customRegisterDic: map<string, CellClass>
    var moreAction: seq<MoreItem>
    /** Every dictionary registered so far, in order. */
    ghost var registrations: seq<map<string, CellClass>>

    /** The registry is what the registrations so far, applied in order, leave. */
    ghost predicate Valid()
      reads this
    {
      customRegisterDic == Accumulated(map[], registrations)
    }

    /**
     * `init`: the panel holds photo, take-picture, location and file, in that
     * order, then the call item exactly when the call service is registered;
     * the registry starts empty.
     */
    constructor (callServiceRegistered: bool, localize: string -> string)
      ensures customRegisterDic == map[] && registrations == [] && Valid()
      ensures Kinds(moreAction) == [Photo, TakePicture, Location, File] + (if callServiceRegistered then [Rtc] else [])
      ensures forall i | 0 <= i < |moreAction| :: !moreAction[i].ownAction
      ensures moreAction[0] == MoreItem("fun_chat_photo", localize("chat_photo"), Photo, false)
      ensures moreAction[1] == MoreItem("chat_takePicture", localize("chat_takePicture"), TakePicture, false)
      ensures moreAction[2] == MoreItem("chat_location", localize("chat_location"), Location, false)
      ensures moreAction[3] == MoreItem("chat_file", localize("chat_file"), File, false)
      ensures callServiceRegistered ==> moreAction[4] == MoreItem("chat_rtc", localize("chat_rtc"), Rtc, false)
    {
      customRegisterDic := map[];
      registrations := [];
      var items: seq<MoreItem> := [];
      items := items + [MoreItem("fun_chat_photo", localize("chat_photo"), Photo, false)];
      items := items + [MoreItem("chat_takePicture", localize("chat_takePicture"), TakePicture, false)];
      items := items + [MoreItem("chat_location", localize("chat_location"), Location, false)];
      items := items + [MoreItem("chat_file", localize("chat_file"), File, false)];
      if callServiceRegistered {
        items := items + [MoreItem("chat_rtc", localize("chat_rtc"), Rtc, false)];
      }
      moreAction := items;
    }

    /**
     * `getMoreActionData`: the panel's items in order, call items kept only
     * for a one-to-one session, then handed to the configured menu hook when
     * there is one. The panel itself is not changed.
     */
    method GetMoreActionData(sessionType: SessionType, chatInputMenu: Option<seq<MoreItem> -> seq<MoreItem>>)
      returns (more: seq<MoreItem>)
      ensures chatInputMenu.None? ==> more == Offered(moreAction, sessionType)
      ensures chatInputMenu.Some? ==> more == chatInputMenu.value(Offered(moreAction, sessionType))
      ensures chatInputMenu.None? && sessionType == P2P ==> more == moreAction
    {
      more := [];
      var i := 0;
      while i < |moreAction|
        invariant 0 <= i <= |moreAction|
        invariant more == Offered(moreAction[..i], sessionType)
      {
        assert moreAction[..i + 1][..i] == moreAction[..i];
        var model := moreAction[i];
        if model.kind != Rtc {
          more := more + [model];
        } else if sessionType == P2P {
          more := more + [model];
        }
        i := i + 1;
      }
      assert moreAction[..i] == moreAction;
      if chatInputMenu.Some? {
        more := chatInputMenu.value(more);
      }
      if chatInputMenu.None? && sessionType == P2P {
        OfferedToP2P(moreAction);
      }
    }

    /**
     * `regsiterCustomCell`: every key of `registerDic` now maps to its class
     * there; every other key keeps its registration.
     */
    method RegisterCustomCell(registerDic: map<string, CellClass>)
      requires Valid()
      modifies this`customRegisterDic, this`registrations
      ensures customRegisterDic == old(customRegisterDic) + registerDic
      ensures registrations == old(registrations) + [registerDic] && Valid()
    {
      var todo := registerDic.Keys;
      ghost var done: set<string> := {};
      while todo != {}
        invariant todo + done == registerDic.Keys && todo !! done
        invariant customRegisterDic == old(customRegisterDic) + map k | k in done :: registerDic[k]
        invariant registrations == old(registrations)
        decreases todo
      {
        var key :| key in todo;
        customRegisterDic := customRegisterDic[key := registerDic[key]];
        todo := todo - {key};
        done := done + {key};
      }
      assert (map k | k in done :: registerDic[k]) == registerDic;
      AccumulatedSnoc(map[], registrations, registerDic);
      registrations := registrations + [registerDic];
    }

    /** `getRegisterCustomCell`: the registry as the registrations so far have left it. */
    function GetRegisterCustomCell(): (r: map<string, CellClass>)
      reads this
      ensures r.Keys == customRegisterDic.Keys
      ensures forall k | k in r :: r[k] == customRegisterDic[k]
      ensures Valid() ==> r == Accumulated(map[], registrations)
    {
      customRegisterDic
    }
  }
}
