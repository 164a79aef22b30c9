/**
 * NEBaseConversationController: the conversation list, split into a pinned
 * section (0, `stickTopConversations`) and a normal section (1,
 * `conversationListData`), with pin/unpin moving entries between the two.
 */
module ConversationList {
  import opened Wrappers
  import opened Sorting

  /** A row of the list (`NEConversationListModel`): the conversation's id, when it has a conversation, and its cell type. */
  datatype ConversationEntry = ConversationEntry(conversationId: Option<string>, customType: int)

  /** An SDK error passed to the completion. */
  datatype SdkError = SdkError(code: int, description: string)

  /** The SDK pin requests the controller issues. */
  datatype StickRequest = RemoveStickTop(conversationId: string) | AddStickTop(conversationId: string)

  /** What a page request of the view model ends with: an error, or the two lists after the view model's update. */
  datatype PageResult =
    | PageError(error: SdkError)
    | PageLoaded(pinned: seq<ConversationEntry>, normal: seq<ConversationEntry>, finished: bool)

  /** The entries of the pop-up "+" menu. */
  datatype PopAction = AddFriend | CreateDiscussionGroup | CreateSeniorGroup
  datatype PopListItem = PopListItem(showNameKey: string, imageName: string, action: PopAction)

  /** Whether an entry belongs to the conversation `id`; an entry without a conversation belongs to none. */
  predicate HasId(e: ConversationEntry, id: string)
  {
    e.conversationId == Some(id)
  }

  /** The entries that do not belong to `id`, in order. */
  function Without(s: seq<ConversationEntry>, id: string): seq<ConversationEntry>
  {
    if s == [] then []
    else Without(s[..|s| - 1], id) + (if HasId(s[|s| - 1], id) then [] else [s[|s| - 1]])
  }

  /** The last entry that belongs to `id`, if any. */
  function LastWith(s: seq<ConversationEntry>, id: string): Option<ConversationEntry>
  {
    if s == [] then None
    else if HasId(s[|s| - 1], id) then Some(s[|s| - 1])
    else LastWith(s[..|s| - 1], id)
  }

  /** The number of entries that belong to `id`. */
  function CountWith(s: seq<ConversationEntry>, id: string): nat
  {
    if s == [] then 0
    else CountWith(s[..|s| - 1], id) + (if HasId(s[|s| - 1], id) then 1 else 0)
  }

  /** No conversation id appears twice. */
  ghost predicate UniqueIds(s: seq<ConversationEntry>)
  {
    forall id :: CountWith(s, id) <= 1
  }

  /** An optional entry as a list of zero or one entries. */
  function AsList(e: Option<ConversationEntry>): seq<ConversationEntry>
  {
    if e.Some? then [e.value] else []
  }

  lemma {:induction false} CountWithAppend(a: seq<ConversationEntry>, b: seq<ConversationEntry>, id: string)
    ensures CountWith(a + b, id) == CountWith(a, id) + CountWith(b, id)
  {
    if b != [] {
      assert (a + b)[..|a + b| - 1] == a + b[..|b| - 1];
      CountWithAppend(a, b[..|b| - 1], id);
    } else {
      assert a + b == a;
    }
  }

  /**
   * Removing the entries of `x`: the others stay, in order, and nothing of
   * `x` remains; the list shrinks by exactly the number of entries of `x`.
   */
  lemma {:induction false} WithoutSpec(s: seq<ConversationEntry>, x: string, id: string)
    ensures CountWith(Without(s, x), id) == if id == x then 0 else CountWith(s, id)
    ensures |Without(s, x)| == |s| - CountWith(s, x)
    ensures CountWith(s, x) == 0 ==> Without(s, x) == s
  {
    if s != [] {
      var init := s[..|s| - 1];
      var last := s[|s| - 1];
      WithoutSpec(init, x, id);
      CountWithAppend(Without(init, x), if HasId(last, x) then [] else [last], id);
      if CountWith(s, x) == 0 {
        assert s == init + [last];
      }
    }
  }

  /** Membership in the filtered list: exactly the entries of the list that do not belong to `x`. */
  lemma {:induction false} WithoutMembers(s: seq<ConversationEntry>, x: string, e: ConversationEntry)
    ensures e in Without(s, x) <==> e in s && !HasId(e, x)
  {
    if s != [] {
      var init := s[..|s| - 1];
      WithoutMembers(init, x, e);
      assert s == init + [s[|s| - 1]];
    }
  }

  /** The last entry of `x` is found exactly when there is one, and it is an entry of the list that belongs to `x`. */
  lemma {:induction false} LastWithSpec(s: seq<ConversationEntry>, x: string)
    ensures LastWith(s, x).Some? <==> CountWith(s, x) > 0
    ensures LastWith(s, x).Some? ==> LastWith(s, x).value in s && HasId(LastWith(s, x).value, x)
  {
    if s != [] {
      LastWithSpec(s[..|s| - 1], x);
    }
  }

  /**
   * `removeAll(where:)` with the closure of the move functions: keeps the
   * entries of other conversations and remembers the last entry removed,
   * the closure being evaluated on each entry in order.
   */
  method RemoveAllWithId(s: seq<ConversationEntry>, id: string) returns (rest: seq<ConversationEntry>, removed: Option<ConversationEntry>)
    ensures rest == Without(s, id)
    ensures removed == LastWith(s, id)
  {
    rest, removed := [], None;
    var i := 0;
    while i < |s|
      invariant 0 <= i <= |s|
      invariant rest == Without(s[..i], id)
      invariant removed == LastWith(s[..i], id)
    {
      assert s[..i + 1][..i] == s[..i];
      if s[i].conversationId == Some(id) {
        removed := Some(s[i]);
      } else {
        rest := rest + [s[i]];
      }
      i := i + 1;
    }
    assert s[..i] == s;
  }

  /**
   * A move between the two lists keeps ids unique when they were unique
   * across both lists (so the lists stay disjoint) and keeps the total
   * number of entries.
   */
  lemma MovePreservesUniqueness(from: seq<ConversationEntry>, to: seq<ConversationEntry>, x: string)
    requires UniqueIds(to + from)
    ensures UniqueIds((to + AsList(LastWith(from, x))) + Without(from, x))
    ensures |to + AsList(LastWith(from, x))| + |Without(from, x)| == |to| + |from|
  {
    var moved := AsList(LastWith(from, x));
    LastWithSpec(from, x);
    forall id
      ensures CountWith((to + moved) + Without(from, x), id) <= 1
    {
      CountWithAppend(to + moved, Without(from, x), id);
      CountWithAppend(to, moved, id);
      CountWithAppend(to, from, id);
      WithoutSpec(from, x, id);
      if moved != [] {
        assert moved == [] + [moved[0]];
        assert CountWith(moved, id) == (if id == x then 1 else 0);
      }
    }
    CountWithAppend(to, from, x);
    WithoutSpec(from, x, x);
  }

  class ConversationListController {
    /** The unknown comparator of the list models, as a rank. */
    const rank: ConversationEntry -> int
    var pinned: seq<ConversationEntry>
    var normal: seq<ConversationEntry>
    var emptyHidden: bool
    var toasts: seq<string>
    var stickRequests: seq<StickRequest>
    var dataLoadedCount: nat

    constructor (rank: ConversationEntry -> int)
      ensures this.rank == rank && pinned == [] && normal == []
      ensures toasts == [] && stickRequests == [] && dataLoadedCount == 0
    {
      this.rank := rank;
      pinned, normal := [], [];
      emptyHidden := false;
      toasts, stickRequests, dataLoadedCount := [], [], 0;
    }

    /** `numberOfSections`: always the pinned and the normal section. */
    function NumberOfSections(): (n: int)
      ensures n == 2
    {
      2
    }

    /** `tableView(_:numberOfRowsInSection:)`. */
    function NumberOfRows(section: int): (n: nat)
      reads this
      ensures section == 0 ==> n == |pinned|
      ensures section == 1 ==> n == |normal|
      ensures section != 0 && section != 1 ==> n == 0
    {
      if section == 0 then |pinned|
      else if section == 1 then |normal|
      else 0
    }

    /** The row model of a cell (`cellForRowAt`, `didSelectRowAt`); an out-of-range row would trap. */
    function ModelAt(section: int, row: int): (r: Option<ConversationEntry>)
      reads this
      requires 0 <= row
      requires section == 0 ==> row < |pinned|
      requires section == 1 ==> row < |normal|
      ensures r.Some? <==> section == 0 || section == 1
      ensures r.Some? ==> r.value in pinned + normal
    {
      if section == 0 then Some(pinned[row])
      else if section == 1 then Some(normal[row])
      else None
    }

    /** Every entry of either list is the model of some visible row. */
    lemma EveryEntryHasARow(e: ConversationEntry)
      requires e in pinned + normal
      ensures exists section, row :: 0 <= section < NumberOfSections() && 0 <= row < NumberOfRows(section)
                                     && ModelAt(section, row) == Some(e)
    {
      if e in pinned {
        var row :| 0 <= row < |pinned| && pinned[row] == e;
        assert ModelAt(0, row) == Some(e);
      } else {
        assert e in normal;
        var row :| 0 <= row < |normal| && normal[row] == e;
        assert ModelAt(1, row) == Some(e);
      }
    }

    /** `moveNormalConversationToTop`: every entry of `id` leaves the normal list; the last one removed is appended to the pinned list. */
    method MoveNormalToTop(id: string)
      modifies this`pinned, this`normal
      ensures normal == Without(old(normal), id)
      ensures pinned == old(pinned) + AsList(LastWith(old(normal), id))
    {
      var rest, addModel := RemoveAllWithId(normal, id);
      normal := rest;
      if addModel.Some? {
        pinned := pinned + [addModel.value];
      }
    }

    /** `moveTopToNormalConversation`: the mirror image, from the pinned list to the normal list. */
    method MoveTopToNormal(id: string)
      modifies this`pinned, this`normal
      ensures pinned == Without(old(pinned), id)
      ensures normal == old(normal) + AsList(LastWith(old(pinned), id))
    {
      var rest, addModel := RemoveAllWithId(pinned, id);
      pinned := rest;
      if addModel.Some? {
        normal := normal + [addModel.value];
      }
    }

    /** `reloadTableView`: the empty view is hidden iff some list is non-empty; both lists are sorted. */
    method ReloadTableView()
      modifies this`pinned, this`normal, this`emptyHidden
      ensures emptyHidden <==> |old(pinned)| > 0 || |old(normal)| > 0
      ensures normal == SortBy(old(normal), rank) && pinned == SortBy(old(pinned), rank)
      ensures SortedBy(normal, rank) && multiset(normal) == multiset(old(normal))
      ensures SortedBy(pinned, rank) && multiset(pinned) == multiset(old(pinned))
    {
      if |pinned| <= 0 && |normal| <= 0 {
        emptyHidden := false;
      } else {
        emptyHidden := true;
      }
      normal := SortBy(normal, rank);
      pinned := SortBy(pinned, rank);
    }

    /**
     * `onTopRecentAtIndexPath`: a row of section 0 is unpinned, any other is
     * pinned. `sdkError` is the SDK call's answer. On error the lists are left
     * alone and the error is passed on; on success the entry moves, the table
     * reloads, and the completion gets no error.
     */
    method OnTopRecent(id: string, section: int, sdkError: Option<SdkError>) returns (completion: Option<SdkError>)
      modifies this`pinned, this`normal, this`emptyHidden, this`stickRequests
      ensures stickRequests == old(stickRequests) + [if section == 0 then RemoveStickTop(id) else AddStickTop(id)]
      ensures completion == sdkError
      ensures sdkError.Some? ==> pinned == old(pinned) && normal == old(normal) && emptyHidden == old(emptyHidden)
      ensures sdkError.None? && section == 0 ==>
        && pinned == SortBy(Without(old(pinned), id), rank)
        && normal == SortBy(old(normal) + AsList(LastWith(old(pinned), id)), rank)
      ensures sdkError.None? && section != 0 ==>
        && normal == SortBy(Without(old(normal), id), rank)
        && pinned == SortBy(old(pinned) + AsList(LastWith(old(normal), id)), rank)
      ensures sdkError.None? ==> (emptyHidden <==> |pinned| > 0 || |normal| > 0)
    {
      if section == 0 {
        stickRequests := stickRequests + [RemoveStickTop(id)];
        if sdkError.Some? {
          return sdkError;
        }
        MoveTopToNormal(id);
      } else {
        stickRequests := stickRequests + [AddStickTop(id)];
        if sdkError.Some? {
          return sdkError;
        }
        MoveNormalToTop(id);
      }
      ReloadTableView();
      completion := None;
    }

    /**
     * `requestData`: on error, a toast with the error's description and the
     * empty view; otherwise the empty view when both lists are empty, else the
     * sorted table and the delegate's `onDataLoaded`.
     */
    method RequestData(result: PageResult)
      modifies this
      ensures result.PageError? ==>
        && toasts == old(toasts) + [result.error.description] && !emptyHidden
        && pinned == old(pinned) && normal == old(normal) && dataLoadedCount == old(dataLoadedCount)
      ensures result.PageLoaded? ==> toasts == old(toasts)
      ensures result.PageLoaded? && result.pinned == [] && result.normal == [] ==>
        !emptyHidden && pinned == [] && normal == [] && dataLoadedCount == old(dataLoadedCount)
      ensures result.PageLoaded? && (result.pinned != [] || result.normal != []) ==>
        && emptyHidden
        && pinned == SortBy(result.pinned, rank) && normal == SortBy(result.normal, rank)
        && dataLoadedCount == old(dataLoadedCount) + 1
      ensures stickRequests == old(stickRequests)
      ensures emptyHidden ==> result.PageLoaded? && (pinned != [] || normal != [])
    {
      if result.PageError? {
        toasts := toasts + [result.error.description];
        emptyHidden := false;
        return;
      }
      pinned, normal := result.pinned, result.normal;
      if |pinned| <= 0 && |normal| <= 0 {
        emptyHidden := false;
      } else {
        emptyHidden := true;
        ReloadTableView();
        dataLoadedCount := dataLoadedCount + 1;
      }
    }

    /** `getPopListItems`: add friend, create discussion group, create senior group, in this order. */
    function PopListItems(): (r: seq<PopListItem>)
      ensures |r| == 3
      ensures r[0].action == AddFriend && r[1].action == CreateDiscussionGroup && r[2].action == CreateSeniorGroup
      ensures r[0].showNameKey == "add_friend" && r[1].showNameKey == "create_discussion_group"
           && r[2].showNameKey == "create_senior_group"
    {
      [PopListItem("add_friend", "add_friend", AddFriend),
       PopListItem("create_discussion_group", "create_discussion", CreateDiscussionGroup),
       PopListItem("create_senior_group", "create_group", CreateSeniorGroup)]
    }
  }
}
