/**
 * NEBaseReadViewController: the read-receipt screen of a team message, with a
 * "read" and an "unread" tab, each listing the members whose info the team
 * cache holds.
 */
module ReadReceipts {
  import opened Wrappers

  /** A team member's cached info (`NETeamMemberInfoModel`). */
  datatype MemberInfo = MemberInfo(accountId: string, showName: string)

  /** The SDK's receipt detail: the raw account ids that have and have not read the message. */
  datatype ReceiptDetail = ReceiptDetail(readAccountList: seq<string>, unreadAccountList: seq<string>)

  /** An SDK error: its code and localised description. */
  datatype ReceiptError = ReceiptError(code: int, description: string)

  /** A name load issued to the team cache: the ids and the team it is scoped to. */
  datatype NameLoad = NameLoad(userIds: seq<string>, teamId: string)

  /** The cached members of a list of ids, in id order; ids without cached info are skipped. */
  function Members(ids: seq<string>, cache: string -> Option<MemberInfo>): seq<MemberInfo>
  {
    if ids == [] then []
    else
      var last := cache(ids[|ids| - 1]);
      Members(ids[..|ids| - 1], cache) + (if last.Some? then [last.value] else [])
  }

  /**
   * A member is listed exactly when some id of the list has it in the cache;
   * there are never more members than ids, and exactly as many when every id
   * is cached.
   */
  lemma {:induction false} MembersSpec(ids: seq<string>, cache: string -> Option<MemberInfo>, m: MemberInfo)
    ensures m in Members(ids, cache) <==> exists i :: 0 <= i < |ids| && cache(ids[i]) == Some(m)
    ensures |Members(ids, cache)| <= |ids|
    ensures (forall i | 0 <= i < |ids| :: cache(ids[i]).Some?) ==> |Members(ids, cache)| == |ids|
  {
    if ids != [] {
      var init := ids[..|ids| - 1];
      MembersSpec(init, cache, m);
      if m in Members(init, cache) {
        var i :| 0 <= i < |init| && cache(init[i]) == Some(m);
        assert ids[i] == init[i];
      }
      if exists i :: 0 <= i < |ids| && cache(ids[i]) == Some(m) {
        var i :| 0 <= i < |ids| && cache(ids[i]) == Some(m);
        if i < |init| {
          assert init[i] == ids[i];
        }
      }
      if forall i | 0 <= i < |ids| :: cache(ids[i]).Some? {
        assert forall i | 0 <= i < |init| :: cache(init[i]).Some? by {
          forall i | 0 <= i < |init| ensures cache(init[i]).Some? {
            assert init[i] == ids[i];
          }
        }
      }
    }
  }

  /** Filtering keeps the order: the members of two lists are the members of the first, then of the second. */
  lemma {:induction false} MembersAppend(xs: seq<string>, ys: seq<string>, cache: string -> Option<MemberInfo>)
    ensures Members(xs + ys, cache) == Members(xs, cache) + Members(ys, cache)
  {
    if ys == [] {
      assert xs + ys == xs;
    } else {
      var ys' := ys[..|ys| - 1];
      assert (xs + ys)[..|xs + ys| - 1] == xs + ys';
      MembersAppend(xs, ys', cache);
    }
  }

  /**
   * One of the `for userId in ...` loops of `loadData`: appends, in id order,
   * the cached member of each id that has one.
   */
  method AppendMembers(users: seq<MemberInfo>, ids: seq<string>, cache: string -> Option<MemberInfo>)
    returns (r: seq<MemberInfo>)
    ensures r == users + Members(ids, cache)
  {
    r := users;
    var i := 0;
    while i < |ids|
      invariant 0 <= i <= |ids|
      invariant r == users + Members(ids[..i], cache)
    {
      assert ids[..i + 1][..i] == ids[..i];
      var memberInfo := cache(ids[i]);
      if memberInfo.Some? {
        r := r + [memberInfo.value];
      }
      i := i + 1;
    }
    assert ids[..i] == ids;
  }

  /** The size of the list the selected tab shows. */
  function SelectedCount(read: bool, readCount: nat, unreadCount: nat): nat
  {
    if read then readCount else unreadCount
  }

  /** Whether the table is hidden once a load completes: only on the read tab with no read member. */
  function LoadedTableHidden(read: bool, readCount: nat): bool
  {
    read && readCount == 0
  }

  /**
   * The rule a completed load applies agrees with the tab rule (table hidden
   * exactly when the selected list is empty) precisely when the read tab is
   * selected or the unread list is non-empty: on the unread tab an empty list
   * leaves the table showing.
   */
  lemma LoadedRuleAgreesWithTabRule(read: bool, readCount: nat, unreadCount: nat)
    ensures (LoadedTableHidden(read, readCount) == (SelectedCount(read, readCount, unreadCount) == 0))
        <==> (read || unreadCount > 0)
  {
  }

  class ReadView {
    const teamId: string
    var read: bool
    var readUsers: seq<MemberInfo>
    var unReadUsers: seq<MemberInfo>
    var tableHidden: bool
    var emptyHidden: bool
    var readTitleCount: Option<nat>
    var unreadTitleCount: Option<nat>
    var toasts: seq<string>
    var nameLoads: seq<NameLoad>

    /** The table shows the selected list exactly when it is non-empty, and the empty view otherwise. */
    predicate ShowsSelection()
      reads this
    {
      tableHidden != emptyHidden
      && (tableHidden <==> SelectedCount(read, |readUsers|, |unReadUsers|) == 0)
    }

    /** A fresh screen: the read tab, no members, no titles yet. */
    constructor (teamId: string, tableHidden: bool, emptyHidden: bool)
      ensures this.teamId == teamId && read
      ensures readUsers == [] && unReadUsers == [] && toasts == [] && nameLoads == []
      ensures readTitleCount == None && unreadTitleCount == None
      ensures this.tableHidden == tableHidden && this.emptyHidden == emptyHidden
    {
      this.teamId := teamId;
      read := true;
      readUsers, unReadUsers := [], [];
      this.tableHidden, this.emptyHidden := tableHidden, emptyHidden;
      readTitleCount, unreadTitleCount := None, None;
      toasts, nameLoads := [], [];
    }

    /** `tableView(_:numberOfRowsInSection:)`: the size of the selected tab's list. */
    function NumberOfRows(): (n: nat)
      reads this
      ensures read ==> n == |readUsers|
      ensures !read ==> n == |unReadUsers|
    {
      if read then |readUsers| else |unReadUsers|
    }

    /** While the view shows its selection, the empty view is up exactly when there are no rows. */
    lemma EmptyViewIffNoRows()
      requires ShowsSelection()
      ensures !emptyHidden <==> NumberOfRows() == 0
    {
    }

    /**
     * `readButtonEvent`: nothing happens on the tab already selected; otherwise
     * the read tab is selected and the table or the empty view shows, by
     * whether the read list is empty.
     */
    method ReadButtonEvent()
      modifies this
      ensures old(read) ==> read && tableHidden == old(tableHidden) && emptyHidden == old(emptyHidden)
      ensures read && ShowsSelection() == (old(read) ==> old(ShowsSelection()))
      ensures readUsers == old(readUsers) && unReadUsers == old(unReadUsers)
      ensures toasts == old(toasts) && nameLoads == old(nameLoads)
      ensures readTitleCount == old(readTitleCount) && unreadTitleCount == old(unreadTitleCount)
    {
      if read {
        return;
      }
      read := true;
      if |readUsers| == 0 {
        tableHidden, emptyHidden := true, false;
      } else {
        tableHidden, emptyHidden := false, true;
      }
    }

    /** `unreadButtonEvent`: the mirror image of `ReadButtonEvent` for the unread tab. */
    method UnreadButtonEvent()
      modifies this
      ensures !old(read) ==> !read && tableHidden == old(tableHidden) && emptyHidden == old(emptyHidden)
      ensures !read && ShowsSelection() == (!old(read) ==> old(ShowsSelection()))
      ensures readUsers == old(readUsers) && unReadUsers == old(unReadUsers)
      ensures toasts == old(toasts) && nameLoads == old(nameLoads)
      ensures readTitleCount == old(readTitleCount) && unreadTitleCount == old(unreadTitleCount)
    {
      if !read {
        return;
      }
      read := false;
      if |unReadUsers| == 0 {
        tableHidden, emptyHidden := true, false;
      } else {
        tableHidden, emptyHidden := false, true;
      }
    }

    /**
     * `loadData`, with the receipt-detail request's answer as parameters and
     * `cache` the team cache after its name load. A missing detail changes
     * nothing, even with an error. An error shows the network-error text when
     * its code is `protocolSendFailed` and its own description otherwise, and
     * changes nothing else. Otherwise the tab titles take the raw counts, one
     * name load is issued for all read then unread ids, the cached members of
     * each raw list are appended to the tab's list in order, and the table is
     * hidden only on the read tab with no read member.
     */
    method LoadData(detail: Option<ReceiptDetail>, error: Option<ReceiptError>, protocolSendFailed: int,
                    networkErrorText: string, cache: string -> Option<MemberInfo>)
      modifies this
      ensures read == old(read)
      ensures detail.None? ==>
        && readUsers == old(readUsers) && unReadUsers == old(unReadUsers)
        && tableHidden == old(tableHidden) && emptyHidden == old(emptyHidden)
        && toasts == old(toasts) && nameLoads == old(nameLoads)
        && readTitleCount == old(readTitleCount) && unreadTitleCount == old(unreadTitleCount)
      ensures detail.Some? && error.Some? ==>
        && readUsers == old(readUsers) && unReadUsers == old(unReadUsers)
        && tableHidden == old(tableHidden) && emptyHidden == old(emptyHidden)
        && nameLoads == old(nameLoads)
        && readTitleCount == old(readTitleCount) && unreadTitleCount == old(unreadTitleCount)
        && toasts == old(toasts) + [if error.value.code == protocolSendFailed then networkErrorText
                                    else error.value.description]
      ensures detail.Some? && error.None? ==>
        && readTitleCount == Some(|detail.value.readAccountList|)
        && unreadTitleCount == Some(|detail.value.unreadAccountList|)
        && nameLoads == old(nameLoads)
             + [NameLoad(detail.value.readAccountList + detail.value.unreadAccountList, teamId)]
        && readUsers == old(readUsers) + Members(detail.value.readAccountList, cache)
        && unReadUsers == old(unReadUsers) + Members(detail.value.unreadAccountList, cache)
        && tableHidden == LoadedTableHidden(read, |readUsers|) && emptyHidden == !tableHidden
        && toasts == old(toasts)
    {
      if detail.None? {
      } else if error.Some? {
        if error.value.code == protocolSendFailed {
          toasts := toasts + [networkErrorText];
        } else {
          toasts := toasts + [error.value.description];
        }
      } else {
        var d := detail.value;
        readTitleCount := Some(|d.readAccountList|);
        unreadTitleCount := Some(|d.unreadAccountList|);
        nameLoads := nameLoads + [NameLoad(d.readAccountList + d.unreadAccountList, teamId)];
        readUsers := AppendMembers(readUsers, d.readAccountList, cache);
        unReadUsers := AppendMembers(unReadUsers, d.unreadAccountList, cache);
        if read && |readUsers| == 0 {
          tableHidden, emptyHidden := true, false;
        } else {
          tableHidden, emptyHidden := false, true;
        }
      }
    }
  }
}
