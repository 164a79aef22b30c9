/**
 * ConversationSearchViewModel: the friend and team caches the conversation
 * search runs over, kept up to date by contact and team events, and the
 * search that filters them into friend, discussion-group and senior-group
 * results.
 */
module ConversationSearch {
  import opened Wrappers
  import opened Sorting

  /** A friend's profile as the search reads it. */
  datatype FriendUser = FriendUser(showName: Option<string>, accountId: Option<string>)

  /** A team as the search reads it; `serverExtension` is the raw extension string. */
  datatype Team = Team(teamId: string, showName: Option<string>, serverExtension: Option<string>)

  /** A search row (`ConversationSearchListModel`): a friend, a team, or neither. */
  datatype SearchEntry = SearchEntry(userInfo: Option<FriendUser>, team: Option<Team>)

  /** `String.contains`: `t` occurs in `s` as a contiguous substring (the empty string occurs everywhere). */
  predicate Contains(s: string, t: string)
    decreases |s|
  {
    t <= s || (s != [] && Contains(s[1..], t))
  }

  /** `t` occurs in `s` at index `i`. */
  predicate OccursAt(s: string, t: string, i: int)
  {
    0 <= i <= |s| - |t| && s[i..i + |t|] == t
  }

  /** `Contains` is the existence of an occurrence. */
  lemma {:induction false} ContainsSpec(s: string, t: string)
    ensures Contains(s, t) <==> exists i :: OccursAt(s, t, i)
    decreases |s|
  {
    if t <= s {
      assert OccursAt(s, t, 0);
    } else if s != [] {
      ContainsSpec(s[1..], t);
      if Contains(s[1..], t) {
        var i :| OccursAt(s[1..], t, i);
        assert s[i + 1..i + 1 + |t|] == s[1..][i..i + |t|];
        assert OccursAt(s, t, i + 1);
      }
      if exists i :: OccursAt(s, t, i) {
        var i :| OccursAt(s, t, i);
        assert i == 0 ==> t <= s;
        assert s[1..][i - 1..i - 1 + |t|] == s[i..i + |t|];
        assert OccursAt(s[1..], t, i - 1);
      }
    }
  }

  /** A friend row matches when it has a profile whose show name or account id contains the text. */
  predicate FriendMatches(e: SearchEntry, search: string)
  {
    e.userInfo.Some?
    && ((e.userInfo.value.showName.Some? && Contains(e.userInfo.value.showName.value, search))
        || (e.userInfo.value.accountId.Some? && Contains(e.userInfo.value.accountId.value, search)))
  }

  /** A team row matches when the team's show name contains the text. */
  predicate TeamMatches(e: SearchEntry, search: string)
  {
    e.team.Some? && e.team.value.showName.Some? && Contains(e.team.value.showName.value, search)
  }

  /** A discussion group is a team whose server extension contains the discussion marker. */
  predicate IsDiscussion(e: SearchEntry, discussTeamKey: string)
  {
    e.team.Some? && e.team.value.serverExtension.Some? && Contains(e.team.value.serverExtension.value, discussTeamKey)
  }

  /** The search's three row filters. */
  function FriendFilter(search: string): SearchEntry -> bool
  {
    e => FriendMatches(e, search)
  }

  function DiscussionFilter(search: string, discussTeamKey: string): SearchEntry -> bool
  {
    e => TeamMatches(e, search) && IsDiscussion(e, discussTeamKey)
  }

  function SeniorFilter(search: string, discussTeamKey: string): SearchEntry -> bool
  {
    e => TeamMatches(e, search) && !IsDiscussion(e, discussTeamKey)
  }

  /** `keys` lists every key of `dic` whose row satisfies `p`, each exactly once, and no other. */
  ghost predicate Enumerates(dic: map<string, SearchEntry>, keys: seq<string>, p: SearchEntry -> bool)
  {
    (forall i, j | 0 <= i < j < |keys| :: keys[i] != keys[j])
    && (forall k :: k in keys <==> k in dic && p(dic[k]))
  }

  /** The rows of `dic` under the given keys, in key order (keys not in `dic` contribute nothing). */
  function RowsOf(dic: map<string, SearchEntry>, keys: seq<string>): seq<SearchEntry>
  {
    if keys == [] then []
    else
      var k := keys[|keys| - 1];
      RowsOf(dic, keys[..|keys| - 1]) + (if k in dic then [dic[k]] else [])
  }

  /** Enumerated rows satisfy the filter and come from the dictionary; one row per enumerated key. */
  lemma {:induction false} RowsOfEnumeration(dic: map<string, SearchEntry>, keys: seq<string>, p: SearchEntry -> bool)
    requires forall k | k in keys :: k in dic && p(dic[k])
    ensures |RowsOf(dic, keys)| == |keys|
    ensures forall x | x in RowsOf(dic, keys) :: p(x) && x in dic.Values
  {
    if keys != [] {
      RowsOfEnumeration(dic, keys[..|keys| - 1], p);
    }
  }

  /**
   * The rows of `dic` that satisfy `p`, collected by iterating the
   * dictionary; `keys` is the iteration order of the matching keys.
   */
  method Collect(dic: map<string, SearchEntry>, p: SearchEntry -> bool) returns (r: seq<SearchEntry>, ghost keys: seq<string>)
    ensures Enumerates(dic, keys, p) && r == RowsOf(dic, keys)
  {
    r, keys := [], [];
    var todo := dic.Keys;
    ghost var done: set<string> := {};
    while todo != {}
      invariant todo + done == dic.Keys && todo !! done
      invariant forall i, j | 0 <= i < j < |keys| :: keys[i] != keys[j]
      invariant forall k :: k in keys <==> k in done && p(dic[k])
      invariant r == RowsOf(dic, keys)
      decreases todo
    {
      var key :| key in todo;
      var value := dic[key];
      if p(value) {
        assert (keys + [key])[..|keys|] == keys;
        r, keys := r + [value], keys + [key];
      }
      todo := todo - {key};
      done := done + {key};
    }
  }

  /**
   * The team rows matching a search text, split by the discussion marker:
   * every matching team goes to exactly one of the two lists.
   */
  method SplitTeams(teamDic: map<string, SearchEntry>, search: string, discussTeamKey: string)
    returns (discussion: seq<SearchEntry>, senior: seq<SearchEntry>, ghost dKeys: seq<string>, ghost sKeys: seq<string>)
    ensures Enumerates(teamDic, dKeys, DiscussionFilter(search, discussTeamKey)) && discussion == RowsOf(teamDic, dKeys)
    ensures Enumerates(teamDic, sKeys, SeniorFilter(search, discussTeamKey)) && senior == RowsOf(teamDic, sKeys)
  {
    discussion, senior, dKeys, sKeys := [], [], [], [];
    var todo := teamDic.Keys;
    ghost var done: set<string> := {};
    ghost var pd := DiscussionFilter(search, discussTeamKey);
    ghost var ps := SeniorFilter(search, discussTeamKey);
    while todo != {}
      invariant todo + done == teamDic.Keys && todo !! done
      invariant forall i, j | 0 <= i < j < |dKeys| :: dKeys[i] != dKeys[j]
      invariant forall i, j | 0 <= i < j < |sKeys| :: sKeys[i] != sKeys[j]
      invariant forall k :: k in dKeys <==> k in done && pd(teamDic[k])
      invariant forall k :: k in sKeys <==> k in done && ps(teamDic[k])
      invariant discussion == RowsOf(teamDic, dKeys) && senior == RowsOf(teamDic, sKeys)
      decreases todo
    {
      var key :| key in todo;
      var value := teamDic[key];
      if value.team.Some? && value.team.value.showName.Some? && Contains(value.team.value.showName.value, search) {
        if value.team.value.serverExtension.Some? && Contains(value.team.value.serverExtension.value, discussTeamKey) {
          assert (dKeys + [key])[..|dKeys|] == dKeys;
          discussion, dKeys := discussion + [value], dKeys + [key];
        } else {
          assert (sKeys + [key])[..|sKeys|] == sKeys;
          senior, sKeys := senior + [value], sKeys + [key];
        }
      }
      todo := todo - {key};
      done := done + {key};
    }
  }

  /** A team row is found by a search in exactly one way: as a discussion group, as a senior group, or not at all. */
  lemma TeamInExactlyOneList(x: SearchEntry, search: string, discussTeamKey: string)
    ensures (DiscussionFilter(search, discussTeamKey)(x) != SeniorFilter(search, discussTeamKey)(x))
         <==> TeamMatches(x, search)
  {
  }

  /** The two team enumerations of one search share no key. */
  lemma TeamListsDisjoint(teamDic: map<string, SearchEntry>, dKeys: seq<string>, sKeys: seq<string>,
                          search: string, discussTeamKey: string)
    requires Enumerates(teamDic, dKeys, DiscussionFilter(search, discussTeamKey))
    requires Enumerates(teamDic, sKeys, SeniorFilter(search, discussTeamKey))
    ensures forall k | k in dKeys :: k !in sKeys
  {
  }

  /** `rows` are, in some order, the rows of the keys of `dic` whose row satisfies `p`, one per key. */
  ghost predicate Found(dic: map<string, SearchEntry>, p: SearchEntry -> bool, rows: seq<SearchEntry>)
  {
    exists keys :: Enumerates(dic, keys, p) && multiset(rows) == multiset(RowsOf(dic, keys))
  }

  /**
   * What a search for `search` yields: each of the three lists holds the rows
   * its filter selects, one per matching key, ordered by rank.
   */
  ghost predicate SearchResults(friendDic: map<string, SearchEntry>, teamDic: map<string, SearchEntry>, search: string,
                                discussTeamKey: string, rank: SearchEntry -> int,
                                friendDatas: seq<SearchEntry>, discussionDatas: seq<SearchEntry>, seniorDatas: seq<SearchEntry>)
  {
    && SortedBy(friendDatas, rank) && SortedBy(discussionDatas, rank) && SortedBy(seniorDatas, rank)
    && Found(friendDic, FriendFilter(search), friendDatas)
    && Found(teamDic, DiscussionFilter(search, discussTeamKey), discussionDatas)
    && Found(teamDic, SeniorFilter(search, discussTeamKey), seniorDatas)
  }

  /** The body of `doSearch` for a present text: collect the three result lists, then sort each. */
  method Search(friendDic: map<string, SearchEntry>, teamDic: map<string, SearchEntry>, search: string,
                discussTeamKey: string, rank: SearchEntry -> int)
    returns (friendDatas: seq<SearchEntry>, discussionDatas: seq<SearchEntry>, seniorDatas: seq<SearchEntry>)
    ensures SearchResults(friendDic, teamDic, search, discussTeamKey, rank, friendDatas, discussionDatas, seniorDatas)
  {
    var friends, fKeys := Collect(friendDic, FriendFilter(search));
    var discussion, senior, dKeys, sKeys := SplitTeams(teamDic, search, discussTeamKey);
    friendDatas := SortBy(friends, rank);
    discussionDatas := SortBy(discussion, rank);
    seniorDatas := SortBy(senior, rank);
  }

  class SearchViewModel {
    const discussTeamKey: string
    /** The unknown comparator of the search rows, as a rank. */
    const rank: SearchEntry -> int
    var teamDic: map<string, SearchEntry>
    var friendDic: map<string, SearchEntry>
    var friendDatas: seq<SearchEntry>
    var discussionDatas: seq<SearchEntry>
    var seniorDatas: seq<SearchEntry>
    var completions: nat

    constructor (discussTeamKey: string, rank: SearchEntry -> int)
      ensures this.discussTeamKey == discussTeamKey && this.rank == rank
      ensures teamDic == map[] && friendDic == map[]
      ensures friendDatas == [] && discussionDatas == [] && seniorDatas == [] && completions == 0
    {
      this.discussTeamKey, this.rank := discussTeamKey, rank;
      teamDic, friendDic := map[], map[];
      friendDatas, discussionDatas, seniorDatas := [], [], [];
      completions := 0;
    }

    /**
     * `doSearch`: the three result lists are emptied; with no text they stay
     * empty; otherwise each holds the matching rows of its dictionary, each
     * row once per key holding it, sorted. The completion runs once either way.
     */
    method DoSearch(searchText: Option<string>)
      modifies this`friendDatas, this`discussionDatas, this`seniorDatas, this`completions
      ensures completions == old(completions) + 1
      ensures searchText.None? ==> friendDatas == [] && discussionDatas == [] && seniorDatas == []
      ensures searchText.Some? ==>
        SearchResults(friendDic, teamDic, searchText.value, discussTeamKey, rank, friendDatas, discussionDatas, seniorDatas)
    {
      if searchText.None? {
        friendDatas, discussionDatas, seniorDatas := [], [], [];
      } else {
        friendDatas, discussionDatas, seniorDatas := Search(friendDic, teamDic, searchText.value, discussTeamKey, rank);
      }
      completions := completions + 1;
    }

    /** `addTeam`: the team's id maps to a fresh row for it; other ids keep their rows. */
    method AddTeam(team: Team)
      modifies this`teamDic
      ensures teamDic == old(teamDic)[team.teamId := SearchEntry(None, Some(team))]
    {
      teamDic := teamDic[team.teamId := SearchEntry(None, Some(team))];
    }

    /** `removeTeam`: only the team's id is dropped. */
    method RemoveTeam(team: Team)
      modifies this`teamDic
      ensures teamDic == old(teamDic) - {team.teamId}
    {
      teamDic := teamDic - {team.teamId};
    }

    /** `onTeamJoined`. */
    method OnTeamJoined(team: Team)
      modifies this`teamDic
      ensures teamDic == old(teamDic)[team.teamId := SearchEntry(None, Some(team))]
    {
      AddTeam(team);
    }

    /** `onTeamCreated`. */
    method OnTeamCreated(team: Team)
      modifies this`teamDic
      ensures teamDic == old(teamDic)[team.teamId := SearchEntry(None, Some(team))]
    {
      AddTeam(team);
    }

    /** `onTeamDismissed`. */
    method OnTeamDismissed(team: Team)
      modifies this`teamDic
      ensures teamDic == old(teamDic) - {team.teamId}
    {
      RemoveTeam(team);
    }

    /** `onTeamLeft`, kicked or not. */
    method OnTeamLeft(team: Team, isKicked: bool)
      modifies this`teamDic
      ensures teamDic == old(teamDic) - {team.teamId}
    {
      RemoveTeam(team);
    }

    /**
     * `onTeamInfoUpdated`: an existing row gets the new team and keeps its
     * friend part; a missing one is added. Either way the id is present.
     */
    method OnTeamInfoUpdated(team: Team)
      modifies this`teamDic
      ensures team.teamId in old(teamDic) ==>
        teamDic == old(teamDic)[team.teamId := old(teamDic)[team.teamId].(team := Some(team))]
      ensures team.teamId !in old(teamDic) ==> teamDic == old(teamDic)[team.teamId := SearchEntry(None, Some(team))]
      ensures team.teamId in teamDic && teamDic[team.teamId].team == Some(team)
      ensures teamDic.Keys == old(teamDic).Keys + {team.teamId}
    {
      if team.teamId in teamDic {
        teamDic := teamDic[team.teamId := teamDic[team.teamId].(team := Some(team))];
      } else {
        AddTeam(team);
      }
    }

    /**
     * The effect of `onFriendInfoChanged`: with an account id and a fetched
     * profile list, the id maps to a fresh row for the first profile;
     * otherwise nothing changes. `fetched` is what the contact repository returns.
     */
    method OnFriendInfoChanged(accountId: Option<string>, fetched: seq<FriendUser>)
      modifies this`friendDic
      ensures accountId.Some? && fetched != [] ==>
        friendDic == old(friendDic)[accountId.value := SearchEntry(Some(fetched[0]), None)]
      ensures !(accountId.Some? && fetched != []) ==> friendDic == old(friendDic)
    {
      if accountId.Some? && fetched != [] {
        friendDic := friendDic[accountId.value := SearchEntry(Some(fetched[0]), None)];
      }
    }
  }
}
