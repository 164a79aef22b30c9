# NIM iOS UIKit: a verified model of the chat and conversation core

This project models, in Dafny, the logic at the core of the NetEase IM iOS
UIKit (Swift): the helper that turns SDK messages into message models
and builds merged-forward bundles (`ChatMessageHelper`), the text,
rich-text and custom message models, the read-receipt screen, the
conversation list with its pinned and normal sections, the conversation
search view model, the chat client's "more" panel and custom-cell
registry, the "fun" skin's chat screens (input-bar layout, message
layout, typing state), and the profile screen's e-mail validation and
table arithmetic.

## Layout

| file | module | Swift source |
|---|---|---|
| wrappers.dfy | `Wrappers` | the `Option` type |
| messages.dfy | `Messages` | the SDK message (`V2NIMMessage`) as a class whose text and server extension are mutable; JSON values; the layout environment |
| message_models.dfy | `MessageModels` | MessageTextModel, MessageRichTextModel, MessageCustomModel, and the @-mention highlighting |
| chat_message_helper.dfy | `ChatMessageHelper` | ChatMessageHelper.swift |
| sorting.dfy | `Sorting` | the sorts of the list and search screens, by an abstract rank |
| read_receipts.dfy | `ReadReceipts` | NEBaseReadViewController.swift |
| conversation_list.dfy | `ConversationList` | NEBaseConversationController.swift |
| conversation_search.dfy | `ConversationSearch` | ConversationSearchViewModel.swift |
| chat_client.dfy | `ChatClient` | NEChatUIKitClient.swift |
| fun_chat.dfy | `FunChat` | FunChatViewController.swift |
| fun_p2p_chat.dfy | `FunP2PChat` | FunP2PChatViewController.swift |
| person_info.dfy | `PersonInfo` | PersonInfoViewController.swift |

The objects that Swift updates in place are classes: the message
(`Messages.Message`), the message model (`MessageModels.MessageModel`),
the read view, the conversation-list controller, the search view model,
the chat client and the fun chat view. Their methods carry `modifies`
frames and state the whole new state. Pure helpers are functions. Each
loop of the source becomes a `while` loop, proved against a
specification function: `getUrls`, `buildBody`, the `removeAll(where:)`
of the pin moves, the dictionary scans of `doSearch`, the panel filter
of `getMoreActionData`, the registry merge and the mention highlighting.

## Model

| member | source | states |
|---|---|---|
| ChatMessageHelper.FitSides | NEChatUIKit/NEChatUIKit/Classes/Chat/Helper/ChatMessageHelper.swift:24-49 | one orientation of the image fit: the long side becomes the smaller of itself and its maximum, and the short side keeps the aspect ratio unless it would fall below `miniWH`, in which case it is exactly `miniWH` |
| ChatMessageHelper.GetSizeWithMaxSize | NEChatUIKit/NEChatUIKit/Classes/Chat/Helper/ChatMessageHelper.swift:24-49 | an image with a non-positive side is shown at the maximum size; a landscape image fits its width, a portrait or square one its height, with the aspect ratio kept or the other side raised to the minimum; an image already within the maximum and not below the minimum keeps its own size |
| ChatMessageHelper.Dispatch | NEChatUIKit/NEChatUIKit/Classes/Chat/Helper/ChatMessageHelper.swift:130-165 | notifications and tips share one branch; a custom message is a multi-forward or rich-text model by sub-type 101/102 and otherwise falls through to the unknown branch; exactly text and unknown messages become text models |
| ChatMessageHelper.ModelFromMessage | NEChatUIKit/NEChatUIKit/Classes/Chat/Helper/ChatMessageHelper.swift:130-165 | the model class follows the dispatch; an unknown message has its text replaced by the localised "msg_unknown" before the text model is built; the multi-forward model's content height is the configured cell height truncated to an integer |
| MessageModels.TruncateToInt | NEChatUIKit/NEChatUIKit/Classes/Chat/Helper/ChatMessageHelper.swift:150-152 | the `Int(...)` conversion truncates toward zero |
| ChatMessageHelper.NameLoads | NEChatUIKit/NEChatUIKit/Classes/Chat/Helper/ChatMessageHelper.swift:186-204 | at most one name load, issued exactly for a notification with target ids whose conversation target resolves, over the targets followed by the sender |
| ChatMessageHelper.CompletionsCount | NEChatUIKit/NEChatUIKit/Classes/Chat/Helper/ChatMessageHelper.swift:171-232 | a trace of name loads followed by `n` completions calls the completion exactly `n` times, for every `n` |
| ChatMessageHelper.ModelFromMessageAsync | NEChatUIKit/NEChatUIKit/Classes/Chat/Helper/ChatMessageHelper.swift:171-232 | the same dispatch as the synchronous factory; on every path without a name load the completion runs exactly once, last; on the name-load path it runs once per callback of the team cache, after the load |
| ChatMessageHelper.UrlsOfMembership | NEChatUIKit/NEChatUIKit/Classes/Chat/Helper/ChatMessageHelper.swift:237-252 | a url is in the gallery list exactly when some image model contributes it (its remote url, else an existing local path); there are never more urls than models |
| ChatMessageHelper.GetUrls | NEChatUIKit/NEChatUIKit/Classes/Chat/Helper/ChatMessageHelper.swift:237-252 | the loop returns the urls of the models in list order |
| ChatMessageHelper.TimeGapIsOverFiveMinutes | NEChatUIKit/NEChatUIKit/Classes/Chat/Helper/ChatMessageHelper.swift:269-275 | the test `dur / 60 > 5` holds exactly when the messages are more than 300 seconds apart |
| ChatMessageHelper.AddTimeMessage | NEChatUIKit/NEChatUIKit/Classes/Chat/Helper/ChatMessageHelper.swift:258-276 | a model without a message is untouched; a discussion or senior-team notification gets no time; any other model gets the formatted time exactly when it is more than five minutes after the previous one (or there is no previous one) |
| ChatMessageHelper.ContentOfMessage | NEChatUIKit/NEChatUIKit/Classes/Chat/Helper/ChatMessageHelper.swift:281-318 | the preview of each message type: the text itself, the localised token of each media type, a call preview by call type, the multi-forward and rich-text previews of custom messages, and "msg_unknown" otherwise |
| ChatMessageHelper.ContentIgnoresExtensions | NEChatUIKit/NEChatUIKit/Classes/Chat/Helper/ChatMessageHelper.swift:281-318 | rewriting the server extension never changes a preview |
| ChatMessageHelper.ClearedExtension | NEChatUIKit/NEChatUIKit/Classes/Chat/Helper/ChatMessageHelper.swift:322-330 | the cleared extension keeps every key except the @-mention and reply keys, each with its value; an unparsable extension stays unparsable |
| ChatMessageHelper.ClearedIdempotent | NEChatUIKit/NEChatUIKit/Classes/Chat/Helper/ChatMessageHelper.swift:322-330 | clearing twice equals clearing once |
| ChatMessageHelper.ClearedHasNoReplyNorMentions | NEChatUIKit/NEChatUIKit/Classes/Chat/Helper/ChatMessageHelper.swift:322-330 | after clearing, a message has no reply record and no @-mention to highlight |
| ChatMessageHelper.ClearForwardAtMark | NEChatUIKit/NEChatUIKit/Classes/Chat/Helper/ChatMessageHelper.swift:322-330 | the message's server extension becomes the cleared extension |
| ChatMessageHelper.BuildHeader | NEChatUIKit/NEChatUIKit/Classes/Chat/Helper/ChatMessageHelper.swift:336-345 | the header has exactly the version, terminal and message-count fields: version 0, terminal 2 (iOS) and the count given |
| ChatMessageHelper.ResolveSender | NEChatUIKit/NEChatUIKit/Classes/Chat/Helper/ChatMessageHelper.swift:363-365 | the team-member cache wins, then the friend cache, then the user cache; the sender is unknown exactly when all three miss |
| ChatMessageHelper.ForwardExtension | NEChatUIKit/NEChatUIKit/Classes/Chat/Helper/ChatMessageHelper.swift:359-375 | a message without a resolved sender is serialised with the cleared extension; otherwise the nick is written into the cleared extension (its key removed when the nick is nil) with the avatar, or the last two characters of the nick when there is no avatar, every other key kept and the @ and reply keys gone; an extension that does not parse is replaced by a fresh dictionary of exactly the nick and avatar, nil as null |
| ChatMessageHelper.WriteSender | NEChatUIKit/NEChatUIKit/Classes/Chat/Helper/ChatMessageHelper.swift:366-374 | the nick and avatar keys are written into a parsable extension and every other key kept; an unparsable one is replaced by a dictionary of the two |
| ChatMessageHelper.AbstractsBounded | NEChatUIKit/NEChatUIKit/Classes/Chat/Helper/ChatMessageHelper.swift:378-383 | at most three abstracts, no more than there are messages, each naming a resolved sender of one of the first three messages |
| ChatMessageHelper.AbstractsComplete | NEChatUIKit/NEChatUIKit/Classes/Chat/Helper/ChatMessageHelper.swift:378-383 | every one of the first three messages whose sender resolves has its abstract |
| ChatMessageHelper.BodyOfAppend | NEChatUIKit/NEChatUIKit/Classes/Chat/Helper/ChatMessageHelper.swift:385-387 | the body of two batches is the first batch's body followed by the second's |
| ChatMessageHelper.BodyWithoutSenders | NEChatUIKit/NEChatUIKit/Classes/Chat/Helper/ChatMessageHelper.swift:385-387 | messages without a sender contribute nothing to the body |
| ChatMessageHelper.ForwardOne | NEChatUIKit/NEChatUIKit/Classes/Chat/Helper/ChatMessageHelper.swift:357-392 | one iteration yields the message's body line and abstract, and puts its server extension back as it was |
| ChatMessageHelper.BuildBody | NEChatUIKit/NEChatUIKit/Classes/Chat/Helper/ChatMessageHelper.swift:351-395 | the body and abstracts are those of the messages as they were before the call, and every message ends with its text and server extension unchanged |
| ChatMessageHelper.IsRevokeMessage | NEChatUIKit/NEChatUIKit/Classes/Chat/Helper/ChatMessageHelper.swift:412-420 | a message counts as revoked exactly when its local extension holds the revoke flag as a value `as? Bool` reads as `true`: JSON `true` or the number 1 |
| ChatMessageHelper.GetRevokeMessageContent | NEChatUIKit/NEChatUIKit/Classes/Chat/Helper/ChatMessageHelper.swift:425-434 | the pre-revoke text is returned exactly when the local extension holds it as a string |
| ChatMessageHelper.GetReplyDictionary | NEChatUIKit/NEChatUIKit/Classes/Chat/Helper/ChatMessageHelper.swift:439-446 | the reply record is returned exactly when the server extension holds it as a dictionary |
| ChatMessageHelper.ShortName | NEChatUIKit/NEChatUIKit/Classes/Chat/Helper/ChatMessageHelper.swift:449-453 | a name longer than the length is cut to its last `length` characters; a shorter name is returned whole |
| ChatMessageHelper.CreateFilePath | NEChatUIKit/NEChatUIKit/Classes/Chat/Helper/ChatMessageHelper.swift:492-519 | a message with a file attachment gets the type's documents directory followed by its client id and extension when present; any other message gets the root "NEIMUIKit" directory |
| ChatMessageHelper.FilePathsSeparateClientIds | NEChatUIKit/NEChatUIKit/Classes/Chat/Helper/ChatMessageHelper.swift:492-519 | two attachments of one type and extension whose client ids have equal length but differ get different paths |
| MessageModels.MentionSpanGuarded | NEChatUIKit/NEChatUIKit/Classes/Chat/Model/MessageTextModel.swift:24-38 | a span is highlighted exactly when the source's guard lets its segment through and the span lies inside the text; every highlighted span comes from a mention segment of the extension whose end lies inside the text, shifted by the @-range offset |
| MessageModels.GuardAdmitsCrashingRange | NEChatUIKit/NEChatUIKit/Classes/Chat/Model/MessageTextModel.swift:30-31 | the guard as written lets through a segment whose range falls outside the text: start 3, end 0, text length 10, offset 1 give the range (3, -2) |
| MessageModels.MentionExample | NEChatUIKit/NEChatUIKit/Classes/Chat/Model/MessageTextModel.swift:24-38 | a concrete extension with one in-range and one out-of-range segment highlights exactly the in-range one |
| MessageModels.ApplyMentionHighlights | NEChatUIKit/NEChatUIKit/Classes/Chat/Model/MessageTextModel.swift:24-38 | the loop over the mention dictionary colours exactly the guarded spans that lie inside the text and keeps the characters and font |
| MessageModels.LayoutText | NEChatUIKit/NEChatUIKit/Classes/Chat/Model/MessageTextModel.swift:17-44 | the attributed string is the emotion rendering of the text with the mention highlights, measured at the maximum text width |
| MessageModels.MessageModel.InitText | NEChatUIKit/NEChatUIKit/Classes/Chat/Model/MessageTextModel.swift:15-45 | the text model's content size is the measured text plus margins, its text width is the measured width, and its height is the content plus margins plus the name height |
| MessageModels.MessageModel.InitRichText | NEChatUIKit/NEChatUIKit/Classes/Chat/Model/MessageRichTextModel.swift:15-39 | without a title the model is laid out as a text model, text width included; with one, the message text becomes the body, the title is set in semibold, the content is as wide as the wider of title and body and as high as both with their margins, and the server extension is left as it was |
| MessageModels.MessageModel.InitCustom | NEChatUIKit/NEChatUIKit/Classes/Chat/Model/MessageCustomModel.swift:11-14 | a custom model keeps the base layout |
| MessageModels.MessageModel.InitCustomHeight | NEChatUIKit/NEChatUIKit/Classes/Chat/Model/MessageCustomModel.swift:16-21 | a custom model of a given content height has that height as content, plus margins, name height and pin height as row height |
| Sorting.SortBy | NEConversationUIKit/NEConversationUIKit/Classes/Conversation/ViewModel/ConversationSearchViewModel.swift:80-82 | the result is sorted by rank and is a permutation of the input |
| Sorting.SortByMembers | NEConversationUIKit/NEConversationUIKit/Classes/Conversation/ViewModel/ConversationSearchViewModel.swift:80-82 | sorting keeps exactly the same members |
| ReadReceipts.MembersSpec | NEChatUIKit/NEChatUIKit/Classes/Chat/Controller/NEBaseReadViewController.swift:196-208 | a member is listed exactly when one of the ids resolves to it in the team cache; every id resolving gives one member per id |
| ReadReceipts.MembersAppend | NEChatUIKit/NEChatUIKit/Classes/Chat/Controller/NEBaseReadViewController.swift:196-208 | the members of the read and unread id lists are collected list by list |
| ReadReceipts.AppendMembers | NEChatUIKit/NEChatUIKit/Classes/Chat/Controller/NEBaseReadViewController.swift:196-208 | each member loop appends, in id order, the cached member of every id that has one |
| ReadReceipts.LoadedRuleAgreesWithTabRule | NEChatUIKit/NEChatUIKit/Classes/Chat/Controller/NEBaseReadViewController.swift:212-220 | after loading, the table is hidden exactly when the read tab is selected and has no members; on the unread tab an empty list still shows the table |
| ReadReceipts.ReadView.constructor | NEChatUIKit/NEChatUIKit/Classes/Chat/Controller/NEBaseReadViewController.swift:27-31 | the screen opens on the read tab with both lists empty |
| ReadReceipts.ReadView.NumberOfRows | NEChatUIKit/NEChatUIKit/Classes/Chat/Controller/NEBaseReadViewController.swift:224-230 | the row count is the selected tab's member count |
| ReadReceipts.ReadView.EmptyViewIffNoRows | NEChatUIKit/NEChatUIKit/Classes/Chat/Controller/NEBaseReadViewController.swift:136-172 | while the tab shows its selection, the empty view is visible exactly when the table has no rows |
| ReadReceipts.ReadView.ReadButtonEvent | NEChatUIKit/NEChatUIKit/Classes/Chat/Controller/NEBaseReadViewController.swift:136-153 | re-selecting the read tab changes nothing; switching to it shows the empty view exactly when it has no members; the lists are untouched |
| ReadReceipts.ReadView.UnreadButtonEvent | NEChatUIKit/NEChatUIKit/Classes/Chat/Controller/NEBaseReadViewController.swift:155-172 | the mirror image for the unread tab |
| ReadReceipts.ReadView.LoadData | NEChatUIKit/NEChatUIKit/Classes/Chat/Controller/NEBaseReadViewController.swift:174-222 | no detail: nothing changes; an error: the network toast for a failed send, the error's description otherwise, and the lists are untouched; a detail: the titles show both counts and the members of the read and unread ids are appended |
| ConversationList.WithoutSpec | NEConversationUIKit/NEConversationUIKit/Classes/Conversation/Controller/NEBaseConversationController.swift:693-699 | `removeAll` removes every entry of the conversation and only those, and the list shrinks by their number |
| ConversationList.WithoutMembers | NEConversationUIKit/NEConversationUIKit/Classes/Conversation/Controller/NEBaseConversationController.swift:693-699 | an entry survives the removal exactly when it belongs to another conversation |
| ConversationList.LastWithSpec | NEConversationUIKit/NEConversationUIKit/Classes/Conversation/Controller/NEBaseConversationController.swift:693-699 | the remembered entry exists exactly when the conversation had an entry, and it is one of them |
| ConversationList.RemoveAllWithId | NEConversationUIKit/NEConversationUIKit/Classes/Conversation/Controller/NEBaseConversationController.swift:693-699 | the closure loop leaves the other entries in order and remembers the last entry removed |
| ConversationList.MovePreservesUniqueness | NEConversationUIKit/NEConversationUIKit/Classes/Conversation/Controller/NEBaseConversationController.swift:691-719 | a pin move keeps conversation ids unique across both lists and keeps the total number of entries |
| ConversationList.ConversationListController.constructor | NEConversationUIKit/NEConversationUIKit/Classes/Conversation/Controller/NEBaseConversationController.swift:181-184 | both lists start empty |
| ConversationList.ConversationListController.NumberOfSections | NEConversationUIKit/NEConversationUIKit/Classes/Conversation/Controller/NEBaseConversationController.swift:536-538 | always two sections |
| ConversationList.ConversationListController.NumberOfRows | NEConversationUIKit/NEConversationUIKit/Classes/Conversation/Controller/NEBaseConversationController.swift:540-551 | section 0 has the pinned entries, section 1 the normal ones, any other section none |
| ConversationList.ConversationListController.ModelAt | NEConversationUIKit/NEConversationUIKit/Classes/Conversation/Controller/NEBaseConversationController.swift:553-589 | a row of section 0 or 1 is an entry of the lists |
| ConversationList.ConversationListController.EveryEntryHasARow | NEConversationUIKit/NEConversationUIKit/Classes/Conversation/Controller/NEBaseConversationController.swift:536-571 | every entry of either list is shown by some row |
| ConversationList.ConversationListController.MoveNormalToTop | NEConversationUIKit/NEConversationUIKit/Classes/Conversation/Controller/NEBaseConversationController.swift:691-703 | the conversation leaves the normal list and its last entry is appended to the pinned list |
| ConversationList.ConversationListController.MoveTopToNormal | NEConversationUIKit/NEConversationUIKit/Classes/Conversation/Controller/NEBaseConversationController.swift:707-719 | the conversation leaves the pinned list and its last entry is appended to the normal list |
| ConversationList.ConversationListController.ReloadTableView | NEConversationUIKit/NEConversationUIKit/Classes/Conversation/Controller/NEBaseConversationController.swift:831-840 | the empty view is hidden exactly when a list is non-empty; both lists become sorted permutations of themselves |
| ConversationList.ConversationListController.OnTopRecent | NEConversationUIKit/NEConversationUIKit/Classes/Conversation/Controller/NEBaseConversationController.swift:726-767 | a section-0 row is unpinned and any other pinned; on error the lists stay and the error is passed on; on success the entry moves and the table reloads |
| ConversationList.ConversationListController.RequestData | NEConversationUIKit/NEConversationUIKit/Classes/Conversation/Controller/NEBaseConversationController.swift:353-380 | an error shows its toast and the empty view; an empty page shows the empty view; otherwise the sorted lists and the data-loaded callback |
| ConversationList.ConversationListController.PopListItems | NEConversationUIKit/NEConversationUIKit/Classes/Conversation/Controller/NEBaseConversationController.swift:409-441 | add friend, create discussion group, create senior group, in that order |
| ConversationSearch.ContainsSpec | NEConversationUIKit/NEConversationUIKit/Classes/Conversation/ViewModel/ConversationSearchViewModel.swift:60-79 | `contains` holds exactly when the search text occurs as a contiguous run of characters at some position |
| ConversationSearch.RowsOfEnumeration | NEConversationUIKit/NEConversationUIKit/Classes/Conversation/ViewModel/ConversationSearchViewModel.swift:60-79 | an enumeration yields one row per key, each satisfying the filter and taken from the dictionary |
| ConversationSearch.Collect | NEConversationUIKit/NEConversationUIKit/Classes/Conversation/ViewModel/ConversationSearchViewModel.swift:60-68 | the scan of a dictionary yields the entries that satisfy the filter, each key exactly once |
| ConversationSearch.SplitTeams | NEConversationUIKit/NEConversationUIKit/Classes/Conversation/ViewModel/ConversationSearchViewModel.swift:69-79 | the team scan puts each matching discussion team into one list and each matching senior team into the other |
| ConversationSearch.TeamInExactlyOneList | NEConversationUIKit/NEConversationUIKit/Classes/Conversation/ViewModel/ConversationSearchViewModel.swift:69-79 | a matching team satisfies exactly one of the discussion and senior filters |
| ConversationSearch.TeamListsDisjoint | NEConversationUIKit/NEConversationUIKit/Classes/Conversation/ViewModel/ConversationSearchViewModel.swift:69-79 | no team key is listed as both discussion and senior |
| ConversationSearch.Search | NEConversationUIKit/NEConversationUIKit/Classes/Conversation/ViewModel/ConversationSearchViewModel.swift:46-84 | each result list holds the matching entries of its dictionary, each once, and is sorted by rank |
| ConversationSearch.SearchViewModel.constructor | NEConversationUIKit/NEConversationUIKit/Classes/Conversation/ViewModel/ConversationSearchViewModel.swift:26-36 | both dictionaries and all result lists start empty |
| ConversationSearch.SearchViewModel.DoSearch | NEConversationUIKit/NEConversationUIKit/Classes/Conversation/ViewModel/ConversationSearchViewModel.swift:46-84 | nil search text empties the results; otherwise the results are those of `Search`; the completion is called once either way |
| ConversationSearch.SearchViewModel.AddTeam | NEConversationUIKit/NEConversationUIKit/Classes/Conversation/ViewModel/ConversationSearchViewModel.swift:186-190 | the team is entered under its id |
| ConversationSearch.SearchViewModel.RemoveTeam | NEConversationUIKit/NEConversationUIKit/Classes/Conversation/ViewModel/ConversationSearchViewModel.swift:180-182 | the team's id is removed |
| ConversationSearch.SearchViewModel.OnTeamJoined | NEConversationUIKit/NEConversationUIKit/Classes/Conversation/ViewModel/ConversationSearchViewModel.swift:154-156 | a joined team is added |
| ConversationSearch.SearchViewModel.OnTeamCreated | NEConversationUIKit/NEConversationUIKit/Classes/Conversation/ViewModel/ConversationSearchViewModel.swift:160-162 | a created team is added |
| ConversationSearch.SearchViewModel.OnTeamDismissed | NEConversationUIKit/NEConversationUIKit/Classes/Conversation/ViewModel/ConversationSearchViewModel.swift:166-168 | a dismissed team is removed |
| ConversationSearch.SearchViewModel.OnTeamLeft | NEConversationUIKit/NEConversationUIKit/Classes/Conversation/ViewModel/ConversationSearchViewModel.swift:174-176 | a team left or kicked from is removed |
| ConversationSearch.SearchViewModel.OnTeamInfoUpdated | NEConversationUIKit/NEConversationUIKit/Classes/Conversation/ViewModel/ConversationSearchViewModel.swift:143-149 | a known team's entry gets the new team info and keeps its other fields; an unknown team is added; no other key changes |
| ConversationSearch.SearchViewModel.OnFriendInfoChanged | NEConversationUIKit/NEConversationUIKit/Classes/Conversation/ViewModel/ConversationSearchViewModel.swift:127-137 | with an account id and a fetched user, the friend's entry becomes that user; otherwise the friends are untouched |
| ChatClient.ChatUIKitClient.constructor | NEChatUIKit/NEChatUIKit/Classes/Common/NEChatUIKitClient.swift:16-48 | the panel holds photo, take-picture, location and file, then the call item exactly when the call service is registered; the registry starts empty |
| ChatClient.OfferedMembers | NEChatUIKit/NEChatUIKit/Classes/Common/NEChatUIKitClient.swift:52-67 | an item is offered exactly when it is on the panel and is not a call item outside a one-to-one session; never more items than the panel |
| ChatClient.OfferedToP2P | NEChatUIKit/NEChatUIKit/Classes/Common/NEChatUIKitClient.swift:52-67 | a one-to-one session is offered the whole panel, in order |
| ChatClient.OfferedNoCallOutsideP2P | NEChatUIKit/NEChatUIKit/Classes/Common/NEChatUIKitClient.swift:52-67 | any other session is offered no call item |
| ChatClient.OfferedAppend | NEChatUIKit/NEChatUIKit/Classes/Common/NEChatUIKitClient.swift:52-67 | the filter keeps panel order |
| ChatClient.ChatUIKitClient.GetMoreActionData | NEChatUIKit/NEChatUIKit/Classes/Common/NEChatUIKitClient.swift:52-67 | the offered items, handed to the menu hook when one is set; the panel itself is unchanged |
| ChatClient.AccumulatedSpec | NEChatUIKit/NEChatUIKit/Classes/Common/NEChatUIKitClient.swift:70-74 | after a series of registrations a key maps to the class of the last registration naming it, or keeps its earlier class |
| ChatClient.AccumulatedSnoc | NEChatUIKit/NEChatUIKit/Classes/Common/NEChatUIKitClient.swift:70-74 | one more registration merges its dictionary over the registry the earlier ones left |
| ChatClient.ChatUIKitClient.RegisterCustomCell | NEChatUIKit/NEChatUIKit/Classes/Common/NEChatUIKitClient.swift:70-74 | the registry becomes the old registry overridden by the new entries, and stays the accumulation of every registration so far |
| ChatClient.ChatUIKitClient.GetRegisterCustomCell | NEChatUIKit/NEChatUIKit/Classes/Common/NEChatUIKitClient.swift:76-78 | the registry as the registrations so far, applied in order, leave it |
| FunChat.FunChatView.constructor | NEChatUIKit/NEChatUIKit/Classes/FunUI/Controller/FunChatViewController.swift:14-21 | the single-line input height of 90, at offset 0, with no keyboard and no reply |
| FunChat.FunChatView.RecordModeChangeDidClick | NEChatUIKit/NEChatUIKit/Classes/FunUI/Controller/FunChatViewController.swift:65-77 | the bar returns to offset 0 and a multi-line bar shrinks to one line |
| FunChat.FunChatView.DidHideRecordMode | NEChatUIKit/NEChatUIKit/Classes/FunUI/Controller/FunChatViewController.swift:79-87 | a multi-line bar regains its 130-point height |
| FunChat.FunChatView.DidHideReplyMode | NEChatUIKit/NEChatUIKit/Classes/FunUI/Controller/FunChatViewController.swift:89-98 | the reply offset goes, keeping the keyboard offset when the keyboard is up |
| FunChat.FunChatView.DidShowReplyMode | NEChatUIKit/NEChatUIKit/Classes/FunUI/Controller/FunChatViewController.swift:100-103 | the screen enters reply mode |
| FunChat.FunChatView.ShowReplyMessageView | NEChatUIKit/NEChatUIKit/Classes/FunUI/Controller/FunChatViewController.swift:295-333 | the screen is replying; with the fun input view, a replied message and the keyboard already up, the bar moves to the replying keyboard offset (-10) and is laid out above the keyboard; otherwise the offset and layouts are unchanged |
| FunChat.FunChatView.CloseReply | NEChatUIKit/NEChatUIKit/Classes/FunUI/Controller/FunChatViewController.swift:289-293 | the screen is no longer replying; nothing else in the layout state changes |
| FunChat.FunChatView.KeyBoardWillShow | NEChatUIKit/NEChatUIKit/Classes/FunUI/Controller/FunChatViewController.swift:159-172 | while editing text the bar takes the keyboard offset (30, or -10 when replying); the keyboard height is recorded |
| FunChat.FunChatView.KeyBoardWillHide | NEChatUIKit/NEChatUIKit/Classes/FunUI/Controller/FunChatViewController.swift:174-185 | while editing text the bar returns to its resting offset (0, or -30 when replying); the keyboard height becomes 0 |
| FunChat.FunChatView.ExpandButtonDidClick | NEChatUIKit/NEChatUIKit/Classes/FunUI/Controller/FunChatViewController.swift:433-439 | the bar expands to 295 points and the bottom view is anchored 295 points up; the mode is whatever the unseen style change leaves |
| FunChat.FunChatView.DidHideMultipleButtonClick | NEChatUIKit/NEChatUIKit/Classes/FunUI/Controller/FunChatViewController.swift:441-445 | after the base handler sets the mode, the bar takes that mode's height and its resting offset, and is laid out at the bottom with animation |
| FunChat.FunChatView.TitleTextDidClearEmpty | NEChatUIKit/NEChatUIKit/Classes/FunUI/Controller/FunChatViewController.swift:447-455 | in multi-line mode the bar returns to the single-line mode, height and resting offset; in any other mode nothing changes |
| FunChat.FunChatView.SetInputValue | NEChatUIKit/NEChatUIKit/Classes/FunUI/Controller/FunChatViewController.swift:457-469 | the height of the mode (90 or 130) and the resting offset |
| FunChat.FunChatView.DidHideMultiple | NEChatUIKit/NEChatUIKit/Classes/FunUI/Controller/FunChatViewController.swift:472-478 | the bar returns to one line, at the keyboard offset when the keyboard is up |
| FunChat.HeightForRow | NEChatUIKit/NEChatUIKit/Classes/FunUI/Controller/FunChatViewController.swift:339-352 | a revoked message's row is 28 points plus the time cell when it shows a time; any other row is the model's `cellHeight()` |
| FunChat.RevokeRowIgnoresCellHeight | NEChatUIKit/NEChatUIKit/Classes/FunUI/Controller/FunChatViewController.swift:339-352 | a revoked message's row height does not depend on the model's own cell height |
| FunChat.AdjustedLayout | NEChatUIKit/NEChatUIKit/Classes/FunUI/Controller/FunChatViewController.swift:354-375 | tips and notifications keep their layout; a call record loses 2 points and gets offset -2; other content keeps its width, content shorter than 42 points becomes exactly 42 high and is offset by the height it gained, taller content keeps its size and offset, and a reply adds the reply bar and margin to the offset |
| FunChat.AdjustedLayoutIdempotent | NEChatUIKit/NEChatUIKit/Classes/FunUI/Controller/FunChatViewController.swift:354-375 | adjusting twice equals adjusting once for content other than replies and call records |
| FunChat.GetMessageModel | NEChatUIKit/NEChatUIKit/Classes/FunUI/Controller/FunChatViewController.swift:354-375 | the model's content size and offset become the adjusted layout of their old values |
| FunChat.WithoutLocation | NEChatUIKit/NEChatUIKit/Classes/FunUI/Controller/FunChatViewController.swift:105-123 | the location items are dropped and nothing else; a single item is kept exactly when it is not a location item |
| FunChat.WithoutLocationAppend | NEChatUIKit/NEChatUIKit/Classes/FunUI/Controller/FunChatViewController.swift:105-123 | the filter works item by item, keeping order and multiplicity: two lists are filtered list by list |
| FunChat.ExpandMoreAction | NEChatUIKit/NEChatUIKit/Classes/FunUI/Controller/FunChatViewController.swift:105-123 | the fun photo item comes first, then the client's offered items, passed through the menu hook when one is set, and then without the location items when no delegate handles them |
| FunP2PChat.CheckAndSendTypingState | NEChatUIKit/NEChatUIKit/Classes/FunUI/Controller/FunP2PChatViewController.swift:61-94 | nothing for a screen that is not one-to-one; the end state when editing ended; otherwise typing exactly when the input holds text (in the multi-line bar, a title or a text) |
| FunP2PChat.ExactlyOneSignal | NEChatUIKit/NEChatUIKit/Classes/FunUI/Controller/FunP2PChatViewController.swift:61-94 | a one-to-one screen always sends a state: typing exactly when editing goes on and the input is not empty |
| PersonInfo.IsValidEmailMatchesPattern | app/Mine/Controller/PersonInfoViewController.swift:286-289 | the scan accepts exactly the strings that match `\w+@\w+\.[a-zA-Z]{2,}` in full |
| PersonInfo.OnlyOneAtAndDot | app/Mine/Controller/PersonInfoViewController.swift:286-289 | in a matching address every character but the at sign and the dot is a word character |
| PersonInfo.TwoDotsRejected | app/Mine/Controller/PersonInfoViewController.swift:286-289 | an address with two dots is rejected |
| PersonInfo.DotBeforeAtRejected | app/Mine/Controller/PersonInfoViewController.swift:286-289 | a dot in the local part is rejected |
| PersonInfo.EmailExamples | app/Mine/Controller/PersonInfoViewController.swift:286-289 | "abc@def.com" is accepted; "a.b@c.com" and "a@b.c.com" are not |
| PersonInfo.EmailEditEffects | app/Mine/Controller/PersonInfoViewController.swift:291-312 | an invalid address only shows the failure toast; a valid one is sent, and the editor is left exactly when the update succeeds |
| PersonInfo.GenderForChoice | app/Mine/Controller/PersonInfoViewController.swift:232-237 | the first choice is male, every other female |
| PersonInfo.GenderUpdateToast | app/Mine/Controller/PersonInfoViewController.swift:239-246 | no toast on success, the network toast for a failed send, the gender failure toast otherwise |
| PersonInfo.NumberOfRows | app/Mine/Controller/PersonInfoViewController.swift:338-344 | a section's cell count, 0 past the last section |
| PersonInfo.HeaderHeight | app/Mine/Controller/PersonInfoViewController.swift:374-385 | the header is 12 points exactly for a non-empty section after the first, else 0 |

## Left out

- Views, constraints, animations, alerts, navigation through the router, the record-audio gestures, the reply label's text in `showReplyMessageView` and `closeReply`, the @-mention `showReplyMessageView` adds in a team, the re-edit fetch of the replied message, and `showRtcCallAction`: presentation, or calls into code that is not part of this model. The fun chat view keeps the input height, offset, keyboard height and the requested layout changes as state.
- `getSearchData` (the concurrent load of friends and teams) and `getFileChecksum` (MD5 over file I/O) are not modelled: concurrency and file I/O.
- `getSessionName`, `getChatCellRegisterDic` and `getPinCellRegisterDic` are not part of this model: cache lookups and class tables with no logic to prove.
- The initialisers of the video, image, audio, tips, file, location and call-record models, and the base `MessageModel` initialiser, are not part of this model. `ModelFromMessage` takes what they leave as a parameter `base`.
- JSON parsing and serialisation, message serialisation, text measurement, emotion rendering, localisation, date formatting and the documents-directory lookup are parameters (functions in `Env` or passed in). Extension dictionaries are modelled as parsed values, where `None` means missing or not a JSON dictionary.
- The extension key strings come from NEChatKit, which is not part of this model. They are distinct constants here.
- PersonInfo.IsValidEmailMatchesPattern: `\w` is taken as ASCII letters, digits and underscore. ICU's `\w` also admits other Unicode letters and digits.
- Swift dictionary iteration order is unspecified. The scans of dictionaries choose their keys nondeterministically, so the result lists are specified up to that order, before sorting.
- The list and search comparators are not part of this model. Sorting is by an abstract integer rank through one fixed stable sort, `Sorting.SortBy`. Swift does not document `sort(by:)` as stable, so where ranks tie, the order the `ReloadTableView`, `OnTopRecent` and `RequestData` contracts state may differ from the order Swift produces.
- ConversationSearch.SearchViewModel.OnTeamInfoUpdated: Swift updates the shared model object in place, so results already handed out see the change. Entries here are values, so that aliasing is not captured.
- ConversationList.ConversationListController.RequestData: the page fetch of the view model is its argument `PageResult`. The footer refresh control is not modelled.
- The super-class implementations called by the fun chat screen are not part of this model:
  - `keyBoardWillShow` and `keyBoardWillHide` are taken to leave the input mode unchanged.
  - The mode that `expandButtonDidClick` (with `changeToMultipleLineStyle`) and `didHideMultipleButtonClick` leave is a parameter of those handlers, so it is unconstrained.
  - The base class's initial offset, keyboard height and mode are taken as 0, 0 and the single-line mode.
- FunChat.HeightForRow: `cellHeight()` of the message models is not part of this model. It is a parameter, so the model says nothing about how a non-revoke row makes room for its time header.
- Screen sizes, offsets and durations (`CGFloat`, `TimeInterval`) are exact `real` numbers. Floating-point rounding is not modelled, for example in the image fit's `w * maxH / h` against the minimum side, the five-minute gap `dur / 60 > 5` and the 42-point clamp.
- The keyboard notifications set off by `endEditing` and `becomeFirstResponder` are not modelled. Each handler is a separate method.
- The `chatInputMenu` hook mutates its array in place in Swift. Here it is a function from the offered items to the shown items.
- `textWidght` of the text model is taken as the measured text width.
- ChatMessageHelper.ShortName: requires a non-negative length. Swift would trap on a negative one, and the only caller passes the default of 2.
- On the unread tab, `loadData` shows the table even for an empty list (`LoadedRuleAgreesWithTabRule`).
- A merged-forward bundle can have fewer than min(3, n) abstracts: a message whose sender does not resolve gets none.
- ReadReceipts.ReadView.LoadData: assumes the team cache calls back exactly once after `loadShowName`. The appends run in that callback and the visibility update waits for it. With no callback, no members are added and the visibility never changes. With a second callback, the appends repeat and the unmatched `group.leave()` is a fatal error.
- FunChat.FunChatView.ShowReplyMessageView and FunChat.FunChatView.CloseReply: the input view's `showReplyMode` and `hideReplyMode`, and whatever delegate events they raise, are not part of this model. Whether the fun input view exists, whether a message is being replied to, and whether the text view has the keyboard are parameters.
- ChatMessageHelper.ModelFromMessageAsync: how many times the team cache calls back after `loadShowName` is the parameter `loadCallbacks`; the completion runs exactly once on that path only when the cache calls back exactly once.
- ChatMessageHelper.ShortName: counts Unicode scalars, where Swift's `suffix` on a `String` counts grapheme clusters, so names holding combining marks or emoji sequences are cut differently.
- ConversationSearch.ContainsSpec: compares characters one by one. Swift's `contains` on strings compares under canonical equivalence, and which overload answers for an empty search text depends on the Foundation version; the model answers `true`.
- MessageModels.ApplyMentionHighlights: skips a segment whose range falls outside the text where UIKit raises `NSRangeException` (see Findings), and compares against the length in characters where `NSAttributedString` counts UTF-16 code units.
- MessageModels.IntField: decodes only JSON integers; YYModel also converts numeric strings and truncates fractional numbers, which read as 0 here.

## Findings

| source | as written | input that shows it | evidently intended | confidence | as-written member | corrected member |
|---|---|---|---|---|---|---|
| NEChatUIKit/NEChatUIKit/Classes/Chat/Model/MessageTextModel.swift:30-31 | a mention segment is coloured when the text is longer than the segment's end, with the range `(start, end - start + offset)` | a segment with start 3 and end 0 in a 10-character text, offset 1: the guard passes and the range is (3, -2), which `addAttribute` rejects with `NSRangeException` | colour only ranges that lie inside the text | not executed | MessageModels.GuardAdmitsCrashingRange | MessageModels.MentionSpanGuarded |
