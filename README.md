# Group-priority routing: a Dafny model

This project models, and proves properties of, the per-token **group-priority
routing** of an API gateway. A token can carry an ordered list of groups. Each
group is `{group, priority}`, and a lower priority is tried first. There are
four parts, one Dafny module each.

- **Channel selection** (`ChannelSelect`, `channel_select.dfy`). For one
  request, the selector asks the channel store for a channel of each listed
  group in order.
  - It expands the `"auto"` sentinel into the user's auto groups.
  - It records the winning group in the request context.
  - When the token opts into the "auto smart group" fallback, it then tries
    the user's other usable groups that have a ratio, cheapest first.
  - The request context is a class whose fields the selector writes:
    `selected_group`, `using_group`, `auto_smart_group_used`, `auto_group`,
    and a constant `user_group`.
  - The channel store, the auto-group settings, the user's auto groups and
    usable groups, and the ratio table are inputs, bundled in a `Config` value.
- **Token write path and read endpoints** (`TokenController`,
  `token_controller.dfy`). This covers:
  - group collection (trim, drop empty, keep first occurrence);
  - the authorization gate, which reports the first unusable group;
  - the 30-byte name limit;
  - the AddToken and UpdateToken branches (authorize-then-set, authorize the
    single group, clear);
  - the guards against enabling an expired or exhausted token;
  - status-only updates;
  - the `expires_at` / `total_granted` mapping of the two read endpoints;
  - the `Bearer` header split.

  The store lookup, key generation and the token model's own priority codec
  (`SetGroupPriorities`) are inputs. The codec returns the list text and
  the `Group` it syncs, and its promise that this group heads the list
  sorted by priority is a named property (`SyncsPrimaryGroup`). The
  handlers return the record they would write, or their error.
- **Front-end codec** (`TokenTypes`, `token_types.dfy`):
  - reading a token's stored list, with the fallback to its single group;
  - the one-line display;
  - the validator;
  - the serializer.

  `JSON.parse` is an input that returns the parsed array or nothing.
  `JSON.stringify` is represented by the list it is given.
- **Priority list editor** (`PrioritiesSelector`, `priorities_selector.dfy`):
  - normalization (optional stable sort, drop empty groups, keep the first
    copy of each group, renumber 1..n);
  - add (capped at ten), remove and drag;
  - the options still on offer;
  - the tag colour of a group.

  The editor's list state is a class whose methods replace it through
  `updateItems`.

Shared pieces:

- `Wrappers`: Option and Result.
- `Text`: Go `strings.TrimSpace`, JavaScript `trim`, the UTF-8 byte length
  Go's `len` measures, ASCII lower-casing, split/join and decimal text.
- `Lists`: first index satisfying a test, keep-first de-duplication, and a
  stable insertion sort with its stability proof.
- `TokenRecord`: the token record and the status constants.

## Model

| member | source | states |
|---|---|---|
| `Text.GoTrim` | controller/token.go:27 | the result is a slice of the input with only Go white space cut from each end and none left at either end, and it is empty exactly when the input is all white space |
| `Text.JsTrim` | web/src/types/token.ts:94 | the same for the JavaScript white-space set (which includes U+FEFF): a slice of the input with only white space cut from its two ends |
| `Text.Utf8Length` | controller/token.go:195 | Go's `len` of a string, the sum of its characters' UTF-8 widths: at least its character count and at most four times it |
| `Text.Utf8LengthAscii` | controller/token.go:195 | the byte length equals the character count exactly when every character is ASCII |
| `Text.Utf8Width` | controller/token.go:195 | the UTF-8 byte count of one scalar value: 1, 2, 3 or 4 exactly on the ranges below 0x80, 0x800, 0x10000 and above |
| `Text.Utf8LengthAppend` | controller/token.go:195 | the byte length of a concatenation is the sum of the byte lengths |
| `Text.SplitJoin` | controller/token.go:147 | joining the parts of `strings.Split` with the separator gives back the input |
| `Lists.KeepFirst` | controller/token.go:23-38 | the result's elements are non-empty, drawn from the input and pairwise distinct, and every non-empty input element is among them |
| `Lists.KeepFirstOrder` | controller/token.go:26-35 | the kept elements appear in the order of their first occurrence in the input |
| `Lists.SortBy` | web/src/types/token.ts:117 | the result is a permutation of the input, sorted ascending by the key |
| `Lists.SortByStable` | web/src/types/token.ts:117 | the sort is stable: the elements with any one key keep their relative order |
| `ChannelSelect.Context.constructor` | service/channel_select.go:48 | a fresh request context holds the user group and the using group, and has no selection recorded |
| `ChannelSelect.FirstNonEmpty` | service/channel_select.go:76-92 | the first non-empty name of the list, or "" exactly when all are empty |
| `ChannelSelect.AttemptOf` | service/channel_select.go:44-72 | a group other than "auto" gives the store's reply for it. "auto" with no auto groups gives the "auto groups is not enabled" error. Otherwise it gives the first of the user's auto groups whose reply has a channel, with that group and no error, or no channel and no error when none has one |
| `ChannelSelect.AutoHit` | service/channel_select.go:51-64 | the index of the first auto group whose store reply carries a channel; store errors are skipped |
| `ChannelSelect.AutoGroupAfter` | service/channel_select.go:59-60 | `auto_group` is written only by a successful "auto" attempt, and holds the concrete group that won |
| `ChannelSelect.FirstSuccess` | service/channel_select.go:98-112 | the index of the first list entry whose attempt has a channel and no error; every earlier entry failed |
| `ChannelSelect.GroupsOf` | service/channel_select.go:130-133 | exactly the groups named in the priority list |
| `ChannelSelect.CandidateGroups` | service/channel_select.go:141-153 | a group is a fallback candidate exactly when it is usable by the user, not in the list, and has a ratio |
| `ChannelSelect.SetGroupSelectionContext` | service/channel_select.go:23-34 | an empty group changes nothing; otherwise `selected_group` and `using_group` hold it and `auto_smart_group_used` holds the flag |
| `ChannelSelect.CacheGetRandomSatisfiedChannel` | service/channel_select.go:44-72 | the result is `AttemptOf`, `auto_group` is `AutoGroupAfter`, and no other context key changes |
| `ChannelSelect.SelectChannelFromSingleGroup` | service/channel_select.go:36-42 | one attempt on the group; on success the winning group is recorded with `auto_smart_group_used = false`, and otherwise the selection keys are unchanged |
| `ChannelSelect.SelectChannelWithPriority` | service/channel_select.go:75-122 | malformed list: one attempt on `using_group`, else the token group, and never the user group. Empty list: one attempt on the first non-empty of `using_group`, token group and user group. Otherwise: the first succeeding entry in list order is returned and recorded. When all entries fail, the result is `ErrAllGroupsFailed` with the context untouched, unless the token opts in, in which case it is the ratio fallback over the groups not in the list |
| `ChannelSelect.SelectFromPriorities` | service/channel_select.go:98-122 | with a non-empty list: the first succeeding entry's attempt is returned and recorded; when all fail, `ErrAllGroupsFailed` with the context untouched, or the ratio fallback when the token opts in |
| `ChannelSelect.TryPriorities` | service/channel_select.go:98-112 | the walk finds a channel exactly when some entry succeeds; the first such entry's attempt is returned and recorded; otherwise the context is unchanged |
| `ChannelSelect.FirstSuccessAt` | service/channel_select.go:98-112 | an index before which every attempt fails, and at which one succeeds, is `FirstSuccess` |
| `ChannelSelect.RatioCandidates` | service/channel_select.go:127-153 | the candidates are exactly the groups usable by the user, not in the list and with a ratio, each with its ratio |
| `ChannelSelect.CollectCandidates` | service/channel_select.go:139-153 | one candidate per usable group that is not excluded and has a ratio, carrying that ratio; no group twice |
| `ChannelSelect.CheapestFrom` | service/channel_select.go:159-161 | an index of a cheapest candidate in the unsorted tail |
| `ChannelSelect.SortByRatio` | service/channel_select.go:159-161 | the array is sorted by ratio, cheapest first, and is a permutation of what it held |
| `ChannelSelect.ExcludedGroups` | service/channel_select.go:130-133 | the exclude set is exactly the groups of the priority list |
| `ChannelSelect.TryInOrder` | service/channel_select.go:163-179 | the first candidate in array order that succeeds is returned and recorded with `auto_smart_group_used = true`; every earlier one failed; if none succeeds, the result is `ErrAllGroupsFailed` with the context untouched |
| `ChannelSelect.SelectChannelByRatio` | service/channel_select.go:125-180 | `ErrNoAvailableGroup` exactly when no candidate exists. `ErrAllGroupsFailed` exactly when candidates exist and all fail. On success the winner is a candidate, every strictly cheaper candidate failed, and the winner is recorded with `auto_smart_group_used = true` |
| `ChannelSelect.TryCheapestFirst` | service/channel_select.go:159-179 | trying a ratio-sorted copy fails only when every candidate fails; a winner is a candidate, and every strictly cheaper candidate failed |
| `ChannelSelect.CheaperBefore` | service/channel_select.go:159-163 | in the ratio-sorted order, a strictly cheaper candidate sits before the winner, so it was tried first |
| `TokenController.Message` | controller/token.go:58 | error texts are non-empty; the unauthorized-group and set-failure texts end with the group or the reason |
| `TokenController.RequestUserGroup` | controller/token.go:40-45 | the typed context key wins when it is non-empty, and otherwise the raw key is used |
| `TokenController.CollectGroupsFromPriorities` | controller/token.go:23-38 | the result is every non-empty trimmed group, each once, in first-occurrence order. Each element is trimmed, non-empty, and the trim of some input group |
| `TokenController.CollectedGroups` | controller/token.go:23-38 | the same properties, stated of the specification `KeepFirst(TrimmedGroups(...))` |
| `TokenController.FirstUnauthorized` | controller/token.go:53-60 | the index of the first non-empty group outside the usable set; every earlier group is empty or usable |
| `TokenController.EnsureUserGroupsAccessible` | controller/token.go:47-62 | succeeds exactly when every non-empty group is usable (so an empty list passes); otherwise fails naming the first unusable group in input order |
| `TokenController.FreshToken` | controller/token.go:211-226 | the record AddToken builds: the key, user, request time, the trimmed group, an empty priority list, zero id, status and used quota, and the name, expiry, quota, model-limit, IP and auto-smart-group fields copied from the request |
| `TokenController.AuthorizeThenSetPriorities` | controller/token.go:229-240 | the outcome is `ArrayResult`: authorization over the collected groups runs before `SetGroupPriorities`; a set failure is wrapped; on success the record holds the list text and the `Group` the codec returned |
| `TokenController.AddToken` | controller/token.go:188-265 | the outcome is `AddResult`: the name limit first, then the key, then the array branch or the single-group authorization |
| `TokenController.AuthorizeOwnGroup` | controller/token.go:245-253 | a non-empty group outside the usable set fails naming it; an empty or usable group passes with the record unchanged |
| `TokenController.AddBranches` | controller/token.go:195-253 | the name limit comes first, then the key. With an array, the add takes the array branch: on success it stores the list text and the `Group` the codec returned, and when the codec syncs `Group` that group is the primary group of the list and usable. With no array, the add succeeds exactly when the trimmed group is empty or usable, stores no list and keeps that group, and otherwise names it. A success differs from the fresh record only in the list and the group |
| `TokenController.FullUpdate` | controller/token.go:323-331 | a full update copies name, expiry, remaining and unlimited quota, the model-limit fields, allowed IPs and the smart-group flag from the request and trims the group; it never changes id, user, key, status, times, used quota or the stored list |
| `TokenController.UpdateToken` | controller/token.go:282-375 | the outcome is `UpdateResult` as written: with an array, the list text and `Group` come from `SetGroupPriorities`; with none, there is no authorization of the group when a non-empty `group_priorities` string is kept |
| `TokenController.CopyEditableFields` | controller/token.go:323-331 | the field-by-field copy yields `FullUpdate` |
| `TokenController.UpdatePriorities` | controller/token.go:334-362 | the priority branches of a full update: the array branch (list text and `Group` from the codec), clear-and-authorize, or keep |
| `TokenController.UpdateTokenChecked` | controller/token.go:350-362 | the corrected update: as written, including the codec-synced `Group` on the array path, except that a kept list also authorizes the group |
| `TokenController.CheckedUpdateFromAsWritten` | controller/token.go:350-362 | the corrected update differs from the one as written only by failing with `Unauthorized` on a non-empty unusable group when a list is kept |
| `TokenController.UpdateNameLimit` | controller/token.go:291-297 | the update fails with the name error exactly when the name is over 30 bytes, before the lookup |
| `TokenController.UpdateEnableGuards` | controller/token.go:303-318 | enabling fails exactly for an expired token whose expiry time has passed and is not "never", or an exhausted token with no quota left that is not unlimited; status-only updates included |
| `TokenController.UpdateStatusOnly` | controller/token.go:319-320 | a status-only update that passes the guards changes the status and nothing else |
| `TokenController.UpdateWithoutArray` | controller/token.go:350-362 | with no array: an empty `group_priorities` clears the list and authorizes a non-empty group; any other value keeps the stored list; the status never changes |
| `TokenController.UpdateWithArray` | controller/token.go:334-349 | with an array, the update takes the shared array branch on the fully updated record |
| `TokenController.ArrayBranch` | controller/token.go:229-240 | succeeds exactly when every collected group is usable and the codec accepts the list. An unusable group is reported before the codec runs. A codec failure is wrapped. A success changes only the stored list and `Group`, both to what the codec returned |
| `TokenController.CheckedUpdateWritesUsableGroups` | controller/token.go:334-362 | given that the codec syncs `Group` to the primary group, every group the corrected update writes is usable: the collected groups and the synced primary group on the array path, the single group without an array |
| `TokenController.ArrayResultKeepsRecord` | controller/token.go:229-240 | a successful array branch differs from the record it was given only in the list text and `Group`, which are what the codec returned |
| `TokenController.ArrayResultSyncsGroup` | controller/token.go:229-240 | when the codec syncs `Group`, a successful array branch stores the primary group of the list, which is one of the collected groups and usable |
| `TokenController.PrimaryGroupCollected` | controller/token.go:229-240 | the primary group of a list is among the groups the handler collects and authorizes |
| `TokenController.HeadUnique` | test/model/token_test.go:101-226 | only one entry heads the list stably sorted by priority |
| `TokenController.PrimaryGroupUnique` | test/model/token_test.go:101-226 | a list has at most one primary group, so the synced `Group` is determined by the list |
| `TokenController.SingleEntryArray` | controller/token.go:229-240 | a one-entry array of a trimmed, usable group succeeds exactly when the codec does, and stores that group |
| `TokenController.AddStoresPrimaryGroup` | controller/token.go:195-240 | adding with group "vip" and the array [{default, 1}] for a user limited to "default" succeeds exactly when the codec does, and stores group "default" |
| `TokenController.UpdateKeepsUnauthorizedGroup` | controller/token.go:350-362 | as written, a user limited to "default" can move a token to "vip" with a non-empty `group_priorities` string and no array |
| `TokenController.UpdateWritesUnusableGroup` | controller/token.go:350-362 | as written, any full update that passes the guards, has no array and a non-empty `group_priorities` string writes its trimmed group even when that group is unusable |
| `TokenController.ExpiresAt` | controller/token.go:124-127 | "never expires" (-1) is reported as 0, and any other expiry as itself |
| `TokenController.WrapInt64` | controller/token.go:133 | int64 arithmetic: the result lies in the int64 range, is congruent to the exact value, and equals it when that is in range |
| `TokenController.CreditSummaryOf` | controller/token.go:128-134 | total granted and total available are the remaining quota, and total used is 0 |
| `TokenController.TokenUsageOf` | controller/token.go:171-185 | total used is the used quota, total available is the remaining quota, and the name is the token name |
| `TokenController.EndpointsAgree` | controller/token.go:124-134 | without overflow, the credit summary's `expires_at` is the usage endpoint's times 1000 and `total_granted` is used plus available; "never" reads 0 in both |
| `TokenController.ParseBearer` | controller/token.go:138-157 | an empty header is "no Authorization header". Acceptance happens exactly when the header has one space and a case-insensitive `bearer` before it. The key is the part after the space, with a leading `sk-` removed |
| `TokenController.BearerAccepted` | controller/token.go:147-157 | any bearer scheme, a space and a credential without spaces yield the credential less its `sk-` prefix |
| `TokenController.BearerRoundTrip` | controller/token.go:147-157 | a key without spaces is read back from `Bearer sk-<key>` and from `Bearer <key>` |
| `TokenTypes.SortByPriority` | web/src/types/token.ts:117 | a stable permutation of the entries, sorted ascending by priority |
| `TokenTypes.ValidEntriesUsable` | web/src/types/token.ts:104-109 | every entry the filter keeps has a non-blank string group and a priority of at least 1 |
| `TokenTypes.ValidEntriesComplete` | web/src/types/token.ts:104-109 | every valid entry of the input (an object with a non-blank string group and a numeric priority of at least 1) is among the kept priorities |
| `TokenTypes.ValidEntriesSound` | web/src/types/token.ts:104-109 | every kept priority is the group and priority of some valid entry of the input |
| `TokenTypes.ValidEntriesAppend` | web/src/types/token.ts:104-109 | the filter of a concatenation is the concatenation of the filters, and (with `ValidEntriesSingle`) one entry is kept exactly when valid, so the result is the input's valid entries in input order |
| `TokenTypes.ValidEntriesEmptyIff` | web/src/types/token.ts:104-109 | the filter keeps nothing exactly when no entry qualifies |
| `TokenTypes.ValidEntriesOfRaw` | web/src/types/token.ts:104-109 | the filter keeps every entry of a list of valid priorities, in order |
| `TokenTypes.FallbackToGroupField` | web/src/types/token.ts:135-140 | a blank or absent group gives nothing; otherwise the trimmed, non-empty group at priority 1 |
| `TokenTypes.ParseGroupPriorities` | web/src/types/token.ts:91-128 | a blank or absent text, a failed parse, a non-array or no valid entry gives the fallback; otherwise a stable, priority-sorted permutation of the valid entries |
| `TokenTypes.ParsedEntriesValid` | web/src/types/token.ts:91-140 | every parsed priority names a non-blank group at priority at least 1 |
| `TokenTypes.SliceEnd` | web/src/types/token.ts:196 | `slice(0, maxGroups)` keeps `maxGroups` items when 0 <= maxGroups < n, all n when maxGroups is larger, and n + maxGroups (at least 0) when it is negative |
| `TokenTypes.DisplayParts` | web/src/types/token.ts:196-210 | the first `maxGroups` labels in order (`g` or `g(p)`), then "..." exactly when the list is longer than `maxGroups` |
| `Text.NatToDecimalValue` | web/src/types/token.ts:202 | the decimal digits of a priority in a `g(p)` label read back as the number, with no leading zero |
| `TokenTypes.FormatPriorities` | web/src/types/token.ts:191-212 | "-" for an empty list, and otherwise the parts joined with the separator |
| `TokenTypes.FormatGroupPrioritiesDisplay` | web/src/types/token.ts:171-218 | the display of the parsed list |
| `TokenTypes.DisplaySplitsBack` | web/src/types/token.ts:196-212 | with a one-character separator that no label contains, the display splits back into exactly its parts |
| `TokenTypes.JoinSplit` | web/src/types/token.ts:212 | joining parts that do not contain a character, with that character, and then splitting on it, gives the parts back |
| `TokenTypes.ValidationMessage` | web/src/types/token.ts:243-267 | the error texts; the duplicate text contains the duplicated group |
| `TokenTypes.EntryError` | web/src/types/token.ts:253-269 | one entry passes exactly when its group is a non-blank string, its priority is a number of at least 1, and its raw group has not been seen |
| `TokenTypes.ValidateGroupPriorities` | web/src/types/token.ts:239-273 | the loop returns the first error of the ordered scan (not an array, more than ten, then the first bad entry), or valid |
| `TokenTypes.CheckKeepsFirstError` | web/src/types/token.ts:251-270 | an error found in a prefix is the error of the whole scan: the scan stops at the first failure |
| `TokenTypes.CheckClean` | web/src/types/token.ts:251-270 | the scan finds nothing exactly when every entry is valid and no raw group repeats |
| `TokenTypes.ValidIff` | web/src/types/token.ts:239-273 | `{valid: true}` exactly for an array of at most ten valid entries whose raw groups are distinct |
| `TokenTypes.FirstErrorWins` | web/src/types/token.ts:251-270 | a reported error belongs to an entry whose predecessors all passed |
| `TokenTypes.PrioritiesOf` | web/src/types/token.ts:305 | a valid entry is read as its group and priority, position by position |
| `TokenTypes.SerializeGroupPriorities` | web/src/types/token.ts:292-312 | '' exactly for an absent or empty list. The validation error exactly for an invalid one. Otherwise a stable, priority-sorted permutation of the entries |
| `TokenTypes.SerializedEntriesValid` | web/src/types/token.ts:299-306 | a serialized list has as many entries as its input, each with a non-blank group and a priority of at least 1 |
| `TokenTypes.SerializeThenParse` | web/src/types/token.ts:91-128 | reading back a serialized list gives exactly the serialized list |
| `PrioritiesSelector.Groups` | web/src/components/common/GroupPrioritiesSelector.jsx:193-196 | the group names of the items, position by position |
| `PrioritiesSelector.Numbered` | web/src/components/common/GroupPrioritiesSelector.jsx:168-171 | groups numbered 1..n in position order |
| `PrioritiesSelector.Ordered` | web/src/components/common/GroupPrioritiesSelector.jsx:155-159 | with the sort, a permutation sorted by priority that keeps the input order among items of equal priority; without it, the input as it is |
| `PrioritiesSelector.Normalized` | web/src/components/common/GroupPrioritiesSelector.jsx:153-174 | a non-array gives []. The result has non-empty, pairwise distinct groups, numbered 1..n, is no longer than the input, and draws its groups from the input. Every non-empty input group appears |
| `PrioritiesSelector.NormalizePriorities` | web/src/components/common/GroupPrioritiesSelector.jsx:153-174 | the forEach with its `seen` set computes `Normalized` |
| `PrioritiesSelector.NormalFormFixed` | web/src/components/common/GroupPrioritiesSelector.jsx:153-174 | a list in normal form is left as it is by normalization, sorted or not |
| `PrioritiesSelector.NormalizeIdempotent` | web/src/components/common/GroupPrioritiesSelector.jsx:153-174 | normalizing twice is normalizing once |
| `PrioritiesSelector.UnsortedKeepsInputOrder` | web/src/components/common/GroupPrioritiesSelector.jsx:162-172 | without the sort, groups come out in the order of their first occurrence in the input |
| `PrioritiesSelector.SortedLowestPriorityFirst` | web/src/components/common/GroupPrioritiesSelector.jsx:157-167 | with the sort, groups come out in order of their lowest priority, and among equal priorities in input order, so the copy of a duplicated group that survives is the lowest-priority one, the earliest of those on a tie |
| `PrioritiesSelector.Without` | web/src/components/common/GroupPrioritiesSelector.jsx:240 | the filter by index drops exactly the item at an index in range, the others keeping their order, and nothing otherwise |
| `PrioritiesSelector.FindIndex` | web/src/components/common/GroupPrioritiesSelector.jsx:248-249 | the index of the first item of the group, or -1 exactly when the group is absent |
| `PrioritiesSelector.ArrayMove` | web/src/components/common/GroupPrioritiesSelector.jsx:252 | the moved element lands at the target index, and the result is a permutation |
| `PrioritiesSelector.ArrayMoveInverse` | web/src/components/common/GroupPrioritiesSelector.jsx:252 | moving back from the target to the source restores the list |
| `PrioritiesSelector.ArrayMoveDistinct` | web/src/components/common/GroupPrioritiesSelector.jsx:252 | a move keeps distinct elements distinct |
| `PrioritiesSelector.AddedItems` | web/src/components/common/GroupPrioritiesSelector.jsx:230-237 | adding an empty value, or adding to a list of ten or more items, changes nothing |
| `PrioritiesSelector.AddAppends` | web/src/components/common/GroupPrioritiesSelector.jsx:230-237 | adding a new group to a normalized list appends it at the next priority; adding a group already present changes nothing |
| `PrioritiesSelector.RemovedItems` | web/src/components/common/GroupPrioritiesSelector.jsx:239-242 | removal keeps the list in normal form |
| `PrioritiesSelector.RemoveDropsOne` | web/src/components/common/GroupPrioritiesSelector.jsx:239-242 | removal drops exactly the group at the index and keeps the others in order; an index out of range changes nothing |
| `PrioritiesSelector.DragMove` | web/src/components/common/GroupPrioritiesSelector.jsx:244-255 | a drag moves something exactly when it ends over another group and both groups are in the list; the indices are theirs |
| `PrioritiesSelector.DraggedItems` | web/src/components/common/GroupPrioritiesSelector.jsx:244-255 | a drag changes the list exactly when `DragMove` finds both indices |
| `PrioritiesSelector.DragMovesGroup` | web/src/components/common/GroupPrioritiesSelector.jsx:244-255 | a drag moves the dragged group to the target's index, keeps the same groups, and keeps the list in normal form |
| `PrioritiesSelector.AvailableOptions` | web/src/components/common/GroupPrioritiesSelector.jsx:193-201 | exactly the available values not already selected |
| `PrioritiesSelector.AvailableOptionsAppend` | web/src/components/common/GroupPrioritiesSelector.jsx:193-201 | the options of a concatenation are the options of each part, so (with `AvailableOptionsSingle`) they are the unselected values in the order of `available` |
| `PrioritiesSelector.CanAddMore` | web/src/components/common/GroupPrioritiesSelector.jsx:257-260 | true exactly when not disabled, with fewer than ten items and some value not yet selected |
| `PrioritiesSelector.OfferedGroupIsAppended` | web/src/components/common/GroupPrioritiesSelector.jsx:230-260 | when more can be added, adding an offered group appends it at the next priority |
| `PrioritiesSelector.GroupColor` | web/src/components/common/GroupPrioritiesSelector.jsx:51-68 | the colour of the first key, in declaration order, contained in the lower-cased value; grey exactly when no key is contained. Colours are a datatype whose names (`ColorName`) are the strings the source returns |
| `PrioritiesSelector.GetGroupColor` | web/src/components/common/GroupPrioritiesSelector.jsx:51-68 | the loop with early return computes `GroupColor` |
| `PrioritiesSelector.DefaultIsGreen` | web/src/components/common/GroupPrioritiesSelector.jsx:52-53 | any name containing "default" is green, since that key is tried first |
| `PrioritiesSelector.Editor.constructor` | web/src/components/common/GroupPrioritiesSelector.jsx:185 | the initial list is the value normalized with the sort |
| `PrioritiesSelector.Editor.UpdateItems` | web/src/components/common/GroupPrioritiesSelector.jsx:224-228 | stores the new list normalized without the sort, and hands the same list to onChange |
| `PrioritiesSelector.Editor.HandleAddGroup` | web/src/components/common/GroupPrioritiesSelector.jsx:230-237 | the list becomes `AddedItems`; onChange is called exactly when the value is non-empty and the list has fewer than ten items |
| `PrioritiesSelector.Editor.HandleRemove` | web/src/components/common/GroupPrioritiesSelector.jsx:239-242 | the list becomes `RemovedItems`, handed to onChange |
| `PrioritiesSelector.Editor.HandleDragEnd` | web/src/components/common/GroupPrioritiesSelector.jsx:244-255 | the list becomes `DraggedItems`, or stays as it was, with no onChange call, when the drag does nothing |

## Left out

- HTTP handling is not modelled: request binding, response envelopes and status codes. The handlers return the record they would write, or their error.
- Persistence is not modelled: the token lookup is an input (`Option<Token>`), and the insert and update are not modelled.
- Key generation is an input (`Option<string>`), because it is randomness.
- Logging, the `%.2f` formatting and i18n strings are not modelled.
- `SetGroupPriorities`/`GetGroupPriorities` of the token model (model/token.go) are not part of this model.
  - The write path takes `SetGroupPriorities` as a function from the list to what it writes (the list text and the synced `Group`) or an error.
  - The tests of the token model (test/model/token_test.go:101-226) show that a successful call sets `Group` to the trimmed group at the head of the list sorted by priority. `SyncsPrimaryGroup` states this as a property of the function. Lemmas that need it take it as a precondition.
  - The codec's own checks (blank groups, ranks below 1, duplicates, the list limit) are not modelled. They show up only as the codec's error.
  - The selector takes the parsed list as an input (`Parsed` or `Malformed`).
- `model_limits` of the usage endpoint (`GetModelLimitsMap`) is not modelled; it comes from the token model, which is not part of this model.
- `TokenController.Message`: the text of `LookupFailed` is a placeholder, because the real text comes from the store's error.
- Ratios are `float64` in the source. Here they are reals that are only compared.
- `ChannelSelect.SortByRatio`: the model does not promise an order among equal ratios, because `sort.Slice` is not stable and the candidates come from a Go map in random order.
- `ChannelSelect.SelectChannelByRatio`: the winner is not identified more closely than "a candidate, with every strictly cheaper candidate failed", for the same reason.
- Time (`common.GetTimestamp`) is a parameter `now`.
- Go's `strings.ToLower` is modelled as ASCII lower-casing. For the comparison with "bearer" this is the same, since no other character lower-cases to those letters.
- JavaScript's `toLowerCase` in `getGroupColor` is also modelled as ASCII lower-casing. A name with U+0130 right after "opena" would match "openai" in the browser but not in the model.
- A Go string field cannot tell an absent `group_priorities` from an empty one. In the model, as in the source, an omitted field therefore also clears the stored list.
- AddToken leaves `Status` at 0 in the record it builds. The store's column default (enabled) is not modelled.
- `TokenController.WrapInt64`: `total_granted` and `expires_at * 1000` wrap as int64 in the model, as they would in Go. `EndpointsAgree` is stated only for values that do not overflow.
- Front-end values that are not plain data are not modelled: `null` elements, non-string truthy groups (which make `trim` throw), and fractional or NaN priorities. Priorities are integers.
- The JSON text written by `JSON.stringify` and read by `JSON.parse` is not modelled, and neither are extra fields of the objects. `TokenTypes.SerializeThenParse` assumes the parse returns the entries that were written.
- The try/catch of `formatGroupPrioritiesDisplay` is not modelled: the parse it calls already catches, so nothing in the modelled path throws.
- `TokenTypes.SerializeGroupPriorities`: a truthy non-array argument is not modelled. The source reaches the validator's "not an array" error for it; the model's `None` is null or undefined, which gives ''.
- `PrioritiesSelector.NormalizePriorities`: the in-place `sort` of the cloned array is modelled by the stable sort function on the value, not by an array algorithm.
- dnd-kit's `arrayMove` is taken with its documented meaning: remove, then insert at the target index.
- React rendering, hooks, the `useEffect` sync of the external value, the sensors and the group-info map are not modelled.
- Concurrency between requests is not modelled; each call is one sequential run.

## Findings

| source | as written | input that shows it | evidently intended | confidence | as-written member | corrected member |
|---|---|---|---|---|---|---|
| controller/token.go:350-362 | A full update without a priority array re-authorizes the new `Group` only when `group_priorities == ""`. With any other `group_priorities` text, `Group = TrimSpace(req.Group)` is written unchecked. | A user whose usable groups are `{"default"}` sends an update with group `"vip"`, `group_priorities: "x"` and no array. The update succeeds and writes group `"vip"`. | Every group a write stores is usable by the user, as in AddToken and in the clearing branch. | medium, not executed (a check elsewhere in the request path could block it) | `TokenController.UpdateToken`, `TokenController.UpdateKeepsUnauthorizedGroup` | `TokenController.UpdateTokenChecked`, `TokenController.CheckedUpdateWritesUsableGroups` |
