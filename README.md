# StackIt and SkillForge front-end logic, in Dafny

This project models the deterministic logic of the two React front-ends in the repository:
**StackIt** (`frontend/`), a question-and-answer site with voting, notifications and an
admin area, and **SkillForge** (`odooStackIt/`), a skill-exchange site with a Q&A section, a
member directory, a skill map and a streak calendar. Neither has a server of its own: StackIt
answers its requests from an in-memory mock, which is modelled too.

Each source file is one Dafny module, in the form the source takes:

- pure code (validators and formatters, the mock router, the list filters and sorts, the
  streak calendar's buckets) becomes datatypes, functions and lemmas;
- components and hooks whose state changes (the notification store, pagination, the tag
  selector, the search box, the vote buttons, the preference editor, the admin tables, the
  dialogs of the admin panels, the register and ask-question forms, the mock user table)
  become classes whose fields are that state, with methods whose postconditions give the
  whole new state in terms of the pure functions;
- an `await` splits a handler into a `Begin...` method (up to the call) and a `Finish...`
  method (after it, given the call's outcome);
- a callback prop (`onBanUser`, `onVote`, `onSendMessage`, ...) is the method's returned
  `Option` of the call it makes;
- clock readings, generated ids, the browser's answers and the server's messages are
  parameters.

Two shared modules hold the JavaScript semantics the components rely on: `Text` (ASCII
`toLowerCase`, JavaScript white space and `trim`, `includes`, `parseInt`, number printing,
with their round trips) and `Seqs` (`filter` with its order and membership facts, `slice`
with negative indices, a stable sort by a decreasing integer key proved sorted, a
permutation and stable, and first-occurrence de-duplication). `Wrappers` holds `Option`.

## Model

| member | source | states |
|---|---|---|
| Helpers.ValidateEmail | frontend/src/utils/helpers.ts:1-4 | true exactly when the address splits as local `@` host `.` tld, every part non-empty with no white space and no `@` |
| Helpers.EmailIff | frontend/src/utils/helpers.ts:1-4 | the direct test (no white space, one `@` not first, a `.` strictly inside the domain) agrees with the regular expression's split in both directions |
| Helpers.ValidatePassword | frontend/src/utils/helpers.ts:6-14 | valid exactly for six or more characters with an ASCII letter; the too-short message exactly below six, the no-letter message exactly otherwise |
| Helpers.ValidateUsername | frontend/src/utils/helpers.ts:16-27 | valid exactly for 3..20 characters from letters, digits, `_` and white space; each message exactly on its own condition, length checks first (20 is accepted) |
| Helpers.ValidateQuestionTitle | frontend/src/utils/helpers.ts:29-40 | required exactly for a blank title; too short or too long exactly for a non-blank title whose untrimmed length is below 10 or above 200; valid otherwise |
| Helpers.ValidateQuestionDescription | frontend/src/utils/helpers.ts:42-51 | required exactly for blank text, too short exactly for non-blank text under 20 characters, valid otherwise |
| Helpers.ValidTitleHasText | frontend/src/utils/helpers.ts:30-32 | a valid title is not empty after trimming |
| Helpers.Prefix | frontend/src/utils/helpers.ts:60 | `substring(0, n)` has the clamped length and is a prefix of the text |
| Helpers.TruncateText | frontend/src/utils/helpers.ts:59-61 | the text is kept when it fits, otherwise its first `maxLength` characters followed by `...` |
| Helpers.TruncateBounds | frontend/src/utils/helpers.ts:59-61 | the result is the text itself or exactly `maxLength + 3` long, the text's prefix then the dots; never longer than the limit plus three |
| Helpers.TruncateIdempotent | frontend/src/utils/helpers.ts:59-61 | truncating a truncated text with room for the dots changes nothing |
| Helpers.AgeOfHours | frontend/src/utils/helpers.ts:63-75 | exactly one bucket per hour difference: just now below 1, hours below 24, days below 7 days, weeks below 30 days, months below 365 days, years beyond |
| Helpers.AgeCounts | frontend/src/utils/helpers.ts:69-74 | the shown counts are the hours, 1..6 days, 1..4 weeks, 1..12 months or at least one year |
| Helpers.AgeMonotone | frontend/src/utils/helpers.ts:63-75 | an older date never lands in an earlier bucket |
| Helpers.AgeTextCount | frontend/src/utils/helpers.ts:69-74 | the number at the head of a shown age reads back (with `parseInt`) as the bucket's count |
| Helpers.Pluralize | frontend/src/utils/helpers.ts:77-80 | the count, a space, then the singular exactly when the count is 1, else the non-empty plural, else the singular with `s` |
| Helpers.PluralizeCount | frontend/src/utils/helpers.ts:77-80 | the phrase's leading number reads back as the count |
| MockData.SearchFilter | frontend/src/api/mockData.ts:125-133 | an absent or empty term keeps the list; a term keeps exactly the questions whose title, description or a tag contain it ignoring case |
| MockData.SearchResultsMatch | frontend/src/api/mockData.ts:127-133 | every kept question matches a non-empty term, every matching question is kept, and no term filters nothing |
| MockData.GetQuestions | frontend/src/api/mockData.ts:124-160 | `total` is the length of the searched and sorted list; `page` and `limit` are echoed |
| MockData.GetQuestionsPage | frontend/src/api/mockData.ts:151-153 | the page holds at most `limit` questions, is the run of the list from `(page-1)*limit`, and is empty past the end |
| MockData.TotalIgnoresPage | frontend/src/api/mockData.ts:155-160 | `total` does not depend on the page or the page size |
| MockData.PopularOrder | frontend/src/api/mockData.ts:143-145 | votes never increase down the list, nothing is lost or added, ties keep their order |
| MockData.NewestOrder | frontend/src/api/mockData.ts:137-139 | for `newest` or no sort, creation time never increases, the list is a permutation, ties keep their order |
| MockData.OldestOrder | frontend/src/api/mockData.ts:140-142 | creation time never decreases, the list is a permutation, ties keep their order |
| MockData.UnansweredFilter | frontend/src/api/mockData.ts:146-148 | exactly the unanswered questions, in their order |
| MockData.UnknownSortKeepsOrder | frontend/src/api/mockData.ts:136-149 | any other sort key leaves the searched list unchanged |
| MockData.FindQuestion | frontend/src/api/mockData.ts:164 | the index of the first question with the id, or none when no question has it |
| MockData.GetQuestion | frontend/src/api/mockData.ts:163-169 | rejected with status 404 exactly when no question has the id; otherwise the first question with it |
| MockData.GetAnswers | frontend/src/api/mockData.ts:171-174 | every returned answer belongs to the question and every answer of the question is returned |
| MockData.GetAnswersInOrder | frontend/src/api/mockData.ts:172 | the answers keep their stored order |
| MockData.AllTags | frontend/src/api/mockData.ts:177 | a tag is in the flattened list exactly when some question has it |
| MockData.GetTagsSpec | frontend/src/api/mockData.ts:176-180 | every tag of every question appears, each once, in order of first occurrence |
| Seqs.FindFirst | frontend/src/api/mockData.ts:188 | the index of the first entry that passes, or none exactly when no entry passes |
| MockData.FindUserByEmail | frontend/src/api/mockData.ts:188 | the index of the first user with the email, or none |
| MockData.Login | frontend/src/api/mockData.ts:187-198 | a session exactly when some user has the email and the password is `password`; the session is for the first user with the email (registration allows duplicates) and carries the mock token; otherwise `Invalid credentials` |
| MockData.UserTable.constructor | frontend/src/api/mockData.ts:4-29 | the table starts as the four seed accounts, with distinct ids none above 4 |
| MockData.UserTable.Register | frontend/src/api/mockData.ts:200-213 | appends one user whose id is the old count plus one in decimal, with an empty avatar; the session is that user with the mock token; ids stay distinct and fresh |
| MockData.SeedUsersValid | frontend/src/api/mockData.ts:4-29 | the seed ids `demo`, `1`, `2`, `3` are distinct and none reads as a number above 4 |
| MockData.RegisterKeepsIdsUnique | frontend/src/api/mockData.ts:202-207 | the id `String(length + 1)` is new, so registration keeps ids distinct |
| MockApi.Split | frontend/src/api/api.ts:34 | `split('/')` has at least one piece |
| MockApi.ThirdSegmentOf | frontend/src/api/api.ts:34-38 | the third piece of `/questions/<d><rest>` is `d` when `d` has no slash and `rest` is empty or starts with a slash |
| MockApi.QuestionPathId | frontend/src/api/api.ts:33-34 | on `/questions/<digits>` the id taken is the digit run |
| MockApi.AnswersPathId | frontend/src/api/api.ts:37-38 | on `/questions/<digits>/answers` the id taken is the digit run |
| MockApi.RouteGet | frontend/src/api/api.ts:25-52 | the first matching rule wins: the `/questions?` prefix, the question pattern, the answers pattern, then `/tags`, `/notifications`, `/auth/me`; no route exactly when none matches; the ids are the digit runs |
| MockApi.IntOr | frontend/src/api/api.ts:27-28 | `parseInt(v) \|\| fallback`: the parsed number unless absent, unreadable or zero |
| MockApi.GetMe | frontend/src/api/mockData.ts:215-221 | the remembered user, else the first user of the table |
| MockApi.Get | frontend/src/api/api.ts:21-53 | a list URL replies with the `GetQuestions` page for `config.params` (page 1 and limit 10 by default); a question URL with `GetQuestion`'s question or its 404; an answers URL with `GetAnswers` of the path id; `/tags`, `/notifications` and `/auth/me` with the tags, the notifications and `GetMe`; an unmatched URL rejects with the not-found message; every rejection has status 404 |
| MockApi.ListIgnoresQueryString | frontend/src/api/api.ts:22-31 | without `config` a list URL always gives page 1 of 10, unsearched, default sort, whatever its query string says |
| MockApi.ListSameForAnyQuery | frontend/src/api/api.ts:25-31 | two list URLs with the same `config` give the same reply |
| MockApi.UnknownQuestionRejected | frontend/src/api/api.ts:33-36 | a question URL with an unknown id rejects with the look-up's bare 404 |
| MockApi.Spread | frontend/src/api/api.ts:64-73 | the stamp's fields win, the body's other fields are kept, the generated id is used only when the body has none |
| MockApi.Post | frontend/src/api/api.ts:55-91 | login and registration exactly on their paths; `{success: true}` exactly for every URL that is not one of the four routes |
| MockApi.PostQuestionReply | frontend/src/api/api.ts:62-74 | a posted question comes back with the body's fields, the current user as author, zero votes and zero answers |
| MockApi.PostAnswerReply | frontend/src/api/api.ts:75-88 | a posted answer comes back with the body's fields, the current user as author, zero votes and not accepted |
| MockApi.PostLoginReply | frontend/src/api/api.ts:56-58 | the login reply is a session exactly when the body's email is a user's and its password is `password` |
| MockApi.Patch | frontend/src/api/api.ts:93-95 | every update is acknowledged with success |
| MockApi.ExportedClient | frontend/src/api/api.ts:98 | the exported client is the mock whatever the setting |
| Pagination.PageCount | frontend/src/hooks/usePagination.ts:34 | `Math.ceil(total / perPage)`: the least page count whose pages hold every item |
| Pagination.PageCountFullPages | frontend/src/hooks/usePagination.ts:34 | a whole number of full pages needs exactly that many pages |
| Pagination.PageCountOneMore | frontend/src/hooks/usePagination.ts:34 | one item past full pages needs exactly one more page |
| Pagination.FetchErrorMessage | frontend/src/hooks/usePagination.ts:44 | an `Error`'s own message, otherwise `An error occurred` |
| Pagination.Paginator.constructor | frontend/src/hooks/usePagination.ts:26-32 | page 1 and 10 per page unless given; no items, total 0, not loading, no error |
| Pagination.Paginator.GoToPage | frontend/src/hooks/usePagination.ts:50-54 | moves to the page exactly when it lies in 1..total pages, otherwise nothing changes; the page never drops below 1 |
| Pagination.Paginator.GoToNextPage | frontend/src/hooks/usePagination.ts:56-60 | one page on exactly when before the last page, otherwise unchanged; the page never drops below 1 |
| Pagination.Paginator.GoToPrevPage | frontend/src/hooks/usePagination.ts:62-66 | one page back exactly when after the first page, otherwise unchanged; the page never drops below 1 |
| Pagination.Paginator.BeginFetch | frontend/src/hooks/usePagination.ts:36-40 | loading starts and the error is cleared; the request is the page at the hook's page size |
| Pagination.Paginator.FinishFetch | frontend/src/hooks/usePagination.ts:40-47 | a result replaces items and total, a failure keeps them and records its message; loading ends either way |
| Notifications.MarkRead | frontend/src/hooks/useNotifications.ts:209-217 | same length; entries with the id become read, all others are unchanged |
| Notifications.MarkAllRead | frontend/src/hooks/useNotifications.ts:219-223 | same length; every entry is the old one marked read |
| Notifications.Without | frontend/src/hooks/useNotifications.ts:225-227 | no remaining entry has the id, and every entry with another id remains |
| Notifications.MarkReadUnreadCount | frontend/src/hooks/useNotifications.ts:207-217 | marking an id read lowers the badge by exactly its unread entries |
| Notifications.MarkReadIdempotent | frontend/src/hooks/useNotifications.ts:209-217 | marking an id read twice is marking it once |
| Notifications.MarkAllReadClearsBadge | frontend/src/hooks/useNotifications.ts:207-223 | after marking all read the badge is 0 |
| Notifications.WithoutInOrder | frontend/src/hooks/useNotifications.ts:225-227 | deleting keeps the others in order, and an absent id changes nothing |
| Notifications.FindPreference | frontend/src/hooks/useNotifications.ts:247 | the index of the first preference for the type, or none when there is none |
| Notifications.BrowserGateNeeds | frontend/src/hooks/useNotifications.ts:247-253 | a browser notification needs permission, the API, and a preference for the type with web on and not disabled |
| Notifications.QuickToggleOffSilences | frontend/src/hooks/useNotifications.ts:247-253 | after turning every channel off no type reaches the browser |
| Notifications.QuickToggleOnShows | frontend/src/hooks/useNotifications.ts:247-253 | after turning every channel on every type with a preference reaches the browser once permission is held |
| Notifications.DefaultsShowEveryType | frontend/src/hooks/useNotifications.ts:98-147 | under the default preferences every notification type reaches the browser once permission is held |
| Notifications.FirstOfTypeShows | frontend/src/hooks/useNotifications.ts:247-253 | the first preference for a type decides: web on and not disabled means the browser shows it |
| Notifications.NotificationStore.constructor | frontend/src/hooks/useNotifications.ts:150-153 | no notifications, the default preferences, loading, no permission |
| Notifications.NotificationStore.FinishLoading | frontend/src/hooks/useNotifications.ts:157-181 | the stored notifications or else the samples, the stored preferences or else the current ones; loading ends |
| Notifications.NotificationStore.CheckPermission | frontend/src/hooks/useNotifications.ts:187-191 | permission follows the browser's setting only when the API exists |
| Notifications.NotificationStore.RequestPermission | frontend/src/hooks/useNotifications.ts:266-289 | false without the API; true and recorded when already granted; false when denied; otherwise the prompt's answer, recorded only when the prompt answers |
| Notifications.NotificationStore.MarkAsRead | frontend/src/hooks/useNotifications.ts:209-217 | the list becomes `MarkRead` of the old list and the badge drops by the id's unread entries; nothing else changes |
| Notifications.NotificationStore.MarkAllAsRead | frontend/src/hooks/useNotifications.ts:219-223 | the list becomes `MarkAllRead` of the old list and the badge is 0 |
| Notifications.NotificationStore.DeleteNotification | frontend/src/hooks/useNotifications.ts:225-227 | the list becomes `Without` of the old list |
| Notifications.NotificationStore.ClearAllNotifications | frontend/src/hooks/useNotifications.ts:229-231 | the list is empty and the badge 0 |
| Notifications.NotificationStore.UpdatePreferences | frontend/src/hooks/useNotifications.ts:233-235 | the preferences are replaced wholesale; nothing else changes |
| Notifications.NotificationStore.AddNotification | frontend/src/hooks/useNotifications.ts:237-264 | the new entry goes first, the old ones follow unchanged, the badge grows by one for an unread entry; a browser notification with the draft's title, message and type exactly when the gate is open |
| NotificationCenter.FilteredNotifications | frontend/src/components/NotificationCenter.tsx:101-106 | every shown entry is a notification passing both filters, and every passing notification is shown |
| NotificationCenter.FilteredInOrder | frontend/src/components/NotificationCenter.tsx:101-106 | the shown entries keep their order; with both filters on `all` every entry is shown |
| NotificationCenter.UnreadCount | frontend/src/components/NotificationCenter.tsx:108 | the badge never exceeds the number of notifications |
| NotificationCenter.UnreadCountIsFilterLength | frontend/src/components/NotificationCenter.tsx:108 | the badge is the length of the list of unread entries |
| NotificationCenter.UnreadFilterMatchesBadge | frontend/src/components/NotificationCenter.tsx:101-108 | the `unread` filter over all types shows exactly as many entries as the badge counts |
| NotificationCenter.FilterSamePredicate | frontend/src/components/NotificationCenter.tsx:102-108 | the `unread` filter's callback keeps the same entries as the badge's |
| NotificationCenter.TimeAgoOfMinutes | frontend/src/components/NotificationCenter.tsx:54-69 | exactly one bucket per minute difference (just now, minutes, hours, days, locale date past a week), and each count is the floor of the difference in its unit |
| NotificationCenter.TimeAgoTextCount | frontend/src/components/NotificationCenter.tsx:60-66 | the number at the head of a relative time reads back as the bucket's count |
| NotificationCenter.ClickCall | frontend/src/components/NotificationCenter.tsx:320 | clicking an entry marks it read, with its id, exactly when it is unread |
| NotificationPreferences.WithFieldSpec | frontend/src/components/NotificationPreferences.tsx:64 | `{ ...pref, [field]: value }` sets the named field to the value and keeps every other field |
| NotificationPreferences.UpdatePreference | frontend/src/components/NotificationPreferences.tsx:61-70 | same length; entries with the id get the field set and keep the rest; other entries are unchanged |
| NotificationPreferences.WithChannel | frontend/src/components/NotificationPreferences.tsx:77 | only the named channel takes the value; the other two keep theirs |
| NotificationPreferences.UpdateChannel | frontend/src/components/NotificationPreferences.tsx:72-84 | same length; entries with the id get the one channel changed; other entries are unchanged |
| NotificationPreferences.QuickToggle | frontend/src/components/NotificationPreferences.tsx:97-109 | every entry keeps id, label, description and type, gets all three channels set to the choice, and `instant` or `disabled` |
| NotificationPreferences.QuickToggleIdempotent | frontend/src/components/NotificationPreferences.tsx:97-109 | toggling twice the same way is toggling once |
| NotificationPreferences.UpdateChannelUnchanged | frontend/src/components/NotificationPreferences.tsx:72-84 | turning on a channel already on for every matching entry leaves the list as it was |
| NotificationPreferences.PreferencesEditor.constructor | frontend/src/components/NotificationPreferences.tsx:39-40 | the local copy starts as the prop, with no changes |
| NotificationPreferences.PreferencesEditor.UpdatePreferenceField | frontend/src/components/NotificationPreferences.tsx:61-70 | the local list becomes `UpdatePreference` of the old one and there are changes |
| NotificationPreferences.PreferencesEditor.UpdateChannelFlag | frontend/src/components/NotificationPreferences.tsx:72-84 | the local list becomes `UpdateChannel` of the old one and there are changes |
| NotificationPreferences.PreferencesEditor.HandleQuickToggle | frontend/src/components/NotificationPreferences.tsx:97-109 | the local list becomes `QuickToggle` of the old one and there are changes |
| NotificationPreferences.PreferencesEditor.HandleSave | frontend/src/components/NotificationPreferences.tsx:86-90 | the local list is handed on, the save callback is called, and there are no changes left |
| NotificationPreferences.PreferencesEditor.HandleReset | frontend/src/components/NotificationPreferences.tsx:92-95 | the local list is the prop again, with no changes |
| TagSelection.Added | frontend/src/components/TagSelector.tsx:37-44 | the trimmed, lower-cased tag is appended exactly when it is non-empty, not selected and the cap is not reached; otherwise the selection is unchanged |
| TagSelection.Removed | frontend/src/components/TagSelector.tsx:46-48 | the tag is gone, every other selected tag stays, and nothing new appears |
| TagSelection.AddKeepsWellFormed | frontend/src/components/TagSelector.tsx:39-40 | from a duplicate-free selection within the cap, adding keeps it duplicate-free and within the cap |
| TagSelection.RemoveKeepsWellFormed | frontend/src/components/TagSelector.tsx:46-48 | removing keeps the selection duplicate-free and within the cap, the others in order |
| TagSelection.Suggestions | frontend/src/components/TagSelector.tsx:23-35 | nothing for blank input; otherwise exactly the known tags that contain the input ignoring case and are not selected |
| TagSelection.SuggestionsInOrder | frontend/src/components/TagSelector.tsx:25-28 | suggestions keep the order of the known tags |
| TagSelection.ShownSuggestions | frontend/src/components/TagSelector.tsx:106 | the first eight suggestions, never more |
| TagSelection.TagSelector.constructor | frontend/src/components/TagSelector.tsx:11-20 | the props, an empty input, no suggestions shown |
| TagSelection.TagSelector.RefreshSuggestions | frontend/src/components/TagSelector.tsx:23-35 | the suggestions become `Suggestions` of the current state, shown exactly when there are some |
| TagSelection.TagSelector.SetInput | frontend/src/components/TagSelector.tsx:97 | the input takes the typed value; nothing else changes |
| TagSelection.TagSelector.AddTag | frontend/src/components/TagSelector.tsx:37-44 | the selection becomes `Added`; a successful add clears the input and hides the suggestions, a refused one changes nothing; the invariant is kept |
| TagSelection.TagSelector.RemoveTag | frontend/src/components/TagSelector.tsx:46-48 | the selection becomes `Removed`; the invariant is kept |
| TagSelection.TagSelector.HandleKeyPress | frontend/src/components/TagSelector.tsx:50-57 | Enter or comma adds the input, and a successful add clears the input and hides the suggestions while a refused one leaves both; Backspace on an empty input removes the last tag and keeps the input and the list's visibility; other keys change nothing; the suggestions are never recomputed here; the invariant is kept |
| TagSelection.TagSelector.HandleSuggestionClick | frontend/src/components/TagSelector.tsx:59-62 | a picked suggestion is added like typed input, clearing the input and hiding the list only when it is added |
| TagSelection.TagSelector.Focus | frontend/src/components/TagSelector.tsx:100 | with input, the suggestions show exactly when there are some; without, nothing changes |
| TagSelection.TagSelector.Blur | frontend/src/components/TagSelector.tsx:101 | the suggestions are hidden |
| Search.MatchingSuggestions | frontend/src/components/SearchComponent.tsx:37-39 | the first five suggestions that contain the query ignoring case, in order |
| Search.MatchingNonEmpty | frontend/src/components/SearchComponent.tsx:37-41 | the cut list is non-empty exactly when some suggestion matches |
| Search.SearchBox.constructor | frontend/src/components/SearchComponent.tsx:18-27 | the props, no suggestions shown |
| Search.SearchBox.RefreshSuggestions | frontend/src/components/SearchComponent.tsx:35-45 | with a non-blank query and some suggestions the matches are recomputed; otherwise the last matches stay; the list shows exactly when the query is non-blank and something matches |
| Search.SearchBox.HandleSuggestionClick | frontend/src/components/SearchComponent.tsx:52-56 | the suggestion is forwarded as the query and the list is hidden |
| Search.SearchBox.HandleKeyDown | frontend/src/components/SearchComponent.tsx:58-63 | Escape hides the list; other keys change nothing |
| Search.SearchBox.ClearSearch | frontend/src/components/SearchComponent.tsx:65-68 | the empty query is forwarded |
| Search.SearchBox.Focus | frontend/src/components/SearchComponent.tsx:90 | with a query, the list shows exactly when there are matches; without, nothing changes |
| Search.SearchBox.Blur | frontend/src/components/SearchComponent.tsx:91 | leaving the box hides the list and keeps the query and the matches |
| Voting.CeilHalf | frontend/src/components/VotingSystem.tsx:222-226 | `Math.ceil(n / 2)`: the least integer whose double reaches `n` |
| Voting.BreakdownSpec | frontend/src/components/VotingSystem.tsx:222-226 | a positive score is all upvotes, a negative one all downvotes, and upvotes minus downvotes is the score |
| Voting.VoteLabel | frontend/src/components/VotingSystem.tsx:134 | non-empty, and starts with `+` exactly for a positive score |
| Voting.VoteLabelReadsBack | frontend/src/components/VotingSystem.tsx:134 | the label reads back as the score |
| Voting.VoteButtons.constructor | frontend/src/components/VotingSystem.tsx:16-22 | not voting, breakdown hidden |
| Voting.VoteButtons.BeginVote | frontend/src/components/VotingSystem.tsx:24-29 | the vote is passed on, and marked in progress, exactly when not disabled and no vote is in progress; otherwise nothing changes |
| Voting.VoteButtons.FinishVote | frontend/src/components/VotingSystem.tsx:30-32 | the vote is over whatever the outcome |
| Voting.VoteButtons.ToggleBreakdown | frontend/src/components/VotingSystem.tsx:140 | the breakdown panel flips |
| AdminDashboard.UpdateUser | frontend/src/pages/AdminDashboardPage.tsx:214-216 | every user with the updated id is replaced, every other kept in place |
| AdminDashboard.BanUser | frontend/src/pages/AdminDashboardPage.tsx:218-225 | every matching user is banned with one more warning, every other kept in place |
| AdminDashboard.UnbanUser | frontend/src/pages/AdminDashboardPage.tsx:227-233 | every matching user becomes active, warnings kept; every other kept in place |
| AdminDashboard.UnbanAfterBan | frontend/src/pages/AdminDashboardPage.tsx:218-233 | ban then unban leaves a matching user active with the extra warning and the others unchanged |
| AdminDashboard.DeleteUser | frontend/src/pages/AdminDashboardPage.tsx:235-237 | exactly the users with another id remain |
| AdminDashboard.DeleteUserInOrder | frontend/src/pages/AdminDashboardPage.tsx:235-237 | the remaining users keep their order |
| AdminDashboard.BanUserBannedCount | frontend/src/pages/AdminDashboardPage.tsx:218-225 | a ban raises the Banned Users card by the matching users that were not banned yet |
| AdminDashboard.ResolveReport | frontend/src/pages/AdminDashboardPage.tsx:243-255 | every matching report becomes resolved with the time and the notes; every other kept in place |
| AdminDashboard.DismissReport | frontend/src/pages/AdminDashboardPage.tsx:257-268 | every matching report becomes dismissed with the time and the notes; every other kept in place |
| AdminDashboard.AssignModerator | frontend/src/pages/AdminDashboardPage.tsx:270-276 | every matching report gets the moderator and goes under review; every other kept in place |
| AdminDashboard.ResolvePendingCount | frontend/src/pages/AdminDashboardPage.tsx:243-255 | resolving lowers the Pending Reports card by the matching pending reports |
| AdminDashboard.DismissPendingCount | frontend/src/pages/AdminDashboardPage.tsx:257-268 | dismissing lowers the Pending Reports card by the matching pending reports |
| AdminDashboard.NewMessage | frontend/src/pages/AdminDashboardPage.tsx:278-290 | the record keeps the composed fields and takes the id; a sent message is stamped and counts its recipients as sent, any other has no time and zero delivery figures |
| AdminDashboard.DeleteMessage | frontend/src/pages/AdminDashboardPage.tsx:293-295 | exactly the messages with another id remain |
| AdminDashboard.DeleteMessageInOrder | frontend/src/pages/AdminDashboardPage.tsx:293-295 | the remaining messages keep their order |
| AdminDashboard.ScheduleMessage | frontend/src/pages/AdminDashboardPage.tsx:297-303 | every matching message gets the date and becomes scheduled; every other kept in place |
| AdminDashboard.ScheduleSentCount | frontend/src/pages/AdminDashboardPage.tsx:297-303 | scheduling lowers the Messages Sent card by the matching sent messages |
| AdminDashboard.Dashboard.constructor | frontend/src/pages/AdminDashboardPage.tsx:23-26 | the page's tables, on the overview tab |
| AdminDashboard.Dashboard.HandleUpdateUser | frontend/src/pages/AdminDashboardPage.tsx:214-216 | the users become `UpdateUser` of the old table; the other tables and the tab are kept |
| AdminDashboard.Dashboard.HandleBanUser | frontend/src/pages/AdminDashboardPage.tsx:218-225 | the users become `BanUser` of the old table and the Banned Users card grows by the newly banned; the rest is kept |
| AdminDashboard.Dashboard.HandleUnbanUser | frontend/src/pages/AdminDashboardPage.tsx:227-233 | the users become `UnbanUser` of the old table; the rest is kept |
| AdminDashboard.Dashboard.HandleDeleteUser | frontend/src/pages/AdminDashboardPage.tsx:235-237 | the users become `DeleteUser` of the old table; the rest is kept |
| AdminDashboard.Dashboard.HandleResolveReport | frontend/src/pages/AdminDashboardPage.tsx:243-255 | the reports become `ResolveReport` of the old table and the Pending card drops by the matching pending reports; the rest is kept |
| AdminDashboard.Dashboard.HandleDismissReport | frontend/src/pages/AdminDashboardPage.tsx:257-268 | the reports become `DismissReport` of the old table and the Pending card drops likewise; the rest is kept |
| AdminDashboard.Dashboard.HandleAssignModerator | frontend/src/pages/AdminDashboardPage.tsx:270-276 | the reports become `AssignModerator` of the old table; the rest is kept |
| AdminDashboard.Dashboard.HandleSendPlatformMessage | frontend/src/pages/AdminDashboardPage.tsx:278-291 | the new record goes first, and the Messages Sent card grows by one exactly for a sent message; the rest is kept |
| AdminDashboard.Dashboard.HandleDeleteMessage | frontend/src/pages/AdminDashboardPage.tsx:293-295 | the messages become `DeleteMessage` of the old table; the rest is kept |
| AdminDashboard.Dashboard.HandleScheduleMessage | frontend/src/pages/AdminDashboardPage.tsx:297-303 | the messages become `ScheduleMessage` of the old table and the Messages Sent card drops by the matching sent messages; the rest is kept |
| AdminDashboard.Dashboard.SelectTab | frontend/src/pages/AdminDashboardPage.tsx:381 | the tab changes, the tables do not |
| AdminDashboard.CanAccess | frontend/src/pages/AdminDashboardPage.tsx:306 | the page renders exactly for a signed-in user whose id is `demo`; no one else, and no one signed out |
| UserManagement.FilteredUsers | frontend/src/components/UserManagement.tsx:92-99 | exactly the users whose username or email contains the search ignoring case and whose role and status match their selects (or `all`) |
| UserManagement.FilteredUsersInOrder | frontend/src/components/UserManagement.tsx:92-99 | the table keeps the users' order; an empty search with both selects on `all` lists everyone |
| UserManagement.RoleCount | frontend/src/components/UserManagement.tsx:252-253 | a role badge never counts more users than the table has |
| UserManagement.RoleCountsCoverTable | frontend/src/components/UserManagement.tsx:252-253 | when every user holds one of the three roles the badges add up to the table size |
| UserManagement.RowActionFor | frontend/src/components/UserManagement.tsx:438-459 | the ban button exactly for an active user, unban otherwise |
| UserManagement.UserManagementPanel.constructor | frontend/src/components/UserManagement.tsx:59-66 | empty search, both selects on `all`, no selection, both dialogs closed and empty |
| UserManagement.UserManagementPanel.OpenBanDialog | frontend/src/components/UserManagement.tsx:440-442 | the user is selected and the ban dialog opens; the rest is unchanged |
| UserManagement.UserManagementPanel.OpenMessageDialog | frontend/src/components/UserManagement.tsx:420-422 | the user is selected and the message dialog opens; the rest is unchanged |
| UserManagement.UserManagementPanel.HandleBanUser | frontend/src/components/UserManagement.tsx:119-126 | `onBanUser(id, reason)` exactly when a user is selected and the reason is not blank, then the dialog is reset; otherwise nothing changes |
| UserManagement.UserManagementPanel.HandleSendMessage | frontend/src/components/UserManagement.tsx:128-135 | `onSendMessage(id, content)` exactly when a user is selected and the content is not blank, then the dialog is reset; otherwise nothing changes |
| UserManagement.UserManagementPanel.CancelBan | frontend/src/components/UserManagement.tsx:547-550 | the ban dialog closes, its reason and the selection are cleared |
| UserManagement.UserManagementPanel.CancelMessage | frontend/src/components/UserManagement.tsx:628-631 | the message dialog closes, its content and the selection are cleared |
| ContentModeration.FilteredReports | frontend/src/components/ContentModeration.tsx:108-117 | exactly the reports whose text, author name or reason contains the search ignoring case and whose status, category and priority match their selects (or `all`) |
| ContentModeration.FilteredReportsInOrder | frontend/src/components/ContentModeration.tsx:108-117 | the queue keeps the reports' order |
| ContentModeration.InitialQueueMatchesPendingCard | frontend/src/components/ContentModeration.tsx:108-117 | the queue as first shown lists exactly as many reports as the Pending card counts |
| ContentModeration.ReportAgeOfHours | frontend/src/components/ContentModeration.tsx:133-145 | under an hour, whole hours below a day, whole days below a week, then the locale date; the day count is the hours divided by 24 rounded down |
| ContentModeration.ReportAgeTextCount | frontend/src/components/ContentModeration.tsx:139-142 | the number in an hours or days text reads back as its count |
| ContentModeration.ModerationPanel.constructor | frontend/src/components/ContentModeration.tsx:59-66 | empty search, status `pending`, the other filters `all`, no selection, dialog closed |
| ContentModeration.ModerationPanel.ChooseAction | frontend/src/components/ContentModeration.tsx:468-550 | the report and the action are selected and the dialog opens; notes and filters are kept |
| ContentModeration.ModerationPanel.HandleAction | frontend/src/components/ContentModeration.tsx:119-131 | a call exactly when a report and an action are chosen: dismissal to `onDismissReport`, the others to `onResolveReport`, with the notes; then the dialog resets; otherwise nothing changes |
| ContentModeration.ModerationPanel.CancelAction | frontend/src/components/ContentModeration.tsx:629-633 | the dialog closes and its selection and notes are cleared; filters are kept |
| PlatformMessaging.RoleRecipientsByRole | frontend/src/components/PlatformMessaging.tsx:118-122 | the role total is 3 per selected `admin`, 8 per `moderator`, 1247 per `user`, and nothing for an unknown id |
| PlatformMessaging.RecipientCount | frontend/src/components/PlatformMessaging.tsx:118-122 | 1250 for everyone, the role total for roles, the number of picked users otherwise |
| PlatformMessaging.TargetsMatchCount | frontend/src/components/PlatformMessaging.tsx:118-137 | for roles and individuals the count is the role total of the targets, or their number |
| PlatformMessaging.NewStatus | frontend/src/components/PlatformMessaging.tsx:140 | draft exactly when saved as draft, scheduled exactly when sent with a date, sent otherwise |
| PlatformMessaging.RoleRecipientsAppend | frontend/src/components/PlatformMessaging.tsx:342 | appending a role adds its size to the role total |
| PlatformMessaging.RoleRecipientsWithout | frontend/src/components/PlatformMessaging.tsx:344 | dropping every copy of a role removes its size once per copy |
| PlatformMessaging.ToggleRoleCount | frontend/src/components/PlatformMessaging.tsx:339-345 | checking a role adds its size to the total; unchecking removes all of its share |
| PlatformMessaging.FilteredMessages | frontend/src/components/PlatformMessaging.tsx:156-162 | exactly the messages whose subject or content contains the search ignoring case and whose status matches the select (or `all`) |
| PlatformMessaging.FilteredMessagesInOrder | frontend/src/components/PlatformMessaging.tsx:156-162 | the outbox keeps the messages' order |
| PlatformMessaging.TabMessages | frontend/src/components/PlatformMessaging.tsx:164-176 | a list tab shows exactly the filtered messages of its status; the compose tab none |
| PlatformMessaging.Preview | frontend/src/components/PlatformMessaging.tsx:634-636 | content up to 200 characters as is; longer content cut to its first 200 characters followed by `...` |
| PlatformMessaging.Composed | frontend/src/components/PlatformMessaging.tsx:124-143 | the message carries the form's fields, the fixed sender, `RecipientCount`, `Targets` and `NewStatus`, a schedule only with a date, and no reads |
| PlatformMessaging.Composer.constructor | frontend/src/components/PlatformMessaging.tsx:67-77 | announcement to everyone, medium priority, empty texts and selections, outbox on `all`, compose tab |
| PlatformMessaging.Composer.CheckRole | frontend/src/components/PlatformMessaging.tsx:339-345 | the selection becomes `ToggleRole` of the old one; nothing else changes |
| PlatformMessaging.Composer.ResetForm | frontend/src/components/PlatformMessaging.tsx:147-153 | texts, selections and date cleared, priority back to medium; types, outbox and tab kept |
| PlatformMessaging.Composer.HandleSendMessage | frontend/src/components/PlatformMessaging.tsx:115-154 | `onSendMessage(Composed(...))` exactly when subject and content are both non-blank, then the reset; otherwise nothing changes |
| RegisterPage.CheckRegistration | frontend/src/pages/RegisterPage.tsx:18-43 | the register call happens exactly when no field is blank, the three validators pass and the passwords agree; otherwise the first failing check's message, in the page's order |
| RegisterPage.FailureMessage | frontend/src/pages/RegisterPage.tsx:51 | the server's non-empty message, else the fallback |
| RegisterPage.RegisterForm.constructor | frontend/src/pages/RegisterPage.tsx:10-14 | empty fields, not loading |
| RegisterPage.RegisterForm.BeginSubmit | frontend/src/pages/RegisterPage.tsx:15-46 | the submission is `CheckRegistration` of the fields; loading is set exactly when the call is made |
| RegisterPage.RegisterForm.FinishSubmit | frontend/src/pages/RegisterPage.tsx:47-54 | loading ends; the success toast, or `FailureMessage` with `Registration failed` |
| AskQuestion.CheckQuestion | frontend/src/pages/AskQuestionPage.tsx:42-65 | the post happens exactly when title and description validate and a tag is chosen; otherwise the first failing check's message; the payload is the trimmed title, the description as entered and the tags |
| AskQuestion.PostedQuestionShape | frontend/src/pages/AskQuestionPage.tsx:42-65 | a posted title is non-blank with no surrounding white space, the description text has at least 20 characters, and tags from the selector are one to five distinct tags |
| AskQuestion.AskForm.constructor | frontend/src/pages/AskQuestionPage.tsx:14-18 | empty title, description and tags, not submitting |
| AskQuestion.AskForm.BeginSubmit | frontend/src/pages/AskQuestionPage.tsx:39-65 | the submission is `CheckQuestion` of the fields; submitting is set exactly when the post is made |
| AskQuestion.AskForm.FinishSubmit | frontend/src/pages/AskQuestionPage.tsx:66-73 | submitting ends; the success toast, or `FailureMessage` with `Failed to post question` |
| QASection.FilteredQuestions | odooStackIt/src/pages/QASection.tsx:82-87 | exactly the questions whose title or content contains the search ignoring case and that carry the selected tag, if any |
| QASection.FilteredQuestionsInOrder | odooStackIt/src/pages/QASection.tsx:82-87 | the list keeps the questions' order; no search and no tag list everything |
| QASection.SortedQuestions | odooStackIt/src/pages/QASection.tsx:89-99 | sorting keeps the number of questions |
| QASection.SortedQuestionsSpec | odooStackIt/src/pages/QASection.tsx:89-99 | most votes, most answers, or (for `recent` and any other choice) latest first; the same questions; ties in filtered order |
| QASection.ToggleTag | odooStackIt/src/pages/QASection.tsx:169 | clicking the selected tag clears the filter, any other tag selects it |
| QAPage.FilteredQuestions | odooStackIt/src/pages/QAPage.tsx:59-64 | the same filter over this page's question records |
| QAPage.FilteredQuestionsInOrder | odooStackIt/src/pages/QAPage.tsx:59-64 | the list keeps the questions' order |
| QAPage.SortedQuestions | odooStackIt/src/pages/QAPage.tsx:66-77 | sorting keeps the number of questions |
| QAPage.SortedQuestionsSpec | odooStackIt/src/pages/QAPage.tsx:66-77 | most votes, latest or most answers first for the three choices; the same questions; ties in filtered order |
| QAPage.UnknownSortKeepsOrder | odooStackIt/src/pages/QAPage.tsx:74-75 | any other choice leaves the filtered order unchanged |
| SkillExchange.SkillPrefixAccepted | odooStackIt/src/pages/SkillExchange.tsx:110-112 | a skill that begins with the filter passes the case-sensitive skill test |
| SkillExchange.FilteredMembers | odooStackIt/src/pages/SkillExchange.tsx:105-117 | exactly the members the search (name or a skill, ignoring case), the skill filter (with case) and the location filter (ignoring case) all accept |
| SkillExchange.FilteredMembersInOrder | odooStackIt/src/pages/SkillExchange.tsx:105-117 | the list keeps the directory's order; with all three inputs empty it is everyone |
| SkillSwap.FilteredMembers | odooStackIt/src/pages/SkillSwapPage.tsx:63-75 | the same three-way filter, where a location filter needs a location |
| SkillSwap.FilteredMembersInOrder | odooStackIt/src/pages/SkillSwapPage.tsx:63-75 | the list keeps the page's order, and with a location filter every listed member has a location |
| SkillSwap.ShownSkills | odooStackIt/src/pages/SkillSwapPage.tsx:182 | the chips are a prefix of at most three skills, all of a short list |
| SkillSwap.MoreChip | odooStackIt/src/pages/SkillSwapPage.tsx:190-194 | the `+N more` chip appears exactly for more than three skills |
| SkillSwap.ChipsCoverSkills | odooStackIt/src/pages/SkillSwapPage.tsx:182-194 | three chips are shown and the chip's number reads back as the rest of the list |
| MapView.FilteredMapMembers | odooStackIt/src/pages/MapView.tsx:43-48 | no skill shows everyone; otherwise exactly the members with an offered or wanted skill containing it |
| MapView.FilteredMapMembersInOrder | odooStackIt/src/pages/MapView.tsx:43-48 | the empty-skill shortcut agrees with filtering, and the shown members keep their order |
| MapView.PinsSpreadOut | odooStackIt/src/pages/MapView.tsx:103-104 | later pins sit strictly right of and below earlier ones; only the first four start inside the map's width |
| MapView.ToggleSelection | odooStackIt/src/pages/MapView.tsx:106 | clicking the selected member deselects it, any other member becomes the selection |
| StreakTracker.WeeksSpec | odooStackIt/src/components/StreakTracker.tsx:36-45 | the weeks laid end to end give back the days; each has one to seven days, all but the last seven, and there are ceil(n/7) of them |
| StreakTracker.WeeksInYear | odooStackIt/src/components/StreakTracker.tsx:36-45 | the loop of seven-day slices builds exactly `Weeks` of the days |
| StreakTracker.Bucket | odooStackIt/src/components/StreakTracker.tsx:13-25 | one of four buckets, the first exactly for no activity |
| StreakTracker.SameThresholds | odooStackIt/src/components/StreakTracker.tsx:13-25 | a day's colour and label are the legend colour and level of its bucket |
| StreakTracker.BucketMonotone | odooStackIt/src/components/StreakTracker.tsx:13-25 | more activity never gives a lower bucket |
| StreakTracker.FindDay | odooStackIt/src/components/StreakTracker.tsx:49 | the first entry dated today, or none when no entry is |
| StreakTracker.TodayCount | odooStackIt/src/components/StreakTracker.tsx:49 | the count of today's first entry, 0 without one |
| StreakTracker.StreakWarningIff | odooStackIt/src/components/StreakTracker.tsx:163 | the warning shows exactly when the streak runs, there is an entry for today and today's count is 0 |

## Left out

- Persistence: every `localStorage` read and write (the notification list and preferences, the token, `mockCurrentUser`) is left out; the store starts from what the load step is given, and `MockApi.GetMe` takes the remembered user as part of its store.
- Timers and randomness: the search box's `handleInputChange`, which only hands the typed value to a 300 ms debounced `onSearchChange`, is left out with the debounce, the 200 ms delay before a blur hides the suggestions (in the tag selector and the search box) is collapsed into the blur, and the random demo-notification generator is not modelled; ids from `Date.now()` and every ISO time stamp are parameters.
- Floating point: the admin page's delivered and failed estimates (`Math.floor(count * 0.95)` and `count * 0.05`) are parameters of `AdminDashboard.NewMessage`.
- Date parsing and locale formatting: times are integers (milliseconds, or whole minute or hour differences for the "time ago" helpers), the locale date string is a parameter, and the moderation panel's "Today" card (which compares `toDateString()` values) is not modelled.
- HTML text extraction (`sanitizeHtml`): the question-description check takes the extracted text as its input.
- Case-insensitive matching uses ASCII lower-casing rather than full Unicode case folding.
- The browser `Notification` API: its presence, its permission and the prompt's answer are parameters; the notification it raises is modelled as the returned request only.
- The admin page's `handleSendMessage` only writes to the console and is not modelled; neither is the console logging of the ban reason and the resolve action.
- The admin page's and the panels' seed data (users, reports, messages, map members, questions) are constructor or function parameters, except the mock API's users (`MockData.SeedUsers`).
- The map's coordinates and ratings and the directory's rating, streak and activity history are not carried in the records, since no modelled logic reads them.
- Toasts, navigation and rendering are left out; a toast's text is returned where the handler chooses it.
- The parent's `onTagsChange` and `onSearchChange` callbacks are modelled as the value handed to them; applying it is the parent's business.
- String lengths: JavaScript's `.length`, `substring` and `slice` count UTF-16 code units, while the model counts characters. Outside the Basic Multilingual Plane the limits shift: a title of six emoji has length 12 in the source and passes the 10-character minimum, but `Helpers.ValidateQuestionTitle` rejects it. The username (3 and 20), password (6) and description (20) limits, the 200-unit cut of `Helpers.TruncateText` (which in the source can split a surrogate pair) and the suggestion slices shift the same way.
- Number precision: JavaScript numbers are doubles, while the model's integers are exact. `parseInt` of a long digit run loses precision, and `String(votes)` switches to exponent notation from 1e21. `Text.IntToString`, `MockApi.IntOr` and `Voting.VoteLabelReadsBack` assume exact integers.
- Registration's reply: `MockApi.Post` returns the body's email, password and username as a `RegisterCall`; the stored user and the `{user, token}` reply are `MockData.UserTable.Register` applied to those fields. A field missing from the body, which the source stores as `undefined`, has no counterpart in `Register`'s string parameters.
- `Pagination.PageCount`: stated only for a positive page size (the hook's default is 10); `Math.ceil` of a division by zero or a negative size is not modelled.
- `Pagination.Paginator.constructor`: requires a positive page size when one is given, for the same reason.
- `MockData.GetQuestionsPage`: the window property is stated for `page >= 1` and `limit >= 0`; other values go through the JavaScript `slice` rules, which `GetQuestions` itself models.
- `StreakTracker.BucketMonotone`: stated for counts from 0, since a negative count falls in the light bucket and breaks monotonicity.

## Notes on the source

- The Q&A page's tag buttons (odooStackIt/src/pages/QAPage.tsx:149) toggle the tag filter with the same expression as the Q&A section's; `QASection.ToggleTag` models both.
- The username check accepts exactly 20 characters although its message says "less than 20" (`frontend/src/utils/helpers.ts:20-21`); `Helpers.ValidateUsername` follows the check.
- The tag selector lower-cases a new tag before comparing it with the selection, but its suggestions compare each known tag as written with the selected (lower-case) tags, so a capitalised known tag stays suggested after it has been added (`frontend/src/components/TagSelector.tsx:25-28`).
- The search box's effect only recomputes the matches for a non-blank query with suggestions; otherwise it hides the list and keeps the last matches, which focus can show again (`frontend/src/components/SearchComponent.tsx:35-45,90`).
- The messaging composer counts 1250 recipients for "all users", while its three roles add up to 3 + 8 + 1247 = 1258 (`frontend/src/components/PlatformMessaging.tsx:79-83,118`).
- The mock router takes `page`, `limit`, `search` and `sort` only from the request's `params`, never from the URL, so a list URL with a query string gets page 1 of 10, unsearched and in default order (`MockApi.ListIgnoresQueryString`).
- The ask-question page trims the posted title but posts the description as entered.
- The Q&A page's question records carry `createdAt` and an `answers` array rather than the declared `timestamp` and answer count, so `QAPage` has its own record type; its comparator returns 0 for an unknown sort choice, which keeps the filtered order, whereas the Q&A section sorts any unknown choice by time.
- The streak warning needs an entry for today with count 0: with no entry for today the count shows 0 but no warning appears.
