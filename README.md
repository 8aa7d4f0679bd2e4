# Community Connect, modelled in Dafny

Community Connect is a React front end for reporting and tracking civic
complaints. Citizens report issues. Government users and employees get
their own portals. A help centre, a chatbot and a settings dialog complete
the app. Its logic lives in the components' event handlers: small decision
rules and state updates. This project lifts those rules out and states what
each one guarantees. The React setters, toasts, the clock and randomness are
abstracted away.

One Dafny module per component:

- `SignUp`: the guard cascade of the sign-up form and the official-number filter.
- `UserPortal`: complaint submission. This covers the word-count gate, the title lookup in the category table, the new record, and the form reset.
- `ComplaintHistory`: the history view's search/status filter, its badge colours and labels, and the sample timelines.
- `Chatbot`: the keyword responder and the message log.
- `Captcha`: challenge generation from given random draws, and the case-insensitive check.
- `Dashboard`: the role-based sidebar, the tab dispatch, the header title and the home view's status badge.
- `HelpCenter`: the one-slot FAQ accordion, the chat box and the contact form.
- `Settings`: the profile form and saving it into the user record.
- `EmployeePortal`: the urgency colour bands and the days-left label.

Shared modules:

- `Domain`: the user and complaint types of `src/contexts/UserContext.tsx`.
- `Text`: the JavaScript string operations the handlers use. Case mapping is ASCII only. `trim` uses the ECMAScript whitespace set. `split(' ')` keeps empty pieces. `length` counts UTF-16 code units.
- `Seqs`: a generic order-preserving filter.
- `Wrappers`: `Option` and a pass/fail outcome.

State that a handler changes in place is a class with the same fields. A
handler is a method whose `modifies` clause covers the object and whose
`ensures` clauses give the whole new state. The rules the handlers apply are
functions, and lemmas about those functions state the properties. Where the
source reads the clock, the model takes the reading as a parameter.

## Model

| member | source | states |
|---|---|---|
| Seqs.Filter | src/components/ComplaintHistory.tsx:103-108 | `Array.prototype.filter`: the result is no longer than the input and every kept element satisfies the predicate |
| Seqs.FilterIsSubsequence | src/components/ComplaintHistory.tsx:103-108 | filtering keeps an order-preserving subsequence |
| Seqs.FilterKeepsEveryMatch | src/components/ComplaintHistory.tsx:103-108 | every element satisfying the predicate is kept |
| Seqs.FilterMultiplicity | src/components/ComplaintHistory.tsx:103-108 | the filtered list holds each matching value exactly as often as the input and no other value, so no copy of a match is dropped |
| Seqs.FilterAppend | src/components/ComplaintHistory.tsx:103-108 | filtering a concatenation is the concatenation of the filtered parts |
| Seqs.FilterIdempotent | src/components/ComplaintHistory.tsx:103-108 | filtering twice equals filtering once |
| Text.Lower | src/components/Captcha.tsx:84 | `toLowerCase` keeps the length and lower-cases each ASCII letter in place |
| Text.LowerIdempotent | src/components/ChatbotModal.tsx:47 | lower-casing twice is lower-casing once |
| Text.LowerEqualIff | src/components/Captcha.tsx:84 | two strings agree after lower-casing iff they have the same length and agree letter by letter up to ASCII case |
| Text.Trim | src/components/auth/SignUp.tsx:50 | `trim()` yields the empty string exactly when the input is all JavaScript whitespace |
| Text.ContainsIff | src/components/ChatbotModal.tsx:50 | `includes` holds iff the keyword occurs as a contiguous block at some position |
| Text.ContainsAt | src/components/ChatbotModal.tsx:50 | a keyword found at any position is included |
| Text.MissingCharNotContained | src/components/ChatbotModal.tsx:50 | a message lacking one of a keyword's characters does not include it |
| Text.SplitSpaces | src/components/portals/UserPortal.tsx:58 | `split(' ')` gives at least one piece and no piece holds a space |
| Text.SplitSpacesCount | src/components/portals/UserPortal.tsx:58 | `split(' ')` gives one more piece than the string has spaces |
| Text.JoinSplitSpaces | src/components/portals/UserPortal.tsx:58 | joining the pieces with single spaces gives back the string |
| Text.Utf16Length | src/components/auth/SignUp.tsx:68 | the UTF-16 length lies between the character count and twice of it |
| Text.Utf16LengthBmp | src/components/auth/SignUp.tsx:68 | inside the Basic Multilingual Plane the UTF-16 length is the character count |
| Text.DecimalString | src/components/portals/UserPortal.tsx:68 | `toString()` of a clock value is a non-empty string of digits without a leading zero |
| Text.DecimalRoundTrip | src/components/portals/UserPortal.tsx:68 | reading the decimal rendering back gives the number |
| Text.DecimalStringLength | src/components/portals/UserPortal.tsx:82 | a value of at least 10^k has more than k digits |
| Text.DecimalStringShort | src/components/portals/UserPortal.tsx:82 | a value below 10^k, k at least one, has at most k digits |
| Text.SliceLast | src/components/portals/UserPortal.tsx:82 | `slice(-n)` is the last n characters, or the whole string when it is shorter, and is a suffix of it |
| Text.IndexOf | src/components/Dashboard.tsx:190 | the position of the first occurrence of a character |
| Text.ReplaceFirstSpec | src/components/Dashboard.tsx:190 | `replace('-', ' ')` changes only the first hyphen, and nothing when there is none |
| Domain.StatusNamesDistinct | src/contexts/UserContext.tsx:28 | the four status names are pairwise distinct |
| SignUp.Update | src/components/auth/SignUp.tsx:34-36 | `handleInputChange` sets the named field and leaves every other field as it was |
| SignUp.DigitsOnly | src/components/auth/SignUp.tsx:307 | `replace(/\D/g, '')` yields an order-preserving subsequence of the input holding every digit as often as the input does and nothing else |
| SignUp.DigitsOnlyOfDigits | src/components/auth/SignUp.tsx:307 | a string of digits passes the digit filter unchanged |
| SignUp.SanitizeOfficialNumber | src/components/auth/SignUp.tsx:307 | the filtered number is the prefix, of length min(8, digit count), of the input's digits in order: its first eight digits, or all of them when fewer |
| SignUp.SanitizeIdempotent | src/components/auth/SignUp.tsx:307 | filtering an already filtered number changes nothing |
| SignUp.SanitizeFixedPoints | src/components/auth/SignUp.tsx:307 | the filter leaves a value unchanged iff it is at most eight digits |
| SignUp.OfficialNumberInput | src/components/auth/SignUp.tsx:306-309 | the input handler stores the filtered value and touches no other field |
| SignUp.Validate | src/components/auth/SignUp.tsx:41-107 | an unsolved captcha always fails first; a reported error is one whose guard fails; the form passes iff captcha, non-blank phone, matching passwords of at least 6 UTF-16 units and, for government or employee, a non-empty ID and an 8-digit number all hold |
| SignUp.ValidateReportsFirstFailure | src/components/auth/SignUp.tsx:41-105 | the reported error is e iff e's guard fails and every earlier guard holds |
| SignUp.ValidatePassesIff | src/components/auth/SignUp.tsx:41-107 | submission reaches the sign-up call iff no guard fails |
| SignUp.WhitespacePhoneRejected | src/components/auth/SignUp.tsx:50-57 | a whitespace-only phone is rejected once the captcha is solved |
| SignUp.SpaceGovernmentIdAccepted | src/components/auth/SignUp.tsx:78-86 | the ID is only tested for emptiness, so an ID of one space passes |
| SignUp.OtherTypesSkipIdChecks | src/components/auth/SignUp.tsx:78-105 | for any type other than government or employee, no ID guard can report and the ID fields do not affect the result |
| SignUp.SanitizedNumberMatchesIff | src/components/auth/SignUp.tsx:97-104 | a value typed through the input filter matches `^\d{8}$` iff the typed text holds at least eight digits |
| UserPortal.FindCategorySpec | src/components/portals/UserPortal.tsx:69 | `find` returns nothing iff no category has the id, and otherwise the first one that has it |
| UserPortal.CategoryIdsDistinct | src/components/portals/UserPortal.tsx:40-49 | the eight category ids are pairwise distinct |
| UserPortal.CategoriesWellFormed | src/components/portals/UserPortal.tsx:40-49 | every category has a label and no id repeats |
| UserPortal.TitleForSpec | src/components/portals/UserPortal.tsx:69 | the title is the label of a category with the selected id, or "New Complaint" when no category has it |
| UserPortal.TitleForListed | src/components/portals/UserPortal.tsx:69 | in a table with distinct ids, selecting a listed id gives exactly that category's label |
| UserPortal.ComplaintTitleSpec | src/components/portals/UserPortal.tsx:40-69 | in the portal's table, a listed category's label, otherwise "New Complaint" |
| UserPortal.DescriptionAcceptedIff | src/components/portals/UserPortal.tsx:58-65 | the handler accepts a description iff it holds at least 39 space characters |
| UserPortal.ButtonEnabledImpliesAccepted | src/components/portals/UserPortal.tsx:246 | the button's non-empty word count never exceeds the handler's raw piece count, so an enabled button means an accepted description |
| UserPortal.HandlerAcceptsWordlessDescription | src/components/portals/UserPortal.tsx:58-65 | 39 spaces pass the handler's gate while showing zero words |
| UserPortal.ShownComplaintId | src/components/portals/UserPortal.tsx:82 | the shown id is "CC" followed by the last min(6, digit count) digits of the clock reading |
| UserPortal.ShownComplaintIdLength | src/components/portals/UserPortal.tsx:82 | from a reading of 100000 on the id has eight characters; below it the id is "CC" and the whole reading |
| UserPortal.Portal.constructor | src/components/portals/UserPortal.tsx:29-38 | empty form, no category, the shared list as given |
| UserPortal.Portal.SelectCategory | src/components/portals/UserPortal.tsx:51-53 | only the selected category changes |
| UserPortal.Portal.EditField | src/components/portals/UserPortal.tsx:171-222 | one form field changes; the images stay empty |
| UserPortal.Portal.SelectPriority | src/components/portals/UserPortal.tsx:205 | only the form's priority changes |
| UserPortal.Portal.SubmitComplaint | src/components/portals/UserPortal.tsx:55-99 | a rejected description changes nothing; otherwise exactly the new record is appended, the form and category are reset, and the shown id is returned |
| UserPortal.SubmissionAppendsPendingRecord | src/components/portals/UserPortal.tsx:67-79 | the list grows by one, earlier records are unchanged, and the new one is pending, has no images, is at "street, location", and has an id that reads back as the clock value |
| ComplaintHistory.MockTimelinesConsistent | src/components/ComplaintHistory.tsx:24-72 | each sample timeline starts at pending, follows the lifecycle without skips and ends at the record's status; only the resolved record has a resolution date |
| ComplaintHistory.ConsistentStatusIsTimelineLength | src/components/ComplaintHistory.tsx:24-72 | in a consistent record the timeline length fixes the status; resolved iff all four steps are present |
| ComplaintHistory.StatusColorSpec | src/components/ComplaintHistory.tsx:74-82 | the four statuses get four distinct classes, none gray; any other value gets gray |
| ComplaintHistory.PriorityColorSpec | src/components/ComplaintHistory.tsx:84-91 | the three priorities get three distinct classes, none gray; any other value gets gray |
| ComplaintHistory.InProgressLabel | src/components/ComplaintHistory.tsx:118 | "in-progress" is shown as "in progress" |
| ComplaintHistory.StatusLabelSpec | src/components/ComplaintHistory.tsx:225 | only the in-progress badge changes, to "in progress"; the other status names show as they are |
| ComplaintHistory.FilterComplaintsSpec | src/components/ComplaintHistory.tsx:103-108 | the shown list is an order-preserving subsequence; every kept record matches the term and, unless the filter is "all", has the filter's status; every matching record is kept, each value as often as it occurs in the input |
| ComplaintHistory.EmptySearchShowsAll | src/components/ComplaintHistory.tsx:104-106 | with "all" and an empty term every record is shown |
| ComplaintHistory.FilterComplaintsIdempotent | src/components/ComplaintHistory.tsx:103-108 | filtering the filtered list changes nothing |
| ComplaintHistory.SearchIgnoresCase | src/components/ComplaintHistory.tsx:104-105 | a term and its lower-cased form select the same records |
| Chatbot.ResponseFrom | src/components/ChatbotModal.tsx:49-55 | the scan from a position returns the default or one of the responses at or after it |
| Chatbot.GetBotResponse | src/components/ChatbotModal.tsx:46-56 | the loop returns the first-match response of the lower-cased message |
| Chatbot.ResponseFromSpec | src/components/ChatbotModal.tsx:49-53 | the scan returns the response of the first keyword, from its start, that the message includes |
| Chatbot.ResponseFromNoMatch | src/components/ChatbotModal.tsx:55 | when no keyword from the start position occurs, the default is returned |
| Chatbot.FirstKeywordWins | src/components/ChatbotModal.tsx:46-53 | the response is that of the first keyword, in declaration order, in the lower-cased message |
| Chatbot.NoKeywordGivesDefault | src/components/ChatbotModal.tsx:55 | no keyword in the message gives the 'default' response |
| Chatbot.BotResponseIgnoresCase | src/components/ChatbotModal.tsx:47 | a message and its lower-cased form get the same response |
| Chatbot.BotResponseIsPredefined | src/components/ChatbotModal.tsx:34-55 | the response is always one of the nine predefined texts |
| Chatbot.HiBeforeLaterKeywords | src/components/ChatbotModal.tsx:35-53 | a message with "hi" but without "hello" gets the 'hi' response whatever else it contains |
| Chatbot.ThisContainsHi | src/components/ChatbotModal.tsx:35-53 | "this status" contains "status" yet gets the 'hi' response, because "this" contains "hi" |
| Chatbot.ChatDialog.constructor | src/components/ChatbotModal.tsx:22-31 | the log holds only the bot greeting; the input is empty and nobody is typing |
| Chatbot.ChatDialog.SetInput | src/components/ChatbotModal.tsx:164 | only the input changes |
| Chatbot.ChatDialog.SendMessage | src/components/ChatbotModal.tsx:58-70 | a blank input changes nothing; otherwise the untrimmed input is appended as one user message, the input is cleared and typing is shown |
| Chatbot.ChatDialog.DeliverBotReply | src/components/ChatbotModal.tsx:73-83 | the bot's response to the captured text is appended and typing is hidden |
| Captcha.BuildCaptcha | src/components/Captcha.tsx:19-23 | the challenge has six characters, each the alphabet character at its draw, so each is in the 62-character alphabet |
| Captcha.IsVerifiedIff | src/components/Captcha.tsx:84 | the input is accepted iff it has the challenge's length and agrees with it letter by letter up to case |
| Captcha.LowerCasedChallengeVerifies | src/components/Captcha.tsx:84 | the lower-cased challenge is accepted |
| Captcha.SwapCase | src/components/Captcha.tsx:84 | an upper-case letter becomes lower case and a lower-case one upper case, other characters stay, and the lower-case form is kept |
| Captcha.SwapCaseKeepsVerdict | src/components/Captcha.tsx:84 | swapping the case of any one input character keeps the verdict |
| Captcha.CaptchaWidget.constructor | src/components/Captcha.tsx:14-15 | empty challenge and input, not verified |
| Captcha.CaptchaWidget.Generate | src/components/Captcha.tsx:18-28 | a new six-character challenge from the draws; the input is reset and "not verified" is reported |
| Captcha.CaptchaWidget.HandleInputChange | src/components/Captcha.tsx:82-86 | the input is stored and the verdict is the case-insensitive comparison with the challenge |
| Dashboard.RoleKey | src/components/Dashboard.tsx:160 | the role key is empty exactly when nobody is signed in |
| Dashboard.VisibleItemsSpec | src/components/Dashboard.tsx:159-160 | the visible entries are an order-preserving subsequence of the sidebar, each shown to the user, and every entry shown to the user is visible |
| Dashboard.ShownItemsIsFilter | src/components/Dashboard.tsx:159-160 | the one-pass reference agrees with the filter |
| Dashboard.SidebarWithoutPortals | src/components/Dashboard.tsx:49-57 | for the key "" or "user" only the five role-less entries are shown |
| Dashboard.SidebarForGovernment | src/components/Dashboard.tsx:49-57 | for "government", the five role-less entries and the government portal, in order |
| Dashboard.SidebarForEmployee | src/components/Dashboard.tsx:49-57 | for "employee", the five role-less entries and the employee portal, in order |
| Dashboard.NoUserSeesCommonItems | src/components/Dashboard.tsx:159-160 | without a user the sidebar shows only the role-less entries |
| Dashboard.CitizenSeesNoPortal | src/components/Dashboard.tsx:159-160 | a citizen sees neither portal |
| Dashboard.GovernmentSeesOwnPortal | src/components/Dashboard.tsx:159-160 | a government user sees the government portal only |
| Dashboard.EmployeeSeesOwnPortal | src/components/Dashboard.tsx:159-160 | an employee sees the employee portal only |
| Dashboard.RenderContentSpec | src/components/Dashboard.tsx:68-80 | a tab renders something other than the home view iff it is one of the five handled tabs, which render distinct views; "settings" and "dashboard" render the home view |
| Dashboard.CapitalizeWordsSpec | src/components/Dashboard.tsx:190 | `replace(/\b\w/g, toUpperCase)` upper-cases each word start and leaves every other character alone |
| Dashboard.CapitalizeWordsCaseOnly | src/components/Dashboard.tsx:190 | capitalising changes case only and leaves no word start in lower case |
| Dashboard.CapitalizeWord | src/components/Dashboard.tsx:190 | a word is capitalised at its first character only |
| Dashboard.CapitalizeWordsIdempotent | src/components/Dashboard.tsx:190 | capitalising twice equals capitalising once |
| Dashboard.HeaderTitle | src/components/Dashboard.tsx:190 | the header has the tab id's length |
| Dashboard.CapitalizeTwoWords | src/components/Dashboard.tsx:190 | two words joined by a space are both capitalised |
| Dashboard.HyphenatedHeader | src/components/Dashboard.tsx:190 | a tab id "w1-w2" becomes "W1 W2" |
| Dashboard.UserPortalHeader | src/components/Dashboard.tsx:190 | "user-portal" becomes "User Portal" |
| Dashboard.HeaderTitleKeepsLaterHyphens | src/components/Dashboard.tsx:190 | only the first hyphen becomes a space: "a-b-c" becomes "A B-C" |
| Dashboard.DashboardStatusColorSpec | src/components/Dashboard.tsx:59-66 | the home badge agrees with the history badge except on "assigned", which it shows in gray |
| Dashboard.DashboardState.constructor | src/components/Dashboard.tsx:31-32 | the dashboard tab is active and the sidebar is open |
| Dashboard.DashboardState.SelectTab | src/components/Dashboard.tsx:166 | only the active tab changes |
| Dashboard.DashboardState.ToggleSidebar | src/components/Dashboard.tsx:150 | only the sidebar flag flips |
| HelpCenter.Toggled | src/components/HelpCenter.tsx:170 | a click collapses all iff it hits the open FAQ, and otherwise opens exactly the clicked one |
| HelpCenter.ToggleTwice | src/components/HelpCenter.tsx:170 | two clicks on one FAQ restore the state iff nothing or that FAQ was open |
| HelpCenter.OpenCountSpec | src/components/HelpCenter.tsx:173-179 | among distinct ids, one FAQ renders open when the state names one of them, none otherwise |
| HelpCenter.AtMostOneFaqOpen | src/components/HelpCenter.tsx:166-179 | at most one of the five FAQs is open, and a click that opens one opens exactly one |
| HelpCenter.UpdateContact | src/components/HelpCenter.tsx:235-266 | a contact input sets its field and keeps the others |
| HelpCenter.HelpCenterState.constructor | src/components/HelpCenter.tsx:21-28 | nothing expanded, empty chat box and contact form |
| HelpCenter.HelpCenterState.ToggleFaq | src/components/HelpCenter.tsx:170 | the expanded slot is toggled; nothing else changes |
| HelpCenter.HelpCenterState.SetChatMessage | src/components/HelpCenter.tsx:211 | only the chat box changes |
| HelpCenter.HelpCenterState.ChatSubmit | src/components/HelpCenter.tsx:73-78 | a blank message changes nothing; otherwise the box is cleared |
| HelpCenter.HelpCenterState.EditContact | src/components/HelpCenter.tsx:235-266 | only the edited contact field changes |
| HelpCenter.HelpCenterState.ContactSubmit | src/components/HelpCenter.tsx:66-71 | all four contact fields are reset |
| Settings.InitialForm | src/components/SettingsModal.tsx:27-32 | the form starts from the user's fields, with "" for absent ones or without a user |
| Settings.Merge | src/components/SettingsModal.tsx:36-39 | saving overrides name, email, phone and address and keeps id, type and birth date |
| Settings.InitialFormOfMerge | src/components/SettingsModal.tsx:27-39 | reopening the form on the saved user shows what was saved |
| Settings.MergeIdempotent | src/components/SettingsModal.tsx:36-39 | saving the same form twice equals saving it once |
| Settings.SaveUntouchedIff | src/components/SettingsModal.tsx:27-39 | saving the untouched form gives back the user iff the user has a phone and an address |
| Settings.UpdateSetting | src/components/SettingsModal.tsx:69-98 | an input sets its field and keeps the others |
| Settings.SettingsModal.constructor | src/components/SettingsModal.tsx:27-32 | the form is seeded from the user at mount |
| Settings.SettingsModal.Edit | src/components/SettingsModal.tsx:69-98 | only the form changes |
| Settings.SettingsModal.Save | src/components/SettingsModal.tsx:34-48 | with a user, the user becomes the merged record; without one it stays absent; the dialog closes |
| Settings.SettingsModal.Cancel | src/components/SettingsModal.tsx:172 | the dialog closes and the user is unchanged |
| EmployeePortal.UrgencyBands | src/components/portals/EmployeePortal.tsx:53-57 | red iff at most one day left, yellow iff two or three, green iff more; the bands are disjoint and cover all integers |
| EmployeePortal.UrgencyMonotone | src/components/portals/EmployeePortal.tsx:53-57 | more days left never reads as more urgent |
| EmployeePortal.DaysLeftLabelSpec | src/components/portals/EmployeePortal.tsx:158 | "Overdue" iff no day is left; otherwise the decimal count followed by " days left" |
| EmployeePortal.LastDayIsRedButNotOverdue | src/components/portals/EmployeePortal.tsx:155-158 | one day left is red but not overdue |
| EmployeePortal.TaskPriorityColorIsHistoryColor | src/components/portals/EmployeePortal.tsx:44-51 | the task priority badge equals the history view's for every input |

## Left out

- I/O: the Supabase sign-up and profile update in `SignUp.tsx` and the sign-in form. The model stops where `handleSubmit` would call the service (`Validate` returns `Pass`).
- Toasts, JSX rendering, icons, routing and the scroll effect of the chat dialog: user interface only.
- `drawCaptcha` and the canvas noise: graphics. The random draws of `generateCaptcha` are an input sequence of six indices below 62, so `Math.random` itself is not modelled.
- The clock. `Date.now()` and `new Date()` readings are parameters. The ISO creation date is an opaque string.
- The timer of the chat reply. `DeliverBotReply` is the callback's effect once it fires. The model does not enforce that a reply follows each sent message.
- `GovernmentPortal.tsx`, `NotificationModal.tsx`, `ProfileModal.tsx`: static mock data and handlers that only log. No complaint lifecycle engine exists in the code, so none is modelled. `handleMarkComplete` and `handleUploadProof` of the employee portal only log.
- The employee portal's mock tasks and the dashboard's statistics and recent-complaint table: static display data. Only the dashboard's badge colour function is modelled.
- The help centre's FAQ texts and emergency numbers: display data. The FAQ ids 1 to 5 are kept.
- `getStatusIcon` and the history detail view's layout: display only.
- `UserContext` provider plumbing: only its types are used.
- The settings dialog's theme, notification, language and auto-save switches: the theme comes from a context that is not part of this model, and the switches change nothing else.
- `console.log` calls in the help centre handlers: output only.
- Browser-side `required` and `maxLength` checks on inputs: the browser enforces them, not the handlers. The handlers are modelled as written.
- `Text.Lower`, `Text.UpperChar`: case mapping is restricted to ASCII. JavaScript's `toLowerCase` and `toUpperCase` also map non-ASCII letters.
- `EmployeePortal.UrgencyColor`: `daysLeft` is an integer. JavaScript numbers are floating-point, but the data only holds whole days.
- `Settings.SettingsModal.constructor`: the form is seeded from the user only once, at mount. Later changes to the user do not re-seed it. This is how `useState` behaves, and the model keeps that.
- `UserPortal.SubmissionAppendsPendingRecord`: the title is not restated here. `ComplaintTitleSpec` states it for the portal's table.
- `Chatbot.ChatDialog.SendMessage`: the send button is disabled while the bot is typing, but the Enter key calls the handler regardless. The model follows the handler, which has no typing check.

## Notes on the source

- The portal's submit handler counts `split(' ')` pieces, empty ones included. The button and the on-screen counter count only non-empty pieces. So the handler alone would accept 39 spaces (`HandlerAcceptsWordlessDescription`). The button hides this.
- Only the first hyphen of a tab id becomes a space in the header (`HeaderTitleKeepsLaterHyphens`). No sidebar id has two hyphens.
- Saving the settings form turns an absent phone or address into the empty string (`SaveUntouchedIff`).
- The home view's `getStatusColor` has no "assigned" case (`DashboardStatusColorSpec`).
- The chatbot matches keywords as substrings, in declaration order. "this" therefore triggers the "hi" response (`ThisContainsHi`).
