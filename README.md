# droid-notify core, modelled in Dafny

Droid Notify is an Android application that shows incoming SMS, MMS, missed
calls, calendar events and social-network notifications in a popup over the
lock screen. This project models five self-contained pieces of its logic and
proves properties about them:

- **Calendar multi-select preference** (`calendar_list_preference.dfy`). A
  selection is stored as the `|`-joined ids of the ticked calendars and
  restored into the tick array in place. The list of calendars to offer
  travels as `id|name,id|name`. Both encodings come with round-trip lemmas.
  The empty-selection edge case is proved too: the empty selection is stored
  as `""`, and `""` restores with every entry ticked.
- **Preference import and reset** (`preference_import.dfy`). `key|value|type`
  lines are staged in an editor and committed once after the last line. The
  model covers skip rules, case-insensitive type dispatch, last-write-wins
  and the rule that a malformed int or long applies nothing.
- **Notification activity** (`notification_activity.dfy`). This part has a
  state side and a policy side:
  - State: the wake-lock and keyguard handles, the one-pending-message
    handlers and the view flipper (seen as the calls it receives).
  - Policies: delete confirmation, activity results, context menu, swipe
    direction, missed-call and unread-SMS loading, and phone-number labels.
- **Popup views** (`quick_reply_view.dfy`). The button setup overwrites the
  visibilities of the ten action buttons (five text, five image) step by
  step. The model proves that the result equals a visibility table over
  notification type, subtype, button style and preferences. The content
  views of `populateViewInfo` and `setNotificationMessage` are modelled the
  same way. Two overrides in the source are modelled as written:
  - In icon-only style, an SMS or MMS never shows its reply image button.
  - A Facebook popup with number display on keeps its number view VISIBLE,
    although it has no number text.
- **Receivers** (`receivers.dfy`). `SMSReceiver` either starts the service
  or sets a one-minute alarm. `MMSAlarmReceiver` has these parts:
  - enable checks and the block decision;
  - the optional status-bar entry read from the stored MMS record;
  - the ignore action;
  - rescheduling, where a zero interval switches rescheduling off in the
    store.

Two support modules hold library behaviour the core relies on:

- `java_text.dfy` models Java's `split("\\|")` (trailing empty strings
  dropped), `trim`, ASCII `toLowerCase`/`equalsIgnoreCase`,
  `Integer.parseInt`/`Long.parseLong` and `String.valueOf(long)`. A parse
  failure is `None`.
- `preferences.dfy` models `SharedPreferences` as a map and its `Editor`. A
  commit applies a requested clear first, then the staged puts.

Inputs from the platform are parameters:

- cursor rows are sequences;
- the call state, the clock readings, the storage state and whether the
  file exists are values;
- whether a blocking app runs and the MMS record on disk are values;
- the formatted phone number is a value.

## Model

| member | source | states |
|---|---|---|
| CalendarListPreference.ParseStoredValue | src/apps/droidnotify/preferences/SelectCalendarListPreference.java:142-151 | null or "" gives null; any other value gives exactly its `|`-split fields |
| CalendarListPreference.MarkTokensAt | src/apps/droidnotify/preferences/SelectCalendarListPreference.java:160-172 | after the nested loops, entry i is ticked iff it was ticked before or it is the first entry equal to some trimmed stored token |
| CalendarListPreference.MentionedDistinct | src/apps/droidnotify/preferences/SelectCalendarListPreference.java:163-170 | with distinct entry values and trimmed tokens, entry i is picked iff its value is one of the tokens |
| CalendarListPreference.NothingStoredTicksAll | src/apps/droidnotify/preferences/SelectCalendarListPreference.java:173-178 | with nothing stored (null or ""), every entry of the array is ticked |
| CalendarListPreference.SelectedMembers | src/apps/droidnotify/preferences/SelectCalendarListPreference.java:195-201 | a value is in the selection iff some ticked entry has that value |
| CalendarListPreference.EncodedSelectionIsJoin | src/apps/droidnotify/preferences/SelectCalendarListPreference.java:193-202 | the StringBuffer loop yields the ticked values joined by `|` with no leading or trailing separator; it is "" iff nothing is ticked |
| CalendarListPreference.SelectionParses | src/apps/droidnotify/preferences/SelectCalendarListPreference.java:146-202 | a non-empty stored selection over storable values splits back into exactly the ticked values, in entry order |
| CalendarListPreference.SelectionMarks | src/apps/droidnotify/preferences/SelectCalendarListPreference.java:163-176 | marking the ticked values of distinct, trimmed entries on an all-false array gives back the ticks |
| CalendarListPreference.SelectionRoundTrip | src/apps/droidnotify/preferences/SelectCalendarListPreference.java:146-202 | storing a non-empty selection over non-empty, `|`-free, trimmed, distinct values and restoring it into a fresh array gives back the same selection |
| CalendarListPreference.EmptySelectionRestoresAll | src/apps/droidnotify/preferences/SelectCalendarListPreference.java:146-202 | an empty selection is stored as "" and restores with every entry ticked |
| CalendarListPreference.Descriptors | src/apps/droidnotify/preferences/SelectCalendarListPreference.java:232-243 | there are no more descriptors than rows, and each contains the `|` separator |
| CalendarListPreference.DescribedRowsOffered | src/apps/droidnotify/preferences/SelectCalendarListPreference.java:232-243 | each descriptor is `id|name` of some offered row |
| CalendarListPreference.OfferedRowsDescribed | src/apps/droidnotify/preferences/SelectCalendarListPreference.java:232-243 | every offered row has its `id|name` descriptor in the list |
| CalendarListPreference.DescriptorsInOrder | src/apps/droidnotify/preferences/SelectCalendarListPreference.java:232-243 | the k-th descriptor is the id, a `|` and the name of the k-th offered calendar, one per offered calendar, in cursor order |
| CalendarListPreference.DescriptorsEmpty | src/apps/droidnotify/preferences/SelectCalendarListPreference.java:232-243 | there are no descriptors iff no row has a selected column other than "0" |
| CalendarListPreference.CalendarsInfo | src/apps/droidnotify/preferences/SelectCalendarListPreference.java:214-255 | the calendar list is null iff no row is offered |
| CalendarListPreference.ParseParts | src/apps/droidnotify/preferences/SelectCalendarListPreference.java:113-117 | a successful parse yields parallel value and name lists, one element per `,`-part |
| CalendarListPreference.ParsePartsFailureSticks | src/apps/droidnotify/preferences/SelectCalendarListPreference.java:113-117 | once a part lacks its name field, parsing the whole list fails |
| CalendarListPreference.ParseDescriptors | src/apps/droidnotify/preferences/SelectCalendarListPreference.java:113-117 | parsing the descriptors of describable rows gives the ids and names of the offered rows in cursor order |
| CalendarListPreference.CalendarListRoundTrip | src/apps/droidnotify/preferences/SelectCalendarListPreference.java:110-117 | parsing the list built by getAvailableCalendars gives back the ids and names of the offered calendars, in order |
| CalendarListPreference.SelectCalendarListPreference.constructor | src/apps/droidnotify/preferences/SelectCalendarListPreference.java:38 | the preference starts with no entries, no entry values, an empty tick array and its stored value; Java starts the tick array as null |
| CalendarListPreference.SelectCalendarListPreference.SetEntries | src/apps/droidnotify/preferences/SelectCalendarListPreference.java:78-82 | a fresh all-false tick array as long as the entries; nothing else changes |
| CalendarListPreference.SelectCalendarListPreference.SetEntryValues | src/apps/droidnotify/preferences/SelectCalendarListPreference.java:90-94 | a fresh all-false tick array as long as the entry values; nothing else changes |
| CalendarListPreference.SelectCalendarListPreference.TickFirstMatch | src/apps/droidnotify/preferences/SelectCalendarListPreference.java:164-171 | the inner loop ticks the first entry equal to the trimmed token, if any, and nothing else |
| CalendarListPreference.SelectCalendarListPreference.RestoreCheckedEntries | src/apps/droidnotify/preferences/SelectCalendarListPreference.java:156-180 | the tick array becomes the restored selection for the stored value, updated in place |
| CalendarListPreference.SelectCalendarListPreference.OnClick | src/apps/droidnotify/preferences/SelectCalendarListPreference.java:125-127 | exactly the tapped entry takes the new checked state |
| CalendarListPreference.SelectCalendarListPreference.OnDialogClosed | src/apps/droidnotify/preferences/SelectCalendarListPreference.java:189-207 | on OK with entry values and an accepting listener, the stored value becomes the encoded selection; otherwise it is unchanged |
| CalendarListPreference.SelectCalendarListPreference.GetAvailableCalendars | src/apps/droidnotify/preferences/SelectCalendarListPreference.java:214-255 | the loop builds the calendar list; it is null iff every row's selected column is "0" |
| CalendarListPreference.SelectCalendarListPreference.ParseCalendars | src/apps/droidnotify/preferences/SelectCalendarListPreference.java:110-117 | the loop yields the parsed calendar list, with parallel value and name lists |
| CalendarListPreference.SelectCalendarListPreference.OnPrepareDialogBuilder | src/apps/droidnotify/preferences/SelectCalendarListPreference.java:103-129 | no calendars, or a part without a name field: nothing changes; otherwise entries and values are set and the ticks restored |
| PreferenceImport.ParseBoolean | src/apps/droidnotify/preferences/AdvancedPreferenceActivity.java:351 | a boolean value is true iff it is four characters long and spells t, r, u, e, each in either case; any other text is false |
| PreferenceImport.FieldsEffectCases | src/apps/droidnotify/preferences/AdvancedPreferenceActivity.java:348-363 | under 3 fields: skip; string: stored verbatim; boolean: case-insensitive "true"; an unparsable int or long throws; an unknown type word: skip |
| PreferenceImport.StageLine | src/apps/droidnotify/preferences/AdvancedPreferenceActivity.java:348-363 | one line stages the put its effect names (none for a skipped line) and throws exactly when its effect is malformed; a pending clear is untouched |
| PreferenceImport.ImportApplicationPreferences | src/apps/droidnotify/preferences/AdvancedPreferenceActivity.java:323-371 | unmounted storage or a missing file returns false with no change; a throwing line applies nothing; an IOException on opening or reading the file returns false with no change; otherwise the staged puts are committed once and true is returned |
| PreferenceImport.ResetPreferences | src/apps/droidnotify/preferences/AdvancedPreferenceActivity.java:184-186 | every preference is removed |
| PreferenceImport.MalformedLineThrows | src/apps/droidnotify/preferences/AdvancedPreferenceActivity.java:354-357 | one malformed int or long anywhere in the file makes the whole import throw before the commit |
| PreferenceImport.SkippedLineChangesNothing | src/apps/droidnotify/preferences/AdvancedPreferenceActivity.java:349-363 | a skipped line leaves the staged values unchanged |
| PreferenceImport.ShortOrUnknownLineSkipped | src/apps/droidnotify/preferences/AdvancedPreferenceActivity.java:349-363 | a line with fewer than three fields, or an unknown type in any case, is skipped |
| PreferenceImport.ExtraFieldsIgnored | src/apps/droidnotify/preferences/AdvancedPreferenceActivity.java:348-360 | `key|value|type|extra...` acts as `key|value|type'` for any case variant type' of type, whatever the extra fields, empty ones included; an empty type skips on both sides |
| PreferenceImport.DroppedFieldsEffect | src/apps/droidnotify/preferences/AdvancedPreferenceActivity.java:348-363 | a line split into three or more pieces acts as its first three, and skips when the type piece is empty, whether `split` drops it or keeps it |
| PreferenceImport.LaterLineWins | src/apps/droidnotify/preferences/AdvancedPreferenceActivity.java:347-364 | a put line overwrites the staged value of its key |
| PreferenceImport.StagedKeys | src/apps/droidnotify/preferences/AdvancedPreferenceActivity.java:347-364 | a key is staged iff some line of the file puts it |
| PreferenceImport.StagedValueIsLastPut | src/apps/droidnotify/preferences/AdvancedPreferenceActivity.java:347-364 | the staged value of a key is the one of the last line that puts it |
| PreferenceImport.ImportedKeys | src/apps/droidnotify/preferences/AdvancedPreferenceActivity.java:365 | after a successful import a key is present iff it was present before or some line puts it |
| NotificationActivity.DeleteDecision | src/apps/droidnotify/NotificationActivity.java:529-559 | SMS/MMS with delete action "2" delete at once; otherwise confirm iff the confirm preference is on, else delete; other types do nothing |
| NotificationActivity.DeleteConfirmedByDefault | src/apps/droidnotify/NotificationActivity.java:529-559 | with no preferences set, deleting an SMS or MMS asks for confirmation |
| NotificationActivity.ErrorKindOf | src/apps/droidnotify/NotificationActivity.java:614-783 | each request code maps to the contacts, messaging, phone or calendar error toast |
| NotificationActivity.ActivityResultAction | src/apps/droidnotify/NotificationActivity.java:614-783 | a known request code with RESULT_OK or RESULT_CANCELED removes the active notification; another result code gives the error toast of its kind; an unknown request code does nothing |
| NotificationActivity.VisibleMenuItems | src/apps/droidnotify/NotificationActivity.java:231-277 | each context-menu item is kept iff its condition on the type and the contact's existence holds |
| NotificationActivity.MenuHeaderTitle | src/apps/droidnotify/NotificationActivity.java:220-228 | the menu header is the contact name when a contact exists, else the sender address (non-calendar types) |
| NotificationActivity.SwipeDecision | src/apps/droidnotify/NotificationActivity.java:587-596 | next iff the delta is negative beyond twice the touch slop; previous iff it is positive beyond it |
| NotificationActivity.SwipeMirror | src/apps/droidnotify/NotificationActivity.java:587-596 | reversing the delta reverses the swipe direction |
| NotificationActivity.ParseMissedCall | src/apps/droidnotify/NotificationActivity.java:1036-1039 | an entry that parses has at least two fields and gives a missed call whose number is the first field |
| NotificationActivity.LoadMissedCalls | src/apps/droidnotify/NotificationActivity.java:1035-1042 | the loop adds at most one notification per entry and completes iff it adds one for every entry |
| NotificationActivity.LoadedCallsParse | src/apps/droidnotify/NotificationActivity.java:1035-1041 | the k-th added notification is the parse of the k-th entry |
| NotificationActivity.MissedCallsLoadAll | src/apps/droidnotify/NotificationActivity.java:1035-1042 | when every entry parses, the loop completes and adds one notification per entry |
| NotificationActivity.MissedCallsStop | src/apps/droidnotify/NotificationActivity.java:1035-1041 | an entry that throws stops the loading there |
| NotificationActivity.MissedCallsRoundTrip | src/apps/droidnotify/NotificationActivity.java:1035-1041 | entries written as `number|timestamp` load back as the same missed calls, in list order |
| NotificationActivity.MissedCallEntryParses | src/apps/droidnotify/NotificationActivity.java:1036-1038 | one `number|timestamp` entry parses back to its number and timestamp |
| NotificationActivity.UnreadNotifications | src/apps/droidnotify/NotificationActivity.java:1073-1098 | at most one notification per unread row |
| NotificationActivity.UnreadNotificationsMembers | src/apps/droidnotify/NotificationActivity.java:1091-1094 | a notification is added iff some row with an id other than the filter id and a trimmed body other than the filter body produces it |
| NotificationActivity.PhoneTypeLabel | src/apps/droidnotify/NotificationActivity.java:1577-1666 | a custom type uses its label; unknown types get "No Label: "; every built-in label ends in ": " |
| NotificationActivity.ContactPhoneNumbers | src/apps/droidnotify/NotificationActivity.java:1573-1674 | every number is prefixed by its type label, in cursor order; null iff some type does not parse |
| NotificationActivity.PhoneNumbersStop | src/apps/droidnotify/NotificationActivity.java:1573-1674 | a type that does not parse makes the whole result null |
| NotificationActivity.AddressAsPhoneNumbers | src/apps/droidnotify/NotificationActivity.java:1675-1681 | without a contact, the result is the one-element array of the address when it has no `@`, else null |
| NotificationActivity.Activity.GetPhoneNumbers | src/apps/droidnotify/NotificationActivity.java:1557-1682 | the contact branch or the address branch, as the contact exists or not |
| NotificationActivity.NewWakeLock | src/apps/droidnotify/NotificationActivity.java:1155-1168 | the lock causes wakeup iff the screen preference is on, and is dim iff both screen preferences are on |
| NotificationActivity.TimeoutMillis | src/apps/droidnotify/NotificationActivity.java:854-858 | a timeout exists iff the stored seconds parse as a long, and it is a long |
| NotificationActivity.TimeoutDefault | src/apps/droidnotify/NotificationActivity.java:854-858 | an unset timeout is 300 seconds, 300000 ms; a setting that does not overflow is the seconds times 1000 |
| NotificationActivity.DelayedHandler.Sleep | src/apps/droidnotify/NotificationActivity.java:1427-1431 | the queue holds exactly the message of the last call |
| NotificationActivity.DelayedHandler.Deliver | src/apps/droidnotify/NotificationActivity.java:1417-1420 | delivering takes the queued message off |
| NotificationActivity.Activity.AcquireWakeLock | src/apps/droidnotify/NotificationActivity.java:1150-1178 | a lock is created only when none is held; the lock ends held and not reference-counted |
| NotificationActivity.Activity.ReleaseWakeLock | src/apps/droidnotify/NotificationActivity.java:1183-1193 | the handle is released and dropped; a second call does nothing |
| NotificationActivity.Activity.DisableKeyguardLock | src/apps/droidnotify/NotificationActivity.java:1201-1219 | a keyguard handle always exists afterwards; the keyguard is disabled when keyguard_enabled is on (default on), and a disabled one stays disabled |
| NotificationActivity.Activity.ReenableKeyguardLock | src/apps/droidnotify/NotificationActivity.java:1224-1234 | the handle is re-enabled and dropped; a second call does nothing |
| NotificationActivity.Activity.ArmReleaseTimers | src/apps/droidnotify/NotificationActivity.java:853-859 | acquire the wake lock, queue its release after the timeout, disable the keyguard, queue its re-enable |
| NotificationActivity.Activity.OnWakeLockTimeout | src/apps/droidnotify/NotificationActivity.java:1417-1420 | the pending message releases the wake lock |
| NotificationActivity.Activity.OnKeyguardTimeout | src/apps/droidnotify/NotificationActivity.java:1448-1451 | the pending message re-enables the keyguard |
| NotificationActivity.Activity.OnResume | src/apps/droidnotify/NotificationActivity.java:876-881 | the wake lock is held afterwards |
| NotificationActivity.Activity.OnPause | src/apps/droidnotify/NotificationActivity.java:887-891 | the wake lock is released |
| NotificationActivity.Activity.OnDestroy | src/apps/droidnotify/NotificationActivity.java:906-911 | the wake lock is released and the keyguard re-enabled |
| NotificationActivity.Activity.OnActivityResult | src/apps/droidnotify/NotificationActivity.java:614-783 | the flipper loses its active notification exactly once when the result rule says so, and never otherwise; the toast follows the error kind |
| NotificationActivity.Activity.DispatchTouchEvent | src/apps/droidnotify/NotificationActivity.java:577-601 | a down event records x; an up event after a down flips by the swipe rule, is consumed when it swipes and is passed on otherwise; an up with no down ends as the null dereference |
| NotificationActivity.Activity.SetupMissedCalls | src/apps/droidnotify/NotificationActivity.java:1032-1043 | the flipper receives the missed calls in list order, up to the first entry that throws |
| NotificationActivity.Activity.LoadUnreadSms | src/apps/droidnotify/NotificationActivity.java:1067-1101 | the flipper receives the filtered unread messages, in cursor order |
| QuickReplyView.ButtonBar.constructor | src/apps/droidnotify/QuickReplyView.java:141-186 | both rows and all ten buttons start visible |
| QuickReplyView.ButtonBar.SetButton | src/apps/droidnotify/QuickReplyView.java:489-498 | one button of one row takes the given visibility; all else is unchanged |
| QuickReplyView.ButtonBar.SetupViewButtons | src/apps/droidnotify/QuickReplyView.java:473-537 | the row of the chosen style is shown and the other hidden; both rows end equal to the visibility table |
| QuickReplyView.ButtonBar.SetupViewPhoneButtons | src/apps/droidnotify/QuickReplyView.java:544-628 | from all hidden, the phone buttons follow the table |
| QuickReplyView.ButtonBar.SetupViewSmsButtons | src/apps/droidnotify/QuickReplyView.java:636-784 | from all hidden, the SMS/MMS buttons follow the table, including the hidden reply image button |
| QuickReplyView.ButtonBar.SetupViewCalendarButtons | src/apps/droidnotify/QuickReplyView.java:791-875 | from all hidden, the calendar buttons follow the table |
| QuickReplyView.ButtonBar.SetupViewTwitterButtons | src/apps/droidnotify/QuickReplyView.java:882-1058 | from all hidden, the Twitter buttons follow the table and its subtype exclusions |
| QuickReplyView.ButtonBar.SetupViewFacebookButtons | src/apps/droidnotify/QuickReplyView.java:1065-1195 | from all hidden, the Facebook buttons follow the table and its subtype exclusions |
| QuickReplyView.SmsButtonStates | src/apps/droidnotify/QuickReplyView.java:636-784 | in its active row an SMS or MMS shows dismiss and delete as their preferences say, reply only in the text row, and never call or view; nothing when the count action does not parse |
| QuickReplyView.TwitterButtonStates | src/apps/droidnotify/QuickReplyView.java:882-1058 | Twitter shows dismiss; delete except for mentions and follower requests; reply except for follower requests; view except for direct messages; never call |
| QuickReplyView.FacebookButtonStates | src/apps/droidnotify/QuickReplyView.java:1065-1195 | Facebook shows dismiss and view; reply except for notifications and friend requests; never delete or call |
| QuickReplyView.ButtonBar.SetupViewK9Buttons | src/apps/droidnotify/QuickReplyView.java:1202-1316 | from all hidden, the K-9 buttons follow the table |
| QuickReplyView.InactiveRowShowsNothing | src/apps/droidnotify/QuickReplyView.java:479-498 | no button of the row of the other style is ever visible |
| QuickReplyView.GmailShowsNoButtons | src/apps/droidnotify/QuickReplyView.java:489-519 | a GMAIL popup shows no action button |
| QuickReplyView.UnparsableCountActionHidesAll | src/apps/droidnotify/QuickReplyView.java:500-535 | a count-action preference that is not an int leaves every button hidden |
| QuickReplyView.TwitterSubtypeHides | src/apps/droidnotify/QuickReplyView.java:917-1033 | delete hidden for mentions and follower requests, reply for follower requests, view for direct messages, whatever the preferences |
| QuickReplyView.FacebookHides | src/apps/droidnotify/QuickReplyView.java:1065-1195 | Facebook never shows delete or call, and hides reply for notifications and friend requests |
| QuickReplyView.SmsIconReplyHidden | src/apps/droidnotify/QuickReplyView.java:721-733 | in icon-only style the SMS/MMS reply image button stays hidden even with its preference on, while the text reply follows the preference |
| QuickReplyView.ActiveRowFollowsPreferences | src/apps/droidnotify/QuickReplyView.java:544-1316 | in the active row a button is visible iff its type offers it and its display preference is on (default on) |
| QuickReplyView.Title | src/apps/droidnotify/QuickReplyView.java:1455-1458 | a missing or empty title becomes "No Title"; any other title is kept |
| QuickReplyView.NumberText | src/apps/droidnotify/QuickReplyView.java:1500-1517 | addresses with `@` and Twitter addresses are shown raw; Facebook without `@` sets no text; other types show the formatted number |
| QuickReplyView.NumberTextByType | src/apps/droidnotify/QuickReplyView.java:1500-1517 | without `@`: Twitter raw, Facebook nothing, every other type formatted |
| QuickReplyView.BodyVisibility | src/apps/droidnotify/QuickReplyView.java:1537-1574 | GMAIL leaves the body as it was; phone and MMS hide it; the other types follow their display preference |
| QuickReplyView.ContactNameHiddenIff | src/apps/droidnotify/QuickReplyView.java:1477-1498 | the name is hidden iff its display preference is off, or hide-unknown is on and the name is the unknown-name string; shown with default preferences |
| QuickReplyView.ContentViews.constructor | src/apps/droidnotify/QuickReplyView.java:141-186 | every content view starts visible and empty |
| QuickReplyView.ContentViews.PopulateViewInfo | src/apps/droidnotify/QuickReplyView.java:1452-1586 | completes iff the max-lines preference parses and, for a non-calendar popup showing photos, the photo-background one does; nothing changes when max lines does not parse; on completion the max lines is the parsed value, the header views are `PopulatedHeader` of the old ones, and the body and MMS-link views follow the type; the photo load starts iff it completes for a non-calendar popup showing photos |
| QuickReplyView.ContentViews.PopulateHeaderViews | src/apps/droidnotify/QuickReplyView.java:1463-1535 | the type split leaves the header views at `PopulatedHeader` of the old ones; a calendar popup also sets the body view; it fails iff the photo-background preference is read and does not parse |
| QuickReplyView.ContentViews.PopulateBodyViews | src/apps/droidnotify/QuickReplyView.java:1536-1586 | the body and MMS-link views per type, then the body text and its alignment |
| QuickReplyView.PopulatedHeaderShows | src/apps/droidnotify/QuickReplyView.java:1463-1533 | a calendar popup shows its title and hides number, photo and progress; otherwise the name is visible iff `ShowsContactName`, the number view iff numbers are displayed, and photo and progress are hidden when photos are not displayed |
| QuickReplyView.FacebookNumberStaysVisible | src/apps/droidnotify/QuickReplyView.java:1500-1517 | with numbers displayed, a Facebook popup without `@` in its address ends with the number view VISIBLE and its text unchanged |
| QuickReplyView.ContentViews.PopulateCalendarViews | src/apps/droidnotify/QuickReplyView.java:1464-1475 | a calendar popup shows the title as the name and hides number, photo and progress |
| QuickReplyView.ContentViews.PopulateContactViews | src/apps/droidnotify/QuickReplyView.java:1477-1533 | name, number and photo views follow their preferences; the photo background preference must parse |
| QuickReplyView.ContentViews.ShowContactName | src/apps/droidnotify/QuickReplyView.java:1478-1498 | the name view is visible iff `ShowsContactName`, and then holds the contact name |
| QuickReplyView.ContentViews.ShowContactNumber | src/apps/droidnotify/QuickReplyView.java:1499-1517 | the number view is visible iff numbers are displayed; its text is the number text for the type, or unchanged when there is none |
| QuickReplyView.ContentViews.ShowContactPhoto | src/apps/droidnotify/QuickReplyView.java:1518-1533 | with photos on, the frame follows the parsed background (1 Froyo, 2 Gingerbread, else white) and an unparsable one fails; with photos off, photo and progress are hidden |
| QuickReplyView.ContentViews.SetBodyVisibility | src/apps/droidnotify/QuickReplyView.java:1537-1574 | the body and MMS-link visibilities per type and preference |
| QuickReplyView.NotificationText | src/apps/droidnotify/QuickReplyView.java:1618-1663 | a missed call reads "Missed Call!"; every other type shows the message body |
| QuickReplyView.ContentViews.SetNotificationMessage | src/apps/droidnotify/QuickReplyView.java:1618-1663 | the body text is the notification text and is centred iff the align preference is on |
| QuickReplyView.ContactPhotoPlaceholder | src/apps/droidnotify/QuickReplyView.java:1864-1903 | index 1..11 gives picture index; any other index gives picture 1 |
| Receivers.RescheduleActionStamp | src/apps/droidnotify/SMSReceiver.java:61 | the reschedule action keeps its prefix and the stamped time reads back from it |
| Receivers.SmsReceive | src/apps/droidnotify/SMSReceiver.java:46-66 | exactly one effect: a service start iff the call state is idle, else one alarm for SMSAlarmReceiver at now + 60000; the extras are forwarded unchanged |
| Receivers.SmsAlarmStamped | src/apps/droidnotify/SMSReceiver.java:59-64 | the deferred intent's action is the SMS reschedule prefix followed by the time it was deferred at |
| Receivers.ParseMmsRecord | trunk/src/apps/droidnotify/MMSAlarmReceiver.java:80-91 | five fields: address and body, no name; seven or more: the seventh field is the name; otherwise the read throws |
| Receivers.MmsRecordWithoutName | trunk/src/apps/droidnotify/MMSAlarmReceiver.java:84-86 | a five-field record reads back its address and body with no name |
| Receivers.MmsRecordWithName | trunk/src/apps/droidnotify/MMSAlarmReceiver.java:87-91 | a record of seven or more fields reads back its address, body and name |
| Receivers.RescheduleInterval | trunk/src/apps/droidnotify/MMSAlarmReceiver.java:100 | the interval exists iff the minutes parse as a long; without overflow it is minutes times 60000 |
| Receivers.DefaultIntervalIsFiveMinutes | trunk/src/apps/droidnotify/MMSAlarmReceiver.java:100 | the default "5" is 300000 ms |
| Receivers.StatusBarEffects | trunk/src/apps/droidnotify/MMSAlarmReceiver.java:76-94 | at most one status-bar entry, and nothing else |
| Receivers.MmsOnReceive | trunk/src/apps/droidnotify/MMSAlarmReceiver.java:41-116 | the outcome, the effects in order and the new store are those of the receive rule |
| Receivers.PostStatusBar | trunk/src/apps/droidnotify/MMSAlarmReceiver.java:76-94 | the status-bar step shows the entry of the stored record, or throws on a malformed one |
| Receivers.Reschedule | trunk/src/apps/droidnotify/MMSAlarmReceiver.java:100-114 | the outcome, effects and new store are those of the rescheduling tail of the receive rule, applied to the effects so far |
| Receivers.DisabledDoesNothing | trunk/src/apps/droidnotify/MMSAlarmReceiver.java:46-54 | with the app or MMS notifications disabled, nothing happens |
| Receivers.UnblockedStartsServiceOnce | trunk/src/apps/droidnotify/MMSAlarmReceiver.java:57-73 | not blocked: exactly one service start, no alarm, no status-bar entry, no store change |
| Receivers.BlockedNeverStartsService | trunk/src/apps/droidnotify/MMSAlarmReceiver.java:57-114 | blocked: no service start, and an alarm comes only last, after any status-bar entry |
| Receivers.IgnoreSetsNoAlarm | trunk/src/apps/droidnotify/MMSAlarmReceiver.java:96-98 | blocked with the ignore action: no alarm and no store change |
| Receivers.BadIntervalCrashes | trunk/src/apps/droidnotify/MMSAlarmReceiver.java:100 | blocked, not ignored, with an unparsable interval: onReceive throws |
| Receivers.ReschedulePath | trunk/src/apps/droidnotify/MMSAlarmReceiver.java:44-114 | enabled, blocked, status bar posted, action not "ignore" and rescheduling on: the result is the status-bar effects with the store switched off for a zero interval, or with one alarm at now + interval appended |
| Receivers.RescheduleRule | trunk/src/apps/droidnotify/MMSAlarmReceiver.java:101-114 | with rescheduling on, a zero interval switches it off and sets no alarm; a nonzero interval sets one alarm at now + interval |
| Receivers.StoreChangesOnlyOnZeroInterval | trunk/src/apps/droidnotify/MMSAlarmReceiver.java:101-107 | the store changes only when a zero interval switches rescheduling off, and only in that key |

## Left out

- Constants.java is not part of this model. The preference keys, notification type codes and request codes appear as named constants or as fields of a constants record. `MmsConstants` is such a record; it holds the keys and the ignore action. The count-action default is an input given as text.
- `Float.parseFloat` and every floating-point value are left out: font sizes, dim amount and the float import branch. The float branch stores its text unparsed. The touch delta is an integer.
- A stored preference of another type reads as its default. Android would throw ClassCastException.
- `toLowerCase`, `equalsIgnoreCase` and the integer parsers handle ASCII only. Other Unicode digits and letters are not modelled.
- Threads, timing, the Handler message loop, AlarmManager and wake-lock timing are left out. Only the one-pending-message rule and the held/released state are modelled. `WakefulIntentService.acquireStaticLock` is not modelled.
- Each clock reading (`System.currentTimeMillis()`) is a separate input.
- The ringtone handler and all feedback are device effects and are left out. This covers `RingtoneHandler.handleMessage`/`stopRingtone`, `runNotificationFeedback`, ringtones and vibration. `DelayedHandler.Sleep` models the `sleep` all three handlers share.
- `NotificationViewFlipper` is not part of this model. The flipper is the log of the calls it receives.
- AddCalls: ensures only the length; the contents are given by AddCallsSnoc.
- Cursors and content-provider queries are sequences of rows. The row fields are given as they arrive.
- SMSReceiverService only forwards to `startActivity`, and TwitterAuthenticationActivity is an OAuth browser flow. Both are left out.
- Theme and layout are left out: `setupLayoutTheme`, `getThemeButton`, `initLongPressView`, `setupButtonIcons`, click listeners, `Html.fromHtml`, `deleteMessage` and dialog texts.
- Contact photos are left out: bitmaps and the photo-loading AsyncTask. `PopulateViewInfo` only says whether the photo load starts.
- `PhoneCommon.formatPhoneNumber` is an input: the formatted number.
- Other helpers are not modelled: `Common.isBlockingAppRunning`, `Common.getMMSMessagesFromDisk` and `Common.setStatusBarNotification`. The first two are inputs; the last is an effect.
- PopulateViewInfo: when the max-lines preference does not parse, its ensures says that no field changes. When the photo-background preference does not parse, its ensures says only that it does not complete; it states no view. On that path `PopulateContactViews` states the name and number views, which are set before the parse throws. `ShowContactPhoto` states only that the parse failed. Android would leave the partly updated views on screen.
- A null contact name, which would raise a NullPointerException in Java, is not modelled. Names are strings.
- The calendar preference's tick array starts as an empty array. Java starts it as null; a null array is not modelled.
- The calendar preference's tick array is assumed long enough for its entry values. A shorter array, where Java would throw ArrayIndexOutOfBoundsException, is excluded by the requires clauses of `RestoreCheckedEntries` and `OnDialogClosed`.
- Receivers.SmsReceive: the alarm time is stated only where now + 60000 does not overflow a long. Past that, the model wraps.
