/**
 * `NotificationActivity`: the popup that shows the pending notifications in a
 * view flipper. It holds a wake lock and a keyguard lock that delayed handler
 * messages release, decides what delete, activity results, long presses and
 * swipes do, and turns the incoming extras and provider rows into
 * notifications.
 */
module NotificationActivity {
  import opened JavaText
  import opened Preferences

  // ---------------------------------------------------------------------------
  // Constants
  // ---------------------------------------------------------------------------

  const NOTIFICATION_TYPE_TEST: int := -1
  const NOTIFICATION_TYPE_PHONE: int := 0
  const NOTIFICATION_TYPE_SMS: int := 1
  const NOTIFICATION_TYPE_MMS: int := 2
  const NOTIFICATION_TYPE_CALENDAR: int := 3
  const NOTIFICATION_TYPE_EMAIL: int := 4

  const ADD_CONTACT_ACTIVITY: int := 1
  const EDIT_CONTACT_ACTIVITY: int := 2
  const VIEW_CONTACT_ACTIVITY: int := 3
  const SEND_SMS_ACTIVITY: int := 4
  const MESSAGING_ACTIVITY: int := 5
  const VIEW_SMS_MESSAGE_ACTIVITY: int := 6
  const VIEW_SMS_THREAD_ACTIVITY: int := 7
  const CALL_ACTIVITY: int := 8
  const ADD_CALENDAR_ACTIVITY: int := 10
  const EDIT_CALENDAR_ACTIVITY: int := 11
  const VIEW_CALENDAR_ACTIVITY: int := 12

  /** `Activity.RESULT_OK` and `Activity.RESULT_CANCELED`. */
  const RESULT_OK: int := -1
  const RESULT_CANCELED: int := 0

  const SCREEN_ENABLED_KEY: string := "screen_enabled"
  const SCREEN_DIM_ENABLED_KEY: string := "screen_dim_enabled"
  const KEYGUARD_ENABLED_KEY: string := "keyguard_enabled"
  const SMS_DELETE_KEY: string := "sms_delete_button_action"
  const MMS_DELETE_KEY: string := "mms_delete_button_action"
  const WAKELOCK_TIMEOUT_KEY: string := "wakelock_timeout_settings"
  const KEYGUARD_TIMEOUT_KEY: string := "keyguard_timeout_settings"
  const SMS_CONFIRM_DELETION_KEY: string := "confirm_sms_deletion_enabled"
  const MMS_CONFIRM_DELETION_KEY: string := "confirm_mms_deletion_enabled"

  /** The delete action "do nothing" of both the SMS and the MMS preference. */
  const DELETE_ACTION_NOTHING: string := "2"

  // ---------------------------------------------------------------------------
  // Notifications and the view flipper
  // ---------------------------------------------------------------------------

  datatype Notification =
    | MissedCall(phoneNumber: string, timestamp: int)
    | SmsMessage(messageId: int, threadId: int, body: string, phoneNumber: string, timestamp: int, contactId: int)

  /** A call made on the view flipper, whose own behaviour is not part of this model. */
  datatype FlipperCall =
    | AddNotification(notification: Notification)
    | RemoveActiveNotification
    | ShowNext
    | ShowPrevious

  /** `NotificationViewFlipper`, seen as the sequence of calls it receives. */
  class NotificationViewFlipper {
    var calls: seq<FlipperCall>

    constructor ()
      ensures calls == []
    {
      calls := [];
    }

    method Add(n: Notification)
      modifies this
      ensures calls == old(calls) + [AddNotification(n)]
    {
      calls := calls + [AddNotification(n)];
    }

    method RemoveActive()
      modifies this
      ensures calls == old(calls) + [RemoveActiveNotification]
    {
      calls := calls + [RemoveActiveNotification];
    }

    method Next()
      modifies this
      ensures calls == old(calls) + [ShowNext]
    {
      calls := calls + [ShowNext];
    }

    method Previous()
      modifies this
      ensures calls == old(calls) + [ShowPrevious]
    {
      calls := calls + [ShowPrevious];
    }
  }

  /** The calls that add the given notifications, in order. */
  function AddCalls(ns: seq<Notification>): (r: seq<FlipperCall>)
    ensures |r| == |ns|
  {
    if |ns| == 0 then [] else AddCalls(ns[..|ns| - 1]) + [AddNotification(ns[|ns| - 1])]
  }

  // ---------------------------------------------------------------------------
  // Delete, activity results, context menu and swipes
  // ---------------------------------------------------------------------------

  datatype DeleteAction = DeleteMessage | ShowConfirmDialog | DoNothing

  /** `showDeleteDialog` for the type of the active notification. */
  function DeleteDecision(notificationType: int, prefs: Store): (r: DeleteAction)
    ensures r == DoNothing <==> notificationType != NOTIFICATION_TYPE_SMS && notificationType != NOTIFICATION_TYPE_MMS
    ensures notificationType == NOTIFICATION_TYPE_SMS ==>
      (r == ShowConfirmDialog <==>
        GetString(prefs, SMS_DELETE_KEY, "0") != DELETE_ACTION_NOTHING && GetBoolean(prefs, SMS_CONFIRM_DELETION_KEY, true))
    ensures notificationType == NOTIFICATION_TYPE_MMS ==>
      (r == ShowConfirmDialog <==>
        GetString(prefs, MMS_DELETE_KEY, "0") != DELETE_ACTION_NOTHING && GetBoolean(prefs, MMS_CONFIRM_DELETION_KEY, true))
  {
    if notificationType == NOTIFICATION_TYPE_SMS then
      if GetString(prefs, SMS_DELETE_KEY, "0") == DELETE_ACTION_NOTHING then DeleteMessage
      else if GetBoolean(prefs, SMS_CONFIRM_DELETION_KEY, true) then ShowConfirmDialog
      else DeleteMessage
    else if notificationType == NOTIFICATION_TYPE_MMS then
      if GetString(prefs, MMS_DELETE_KEY, "0") == DELETE_ACTION_NOTHING then DeleteMessage
      else if GetBoolean(prefs, MMS_CONFIRM_DELETION_KEY, true) then ShowConfirmDialog
      else DeleteMessage
    else DoNothing
  }

  /** With the preferences unset, deleting an SMS or MMS asks for confirmation first. */
  lemma DeleteConfirmedByDefault(notificationType: int)
    requires notificationType == NOTIFICATION_TYPE_SMS || notificationType == NOTIFICATION_TYPE_MMS
    ensures DeleteDecision(notificationType, map[]) == ShowConfirmDialog
  {
  }

  /** Which error toast an unexpected result code produces. */
  datatype ErrorKind = ContactsError | MessagingError | PhoneError | CalendarError

  datatype ResultAction = RemoveActive | ErrorToast(kind: ErrorKind, resultCode: int) | Ignore

  predicate IsKnownRequestCode(requestCode: int)
  {
    1 <= requestCode <= 12 && requestCode != 9
  }

  /** The toast category of each request code: contacts, messaging, phone or calendar. */
  function ErrorKindOf(requestCode: int): (r: ErrorKind)
    requires IsKnownRequestCode(requestCode)
    ensures r == ContactsError <==> requestCode <= VIEW_CONTACT_ACTIVITY
    ensures r == MessagingError <==> SEND_SMS_ACTIVITY <= requestCode <= VIEW_SMS_THREAD_ACTIVITY
    ensures r == PhoneError <==> requestCode == CALL_ACTIVITY
    ensures r == CalendarError <==> ADD_CALENDAR_ACTIVITY <= requestCode
  {
    if requestCode == ADD_CONTACT_ACTIVITY || requestCode == EDIT_CONTACT_ACTIVITY || requestCode == VIEW_CONTACT_ACTIVITY then ContactsError
    else if requestCode == CALL_ACTIVITY then PhoneError
    else if requestCode == ADD_CALENDAR_ACTIVITY || requestCode == EDIT_CALENDAR_ACTIVITY || requestCode == VIEW_CALENDAR_ACTIVITY then CalendarError
    else MessagingError
  }

  /** One case of the `onActivityResult` switch. */
  function CaseOutcome(resultCode: int, kind: ErrorKind): ResultAction
  {
    if resultCode == RESULT_OK then RemoveActive
    else if resultCode == RESULT_CANCELED then RemoveActive
    else ErrorToast(kind, resultCode)
  }

  /** `onActivityResult`. */
  function ActivityResultAction(requestCode: int, resultCode: int): (r: ResultAction)
    ensures r == RemoveActive <==> IsKnownRequestCode(requestCode) && (resultCode == RESULT_OK || resultCode == RESULT_CANCELED)
    ensures r == Ignore <==> !IsKnownRequestCode(requestCode)
    ensures r.ErrorToast? ==> r.resultCode == resultCode && r.kind == ErrorKindOf(requestCode)
  {
    if requestCode == ADD_CONTACT_ACTIVITY then CaseOutcome(resultCode, ContactsError)
    else if requestCode == EDIT_CONTACT_ACTIVITY then CaseOutcome(resultCode, ContactsError)
    else if requestCode == VIEW_CONTACT_ACTIVITY then CaseOutcome(resultCode, ContactsError)
    else if requestCode == SEND_SMS_ACTIVITY then CaseOutcome(resultCode, MessagingError)
    else if requestCode == VIEW_SMS_MESSAGE_ACTIVITY then CaseOutcome(resultCode, MessagingError)
    else if requestCode == VIEW_SMS_THREAD_ACTIVITY then CaseOutcome(resultCode, MessagingError)
    else if requestCode == MESSAGING_ACTIVITY then CaseOutcome(resultCode, MessagingError)
    else if requestCode == CALL_ACTIVITY then CaseOutcome(resultCode, PhoneError)
    else if requestCode == ADD_CALENDAR_ACTIVITY then CaseOutcome(resultCode, CalendarError)
    else if requestCode == EDIT_CALENDAR_ACTIVITY then CaseOutcome(resultCode, CalendarError)
    else if requestCode == VIEW_CALENDAR_ACTIVITY then CaseOutcome(resultCode, CalendarError)
    else Ignore
  }

  /** The items of the long-press menu on the contact area. */
  datatype MenuItem =
    | ViewContact | AddContact | CallContact | TextContact | EditContact
    | AddEvent | EditEvent | ViewThread | MessagingInbox

  const AllMenuItems: set<MenuItem> :=
    {ViewContact, AddContact, CallContact, TextContact, EditContact, AddEvent, EditEvent, ViewThread, MessagingInbox}

  /** `onCreateContextMenu`: the inflated menu with the hidden items removed, in the source's order. */
  function VisibleMenuItems(notificationType: int, contactExists: bool): (r: set<MenuItem>)
    ensures AddContact in r <==> !contactExists && notificationType != NOTIFICATION_TYPE_CALENDAR
    ensures ViewContact in r <==> contactExists && notificationType != NOTIFICATION_TYPE_CALENDAR
    ensures EditContact in r <==> contactExists && notificationType != NOTIFICATION_TYPE_CALENDAR
    ensures CallContact in r <==> notificationType != NOTIFICATION_TYPE_CALENDAR
    ensures TextContact in r <==> notificationType != NOTIFICATION_TYPE_CALENDAR
    ensures AddEvent in r <==>
      notificationType != NOTIFICATION_TYPE_PHONE && notificationType != NOTIFICATION_TYPE_SMS && notificationType != NOTIFICATION_TYPE_MMS
    ensures EditEvent in r <==>
      notificationType != NOTIFICATION_TYPE_PHONE && notificationType != NOTIFICATION_TYPE_SMS && notificationType != NOTIFICATION_TYPE_MMS
    ensures ViewThread in r <==> notificationType != NOTIFICATION_TYPE_PHONE && notificationType != NOTIFICATION_TYPE_CALENDAR
    ensures MessagingInbox in r <==> notificationType != NOTIFICATION_TYPE_PHONE && notificationType != NOTIFICATION_TYPE_CALENDAR
  {
    var items := AllMenuItems;
    var items := if contactExists then items - {AddContact} else items - {ViewContact, EditContact};
    var items := if notificationType == NOTIFICATION_TYPE_PHONE then items - {AddEvent, EditEvent, ViewThread, MessagingInbox} else items;
    var items := if notificationType == NOTIFICATION_TYPE_SMS then items - {AddEvent, EditEvent} else items;
    var items := if notificationType == NOTIFICATION_TYPE_MMS then items - {AddEvent, EditEvent} else items;
    var items := if notificationType == NOTIFICATION_TYPE_CALENDAR
                 then items - {AddContact, ViewContact, EditContact, TextContact, CallContact, ViewThread, MessagingInbox}
                 else items;
    items
  }

  /** The header of the long-press menu. */
  function MenuHeaderTitle(notificationType: int, contactExists: bool, contactName: string, sentFromAddress: string): (r: string)
    ensures notificationType != NOTIFICATION_TYPE_CALENDAR ==> r == (if contactExists then contactName else sentFromAddress)
  {
    if notificationType == NOTIFICATION_TYPE_CALENDAR then "Calendar Event"
    else if contactExists then contactName
    else sentFromAddress
  }

  datatype Swipe = SwipeNext | SwipePrevious | NoSwipe

  /**
   * The fling rule of `dispatchTouchEvent`: a horizontal move longer than twice
   * the touch slop shows the next notification when it goes left and the
   * previous one when it goes right.
   */
  function SwipeDecision(deltaX: int, touchSlop: int): (r: Swipe)
    ensures r == SwipeNext <==> deltaX < 0 && -deltaX > touchSlop * 2
    ensures r == SwipePrevious <==> deltaX > 0 && deltaX > touchSlop * 2
  {
    var magnitude := if deltaX < 0 then -deltaX else deltaX;
    if magnitude > touchSlop * 2 then
      if deltaX < 0 then SwipeNext
      else if deltaX > 0 then SwipePrevious
      else NoSwipe
    else NoSwipe
  }

  /** Reversing a swipe reverses its direction. */
  lemma SwipeMirror(deltaX: int, touchSlop: int)
    ensures SwipeDecision(-deltaX, touchSlop) ==
      match SwipeDecision(deltaX, touchSlop)
      case SwipeNext => SwipePrevious
      case SwipePrevious => SwipeNext
      case NoSwipe => NoSwipe
  {
  }

  // ---------------------------------------------------------------------------
  // Input: missed calls, unread messages, phone numbers
  // ---------------------------------------------------------------------------

  /** One `number|timestamp` entry of the missed-call list; `None` is the exception it raises. */
  function ParseMissedCall(entry: string): (r: Option<Notification>)
    ensures r.Some? ==> |Split(entry, '|')| >= 2 && r.value.MissedCall? && r.value.phoneNumber == Split(entry, '|')[0]
  {
    var missedCallInfo := Split(entry, '|');
    if |missedCallInfo| < 2 then None
    else match ParseLong(missedCallInfo[1])
      case None => None
      case Some(timeStamp) => Some(MissedCall(missedCallInfo[0], timeStamp))
  }

  /** What a loading loop has added so far, and whether it ran to the end. */
  datatype LoadResult = LoadResult(added: seq<Notification>, completed: bool)

  /** `setupMissedCalls`: notifications added in list order until an entry throws. */
  function LoadMissedCalls(entries: seq<string>): (r: LoadResult)
    ensures |r.added| <= |entries|
    ensures r.completed <==> |r.added| == |entries|
  {
    if |entries| == 0 then LoadResult([], true)
    else
      var prev := LoadMissedCalls(entries[..|entries| - 1]);
      if !prev.completed then prev
      else match ParseMissedCall(entries[|entries| - 1])
        case None => LoadResult(prev.added, false)
        case Some(n) => LoadResult(prev.added + [n], true)
  }

  /** The entry the missed-call receiver writes for a number and a time. */
  function MissedCallEntry(phoneNumber: string, timestamp: int): string
  {
    phoneNumber + "|" + LongToString(timestamp)
  }

  /**
   * Well-formed entries load completely: one missed-call notification per
   * entry, in list order, with the number and the time it was written with.
   */
  lemma {:induction false} MissedCallsRoundTrip(numbers: seq<string>, times: seq<int>)
    requires |numbers| == |times|
    requires forall k :: 0 <= k < |numbers| ==> '|' !in numbers[k]
    requires forall k :: 0 <= k < |times| ==> LongMin <= times[k] <= LongMax
    ensures LoadMissedCalls(seq(|numbers|, k requires 0 <= k < |numbers| => MissedCallEntry(numbers[k], times[k])))
         == LoadResult(seq(|numbers|, k requires 0 <= k < |numbers| => MissedCall(numbers[k], times[k])), true)
  {
    var entries := seq(|numbers|, k requires 0 <= k < |numbers| => MissedCallEntry(numbers[k], times[k]));
    var r := LoadMissedCalls(entries);
    forall k | 0 <= k < |entries|
      ensures ParseMissedCall(entries[k]) == Some(MissedCall(numbers[k], times[k]))
    {
      MissedCallEntryParses(numbers[k], times[k]);
    }
    MissedCallsLoadAll(entries);
    LoadedCallsParse(entries);
  }

  lemma MissedCallEntryParses(phoneNumber: string, timestamp: int)
    requires '|' !in phoneNumber && LongMin <= timestamp <= LongMax
    ensures ParseMissedCall(MissedCallEntry(phoneNumber, timestamp)) == Some(MissedCall(phoneNumber, timestamp))
  {
    var t := LongToString(timestamp);
    LongToStringParses(timestamp);
    LongToStringShape(timestamp);
    assert Join([phoneNumber, t], '|') == MissedCallEntry(phoneNumber, timestamp);
    SplitJoin([phoneNumber, t], '|');
  }

  lemma LongToStringShape(n: int)
    ensures LongToString(n) != "" && '|' !in LongToString(n)
  {
    DigitsShape(if n < 0 then -n else n);
  }

  lemma {:induction false} DigitsShape(n: nat)
    ensures NatToDecimal(n) != "" && AllDigits(NatToDecimal(n))
  {
    DigitsOfDecimal(n);
  }

  /** The k-th notification added is the parse of the k-th entry. */
  lemma {:induction false} LoadedCallsParse(entries: seq<string>)
    ensures forall k :: 0 <= k < |LoadMissedCalls(entries).added| ==>
      ParseMissedCall(entries[k]) == Some(LoadMissedCalls(entries).added[k])
  {
    if |entries| > 0 {
      var init := entries[..|entries| - 1];
      LoadedCallsParse(init);
      assert forall k :: 0 <= k < |init| ==> init[k] == entries[k];
    }
  }

  /** When every entry parses, the loop runs to the end and adds each one. */
  lemma {:induction false} MissedCallsLoadAll(entries: seq<string>)
    requires forall k :: 0 <= k < |entries| ==> ParseMissedCall(entries[k]).Some?
    ensures LoadMissedCalls(entries).completed
  {
    if |entries| > 0 {
      var init := entries[..|entries| - 1];
      assert forall k :: 0 <= k < |init| ==> init[k] == entries[k];
      MissedCallsLoadAll(init);
    }
  }

  /** A row of the unread SMS query: `_id`, `thread_id`, `body`, `address`, `date`, `person`. */
  datatype SmsRow = SmsRow(id: int, threadId: int, body: string, address: string, date: int, person: int)

  /** The duplicate filter of `getAllUnreadSMSMessages`. */
  predicate PassesFilter(row: SmsRow, messageIdFilter: int, messageBodyFilter: string)
  {
    row.id != messageIdFilter && Trim(row.body) != messageBodyFilter
  }

  function SmsNotification(row: SmsRow): Notification
  {
    SmsMessage(row.id, row.threadId, row.body, row.address, row.date, row.person)
  }

  /** The notifications `getAllUnreadSMSMessages` adds, in cursor order. */
  function UnreadNotifications(rows: seq<SmsRow>, messageIdFilter: int, messageBodyFilter: string): (r: seq<Notification>)
    ensures |r| <= |rows|
  {
    if |rows| == 0 then []
    else
      var last := rows[|rows| - 1];
      UnreadNotifications(rows[..|rows| - 1], messageIdFilter, messageBodyFilter)
        + (if PassesFilter(last, messageIdFilter, messageBodyFilter) then [SmsNotification(last)] else [])
  }

  /** Some row passes the filter and becomes `n`. */
  ghost predicate LoadedFrom(rows: seq<SmsRow>, messageIdFilter: int, messageBodyFilter: string, n: Notification)
  {
    exists k :: 0 <= k < |rows| && Loads(rows[k], messageIdFilter, messageBodyFilter, n)
  }

  predicate Loads(row: SmsRow, messageIdFilter: int, messageBodyFilter: string, n: Notification)
  {
    PassesFilter(row, messageIdFilter, messageBodyFilter) && SmsNotification(row) == n
  }

  lemma LoadedFromSnoc(rows: seq<SmsRow>, messageIdFilter: int, messageBodyFilter: string, n: Notification)
    requires |rows| > 0
    ensures LoadedFrom(rows, messageIdFilter, messageBodyFilter, n) <==>
      LoadedFrom(rows[..|rows| - 1], messageIdFilter, messageBodyFilter, n) || Loads(rows[|rows| - 1], messageIdFilter, messageBodyFilter, n)
  {
    var init := rows[..|rows| - 1];
    if LoadedFrom(rows, messageIdFilter, messageBodyFilter, n) {
      var k :| 0 <= k < |rows| && Loads(rows[k], messageIdFilter, messageBodyFilter, n);
      if k < |init| {
        assert init[k] == rows[k];
      }
    }
    if LoadedFrom(init, messageIdFilter, messageBodyFilter, n) {
      var k :| 0 <= k < |init| && Loads(init[k], messageIdFilter, messageBodyFilter, n);
      assert rows[k] == init[k];
    }
  }

  /**
   * A row is loaded exactly when it passes the filter: the incoming message is
   * never loaded twice, by id or by trimmed body.
   */
  lemma {:induction false} UnreadNotificationsMembers(rows: seq<SmsRow>, messageIdFilter: int, messageBodyFilter: string, n: Notification)
    ensures n in UnreadNotifications(rows, messageIdFilter, messageBodyFilter) <==>
      LoadedFrom(rows, messageIdFilter, messageBodyFilter, n)
  {
    if |rows| > 0 {
      var init := rows[..|rows| - 1];
      var last := rows[|rows| - 1];
      UnreadNotificationsMembers(init, messageIdFilter, messageBodyFilter, n);
      LoadedFromSnoc(rows, messageIdFilter, messageBodyFilter, n);
      assert UnreadNotifications(rows, messageIdFilter, messageBodyFilter) ==
        UnreadNotifications(init, messageIdFilter, messageBodyFilter)
          + (if PassesFilter(last, messageIdFilter, messageBodyFilter) then [SmsNotification(last)] else []);
    }
  }

  /** One pass of the `getAllUnreadSMSMessages` loop, as flipper calls after `base`. */
  lemma UnreadNotificationsStep(base: seq<FlipperCall>, rows: seq<SmsRow>, i: nat, messageIdFilter: int, messageBodyFilter: string)
    requires i < |rows|
    ensures base + AddCalls(UnreadNotifications(rows[..i + 1], messageIdFilter, messageBodyFilter)) ==
      base + AddCalls(UnreadNotifications(rows[..i], messageIdFilter, messageBodyFilter))
        + (if PassesFilter(rows[i], messageIdFilter, messageBodyFilter) then [AddNotification(SmsNotification(rows[i]))] else [])
  {
    var added := UnreadNotifications(rows[..i], messageIdFilter, messageBodyFilter);
    assert rows[..i + 1][..i] == rows[..i];
    if PassesFilter(rows[i], messageIdFilter, messageBodyFilter) {
      AddCallsSnoc(added, SmsNotification(rows[i]));
    } else {
      assert added + [] == added;
    }
  }

  lemma AddCallsSnoc(ns: seq<Notification>, n: Notification)
    ensures AddCalls(ns + [n]) == AddCalls(ns) + [AddNotification(n)]
  {
    assert (ns + [n])[..|ns|] == ns;
  }

  /** `ContactsContract.CommonDataKinds.Phone.TYPE_*`. */
  const TYPE_CUSTOM: int := 0

  /** The label that `getPhoneNumbers` puts before a number of the given type. */
  function PhoneTypeLabel(phoneType: int, customLabel: Option<string>): (r: string)
    ensures phoneType == TYPE_CUSTOM ==> r == (if customLabel.Some? then customLabel.value else "null")
    ensures phoneType < 0 || phoneType > 20 ==> r == "No Label: "
    ensures phoneType != TYPE_CUSTOM ==> |r| >= 2 && r[|r| - 2] == ':' && r[|r| - 1] == ' '
  {
    if phoneType == 1 then "Home: "
    else if phoneType == 2 then "Mobile: "
    else if phoneType == 3 then "Work: "
    else if phoneType == 4 then "Work Fax: "
    else if phoneType == 5 then "Home Fax: "
    else if phoneType == 6 then "Pager: "
    else if phoneType == 7 then "Other: "
    else if phoneType == 8 then "Callback: "
    else if phoneType == 9 then "Car: "
    else if phoneType == 10 then "Company: "
    else if phoneType == 11 then "ISDN: "
    else if phoneType == 12 then "Main: "
    else if phoneType == 13 then "Other Fax: "
    else if phoneType == 14 then "Radio: "
    else if phoneType == 15 then "Telex: "
    else if phoneType == 16 then "TTY/TDD: "
    else if phoneType == 17 then "Work Mobile: "
    else if phoneType == 18 then "Work Pager: "
    else if phoneType == 19 then "Assistant: "
    else if phoneType == 20 then "MMS: "
    else if phoneType == TYPE_CUSTOM then (if customLabel.Some? then customLabel.value else "null")
    else "No Label: "
  }

  /** A row of the contact's phone query: `NUMBER`, `TYPE` (as text) and `LABEL`. */
  datatype PhoneRow = PhoneRow(number: string, phoneType: string, customLabel: Option<string>)

  function LabelledNumber(row: PhoneRow): Option<string>
  {
    match ParseInt(row.phoneType)
    case None => None
    case Some(t) => Some(PhoneTypeLabel(t, row.customLabel) + row.number)
  }

  /** The contact branch of `getPhoneNumbers`: `None` when a type does not parse. */
  function ContactPhoneNumbers(rows: seq<PhoneRow>): (r: Option<seq<string>>)
    ensures r.Some? ==> |r.value| == |rows| && forall k :: 0 <= k < |rows| ==> LabelledNumber(rows[k]) == Some(r.value[k])
    ensures r.None? <==> exists k :: 0 <= k < |rows| && ParseInt(rows[k].phoneType).None?
  {
    if |rows| == 0 then Some([])
    else
      var init := rows[..|rows| - 1];
      var prev := ContactPhoneNumbers(init);
      var last := LabelledNumber(rows[|rows| - 1]);
      assert forall k :: 0 <= k < |init| ==> init[k] == rows[k];
      if prev.None? then None
      else if last.None? then None
      else Some(prev.value + [last.value])
  }

  /** `getPhoneNumbers` for a notification without a contact. */
  function AddressAsPhoneNumbers(sentFromAddress: string): (r: Option<seq<string>>)
    ensures r == Some([sentFromAddress]) <==> '@' !in sentFromAddress
    ensures r.None? <==> '@' in sentFromAddress
  {
    if '@' !in sentFromAddress then Some([sentFromAddress]) else None
  }

  // ---------------------------------------------------------------------------
  // Locks and delayed handlers
  // ---------------------------------------------------------------------------

  datatype ScreenLevel = ScreenDim | ScreenBright

  /** A `PowerManager.WakeLock` handle. */
  datatype WakeLock = WakeLock(level: ScreenLevel, causesWakeup: bool, referenceCounted: bool, held: bool)

  /** A `KeyguardManager.KeyguardLock` handle. */
  datatype KeyguardLock = KeyguardLock(disabled: bool)

  /** The lock `acquireWakeLock` creates, chosen by the two screen preferences. */
  function NewWakeLock(prefs: Store): (r: WakeLock)
    ensures r.causesWakeup <==> GetBoolean(prefs, SCREEN_ENABLED_KEY, true)
    ensures r.level == ScreenDim <==> GetBoolean(prefs, SCREEN_ENABLED_KEY, true) && GetBoolean(prefs, SCREEN_DIM_ENABLED_KEY, true)
    ensures r.referenceCounted && !r.held
  {
    if GetBoolean(prefs, SCREEN_ENABLED_KEY, true) then
      if GetBoolean(prefs, SCREEN_DIM_ENABLED_KEY, true) then WakeLock(ScreenDim, true, true, false)
      else WakeLock(ScreenBright, true, true, false)
    else WakeLock(ScreenBright, false, true, false)
  }

  /**
   * A timeout preference in seconds, in milliseconds as a Java `long` (the
   * product wraps); `None` is the exception a non-number raises.
   */
  function TimeoutMillis(prefs: Store, key: string): (r: Option<int>)
    ensures r.Some? ==> LongMin <= r.value <= LongMax
    ensures r.Some? <==> ParseLong(GetString(prefs, key, "300")).Some?
  {
    match ParseLong(GetString(prefs, key, "300"))
    case None => None
    case Some(seconds) => Some(Wrap64(seconds * 1000))
  }

  /** An unset timeout is five minutes; a setting of at most `LongMax / 1000` seconds does not wrap. */
  lemma TimeoutDefault(prefs: Store, key: string)
    ensures key !in prefs ==> TimeoutMillis(prefs, key) == Some(300000)
    ensures TimeoutMillis(prefs, key).Some? ==>
      var seconds := ParseLong(GetString(prefs, key, "300")).value;
      -(LongMax / 1000) <= seconds <= LongMax / 1000 ==> TimeoutMillis(prefs, key) == Some(seconds * 1000)
  {
    var parsed := ParseLong(GetString(prefs, key, "300"));
    if parsed.Some? && -(LongMax / 1000) <= parsed.value <= LongMax / 1000 {
      assert LongMin <= parsed.value * 1000 <= LongMax;
    }
    if key !in prefs {
      assert GetString(prefs, key, "300") == "300";
      assert DigitsValue("300") == 300 by {
        assert "300"[..2] == "30" && "30"[..1] == "3" && "3"[..0] == "";
      }
    }
  }

  /**
   * A `Handler` whose `sleep` cancels its pending message and posts a new one;
   * `pending` holds the delays of the queued messages.
   */
  class DelayedHandler {
    var pending: seq<int>

    constructor ()
      ensures pending == []
    {
      pending := [];
    }

    /** `sleep`: at most one message stays queued, the one of the last call. */
    method Sleep(delayMillis: int)
      modifies this
      ensures pending == [delayMillis]
    {
      pending := [];                     // removeMessages(0)
      pending := pending + [delayMillis]; // sendMessageDelayed(obtainMessage(0), delayMillis)
    }

    /** The looper takes the queued message off to deliver it. */
    method Deliver()
      requires |pending| > 0
      modifies this
      ensures pending == old(pending)[1..]
    {
      pending := pending[1..];
    }
  }

  datatype TouchAction = ActionDown | ActionUp | OtherAction

  /** How `dispatchTouchEvent` ends. */
  datatype TouchOutcome = Consumed | PassedOn | NoDownEvent

  // ---------------------------------------------------------------------------
  // The activity
  // ---------------------------------------------------------------------------

  class Activity {
    var preferences: Store
    var wakeLock: Option<WakeLock>
    var keyguardLock: Option<KeyguardLock>
    /** X of the last down event; `None` before the first one. */
    var downX: Option<int>
    const wakeLockHandler: DelayedHandler
    const keyguardHandler: DelayedHandler
    const flipper: NotificationViewFlipper

    predicate Valid()
      reads this
    {
      wakeLockHandler != keyguardHandler
    }

    constructor (prefs: Store)
      ensures Valid()
      ensures preferences == prefs && wakeLock.None? && keyguardLock.None? && downX.None?
      ensures fresh(wakeLockHandler) && fresh(keyguardHandler) && fresh(flipper)
      ensures wakeLockHandler.pending == [] && keyguardHandler.pending == [] && flipper.calls == []
    {
      preferences := prefs;
      wakeLock := None;
      keyguardLock := None;
      downX := None;
      wakeLockHandler := new DelayedHandler();
      keyguardHandler := new DelayedHandler();
      flipper := new NotificationViewFlipper();
    }

    /**
     * `acquireWakeLock`: create the lock only when there is none, then make it
     * non-reference-counted and acquire it.
     */
    method AcquireWakeLock()
      modifies this`wakeLock
      ensures wakeLock.Some? && wakeLock.value.held && !wakeLock.value.referenceCounted
      ensures old(wakeLock).Some? ==>
        wakeLock.value.level == old(wakeLock).value.level && wakeLock.value.causesWakeup == old(wakeLock).value.causesWakeup
      ensures old(wakeLock).None? ==>
        wakeLock.value.level == NewWakeLock(preferences).level && wakeLock.value.causesWakeup == NewWakeLock(preferences).causesWakeup
    {
      if wakeLock.None? {
        wakeLock := Some(NewWakeLock(preferences));
      }
      wakeLock := Some(wakeLock.value.(referenceCounted := false));
      wakeLock := Some(wakeLock.value.(held := true));
    }

    /** `releaseWakeLock`: release and drop the handle; without one, nothing happens. */
    method ReleaseWakeLock()
      modifies this`wakeLock
      ensures wakeLock.None?
    {
      if wakeLock.Some? {
        wakeLock := Some(wakeLock.value.(held := false));
        wakeLock := None;
      }
    }

    /**
     * `disableKeyguardLock`: create the keyguard lock whenever there is none;
     * disable the keyguard only when the preference allows it.
     */
    method DisableKeyguardLock()
      modifies this`keyguardLock
      ensures keyguardLock.Some?
      ensures keyguardLock.value.disabled <==>
        GetBoolean(preferences, KEYGUARD_ENABLED_KEY, true) || (old(keyguardLock).Some? && old(keyguardLock).value.disabled)
    {
      if keyguardLock.None? {
        keyguardLock := Some(KeyguardLock(false));
      }
      if GetBoolean(preferences, KEYGUARD_ENABLED_KEY, true) {
        keyguardLock := Some(KeyguardLock(true));
      }
    }

    /** `reenableKeyguardLock`: re-enable and drop the handle; without one, nothing happens. */
    method ReenableKeyguardLock()
      modifies this`keyguardLock
      ensures keyguardLock.None?
    {
      if keyguardLock.Some? {
        keyguardLock := Some(KeyguardLock(false));
        keyguardLock := None;
      }
    }

    /**
     * The tail of `onCreate` and `onNewIntent`: acquire the wake lock and arm
     * its release, disable the keyguard and arm its re-enabling. A timeout
     * that is not a number throws, leaving the later steps undone.
     */
    method ArmReleaseTimers() returns (completed: bool)
      requires Valid()
      modifies this`wakeLock, this`keyguardLock, wakeLockHandler, keyguardHandler
      ensures wakeLock.Some? && wakeLock.value.held && !wakeLock.value.referenceCounted
      ensures var w := TimeoutMillis(preferences, WAKELOCK_TIMEOUT_KEY);
              var k := TimeoutMillis(preferences, KEYGUARD_TIMEOUT_KEY);
              && completed == (w.Some? && k.Some?)
              && wakeLockHandler.pending == (if w.Some? then [w.value] else old(wakeLockHandler.pending))
              && keyguardHandler.pending == (if w.Some? && k.Some? then [k.value] else old(keyguardHandler.pending))
              && (w.None? ==> keyguardLock == old(keyguardLock))
              && (w.Some? ==>
                    && keyguardLock.Some?
                    && (keyguardLock.value.disabled <==>
                          GetBoolean(preferences, KEYGUARD_ENABLED_KEY, true) || (old(keyguardLock).Some? && old(keyguardLock).value.disabled)))
    {
      AcquireWakeLock();
      var wakelockTimeout := TimeoutMillis(preferences, WAKELOCK_TIMEOUT_KEY);
      if wakelockTimeout.None? {
        return false;
      }
      wakeLockHandler.Sleep(wakelockTimeout.value);
      DisableKeyguardLock();
      var keyguardTimeout := TimeoutMillis(preferences, KEYGUARD_TIMEOUT_KEY);
      if keyguardTimeout.None? {
        return false;
      }
      keyguardHandler.Sleep(keyguardTimeout.value);
      return true;
    }

    /** `WakeLockHandler.handleMessage`: the queued message releases the wake lock. */
    method OnWakeLockTimeout()
      requires |wakeLockHandler.pending| > 0
      modifies this`wakeLock, wakeLockHandler
      ensures wakeLock.None? && wakeLockHandler.pending == old(wakeLockHandler.pending)[1..]
    {
      wakeLockHandler.Deliver();
      ReleaseWakeLock();
    }

    /** `KeyguardHandler.handleMessage`: the queued message re-enables the keyguard. */
    method OnKeyguardTimeout()
      requires |keyguardHandler.pending| > 0
      modifies this`keyguardLock, keyguardHandler
      ensures keyguardLock.None? && keyguardHandler.pending == old(keyguardHandler.pending)[1..]
    {
      keyguardHandler.Deliver();
      ReenableKeyguardLock();
    }

    method OnResume()
      modifies this`wakeLock
      ensures wakeLock.Some? && wakeLock.value.held
    {
      AcquireWakeLock();
    }

    method OnPause()
      modifies this`wakeLock
      ensures wakeLock.None?
    {
      ReleaseWakeLock();
    }

    method OnDestroy()
      modifies this`wakeLock, this`keyguardLock
      ensures wakeLock.None? && keyguardLock.None?
    {
      ReleaseWakeLock();
      ReenableKeyguardLock();
    }

    /** `onActivityResult`: the flipper loses its active notification exactly when the rule says so. */
    method OnActivityResult(requestCode: int, resultCode: int) returns (toast: Option<ErrorKind>)
      modifies flipper
      ensures flipper.calls == old(flipper.calls) +
        (if ActivityResultAction(requestCode, resultCode) == RemoveActive then [RemoveActiveNotification] else [])
      ensures toast.Some? <==> ActivityResultAction(requestCode, resultCode).ErrorToast?
      ensures toast.Some? ==> toast.value == ErrorKindOf(requestCode)
    {
      toast := None;
      if IsKnownRequestCode(requestCode) {
        if resultCode == RESULT_OK {
          flipper.RemoveActive();
        } else if resultCode == RESULT_CANCELED {
          flipper.RemoveActive();
        } else {
          toast := Some(ErrorKindOf(requestCode));
        }
      }
    }

    /** `dispatchTouchEvent` with the horizontal position of the event. */
    method DispatchTouchEvent(action: TouchAction, x: int, touchSlop: int) returns (outcome: TouchOutcome)
      modifies this`downX, flipper
      ensures action == ActionDown ==> downX == Some(x) && outcome == PassedOn && flipper.calls == old(flipper.calls)
      ensures action != ActionDown ==> downX == old(downX)
      ensures action == OtherAction ==> outcome == PassedOn && flipper.calls == old(flipper.calls)
      ensures action == ActionUp && old(downX).None? ==> outcome == NoDownEvent && flipper.calls == old(flipper.calls)
      ensures action == ActionUp && old(downX).Some? ==>
        var swipe := SwipeDecision(x - old(downX).value, touchSlop);
        && outcome == (if swipe == NoSwipe then PassedOn else Consumed)
        && flipper.calls == old(flipper.calls) +
             (match swipe case SwipeNext => [ShowNext] case SwipePrevious => [ShowPrevious] case NoSwipe => [])
    {
      outcome := PassedOn;
      if action == ActionDown {
        downX := Some(x);
      } else if action == ActionUp {
        if downX.None? {
          return NoDownEvent;
        }
        var deltaX := x - downX.value;
        var magnitude := if deltaX < 0 then -deltaX else deltaX;
        if magnitude > touchSlop * 2 {
          if deltaX < 0 {
            flipper.Next();
            return Consumed;
          } else if deltaX > 0 {
            flipper.Previous();
            return Consumed;
          }
        }
      }
    }

    /**
     * `setupMissedCalls`: one missed-call notification per entry, in order,
     * until an entry that is not `number|timestamp` throws.
     */
    method SetupMissedCalls(missedCalls: seq<string>) returns (completed: bool)
      modifies flipper
      ensures flipper.calls == old(flipper.calls) + AddCalls(LoadMissedCalls(missedCalls).added)
      ensures completed == LoadMissedCalls(missedCalls).completed
    {
      var i := 0;
      while i < |missedCalls|
        invariant 0 <= i <= |missedCalls|
        invariant LoadMissedCalls(missedCalls[..i]).completed
        invariant flipper.calls == old(flipper.calls) + AddCalls(LoadMissedCalls(missedCalls[..i]).added)
      {
        var missedCallInfo := Split(missedCalls[i], '|');
        if |missedCallInfo| < 2 {
          assert ParseMissedCall(missedCalls[i]).None?;
          MissedCallsStep(missedCalls, i);
          MissedCallsStop(missedCalls, i + 1);
          return false;
        }
        var phoneNumber := missedCallInfo[0];
        var timeStamp := ParseLong(missedCallInfo[1]);
        if timeStamp.None? {
          assert ParseMissedCall(missedCalls[i]).None?;
          MissedCallsStep(missedCalls, i);
          MissedCallsStop(missedCalls, i + 1);
          return false;
        }
        assert ParseMissedCall(missedCalls[i]) == Some(MissedCall(phoneNumber, timeStamp.value));
        MissedCallsAdded(old(flipper.calls), missedCalls, i, MissedCall(phoneNumber, timeStamp.value));
        flipper.Add(MissedCall(phoneNumber, timeStamp.value));
        i := i + 1;
      }
      assert missedCalls[..|missedCalls|] == missedCalls;
      return true;
    }

    /** `getAllUnreadSMSMessages`: the unread rows that pass the duplicate filter, in order. */
    method LoadUnreadSms(rows: seq<SmsRow>, messageIdFilter: int, messageBodyFilter: string)
      modifies flipper
      ensures flipper.calls == old(flipper.calls) + AddCalls(UnreadNotifications(rows, messageIdFilter, messageBodyFilter))
    {
      var i := 0;
      while i < |rows|
        invariant 0 <= i <= |rows|
        invariant flipper.calls == old(flipper.calls) + AddCalls(UnreadNotifications(rows[..i], messageIdFilter, messageBodyFilter))
      {
        var row := rows[i];
        UnreadNotificationsStep(old(flipper.calls), rows, i, messageIdFilter, messageBodyFilter);
        if PassesFilter(row, messageIdFilter, messageBodyFilter) {
          flipper.Add(SmsNotification(row));
        }
        i := i + 1;
      }
      assert rows[..|rows|] == rows;
    }

    /**
     * `getPhoneNumbers`. With a contact, every number of the contact prefixed
     * by its type label (`None` when a type does not parse); without one, the
     * sender's address unless it is an e-mail address.
     */
    static method GetPhoneNumbers(contactExists: bool, sentFromAddress: string, rows: seq<PhoneRow>)
      returns (r: Option<seq<string>>)
      ensures contactExists ==> r == ContactPhoneNumbers(rows)
      ensures !contactExists ==> r == AddressAsPhoneNumbers(sentFromAddress)
    {
      if contactExists {
        var phoneNumberArray: seq<string> := [];
        var i := 0;
        while i < |rows|
          invariant 0 <= i <= |rows|
          invariant ContactPhoneNumbers(rows[..i]) == Some(phoneNumberArray)
        {
          assert rows[..i + 1][..i] == rows[..i];
          var phoneNumberTypeInt := ParseInt(rows[i].phoneType);
          if phoneNumberTypeInt.None? {
            PhoneNumbersStop(rows, i + 1);
            return None;
          }
          var phoneNumberType := PhoneTypeLabel(phoneNumberTypeInt.value, rows[i].customLabel);
          phoneNumberArray := phoneNumberArray + [phoneNumberType + rows[i].number];
          i := i + 1;
        }
        assert rows[..|rows|] == rows;
        return Some(phoneNumberArray);
      } else {
        if '@' !in sentFromAddress {
          return Some([sentFromAddress]);
        } else {
          return None;
        }
      }
    }
  }

  /** One pass of the `setupMissedCalls` loop over a prefix that loaded completely. */
  lemma MissedCallsStep(entries: seq<string>, i: nat)
    requires i < |entries| && LoadMissedCalls(entries[..i]).completed
    ensures LoadMissedCalls(entries[..i + 1]) ==
      match ParseMissedCall(entries[i])
      case None => LoadResult(LoadMissedCalls(entries[..i]).added, false)
      case Some(n) => LoadResult(LoadMissedCalls(entries[..i]).added + [n], true)
  {
    assert entries[..i + 1][..i] == entries[..i];
  }

  /** A pass of the `setupMissedCalls` loop that parses its entry adds one notification after `base`. */
  lemma MissedCallsAdded(base: seq<FlipperCall>, entries: seq<string>, i: nat, n: Notification)
    requires i < |entries| && LoadMissedCalls(entries[..i]).completed
    requires ParseMissedCall(entries[i]) == Some(n)
    ensures LoadMissedCalls(entries[..i + 1]).completed
    ensures base + AddCalls(LoadMissedCalls(entries[..i + 1]).added) ==
      base + AddCalls(LoadMissedCalls(entries[..i]).added) + [AddNotification(n)]
  {
    MissedCallsStep(entries, i);
    AddCallsSnoc(LoadMissedCalls(entries[..i]).added, n);
  }

  lemma {:induction false} MissedCallsStop(entries: seq<string>, n: nat)
    requires n <= |entries|
    requires !LoadMissedCalls(entries[..n]).completed
    ensures LoadMissedCalls(entries) == LoadMissedCalls(entries[..n])
    decreases |entries| - n
  {
    if n < |entries| {
      assert entries[..n + 1][..n] == entries[..n];
      MissedCallsStop(entries, n + 1);
    } else {
      assert entries[..n] == entries;
    }
  }

  lemma {:induction false} PhoneNumbersStop(rows: seq<PhoneRow>, n: nat)
    requires 0 < n <= |rows|
    requires ParseInt(rows[n - 1].phoneType).None?
    ensures ContactPhoneNumbers(rows).None?
  {
  }
}
