/**
 * The popup view of one notification. `setupViewButtons` and the
 * `setupView*Buttons` family show one of two button rows and switch each of its
 * action buttons on or off by notification type, subtype and preferences;
 * `populateViewInfo` and `setNotificationMessage` decide which content views
 * are shown and what they say. Both work by overwriting view visibilities one
 * after another, so a later write wins over an earlier one.
 *
 * The preference keys and their stored defaults live in `Constants`, which is
 * not part of this model: the preferences are given here already resolved
 * (a display flag that is absent reads as its documented default).
 */
module QuickReplyView {
  import opened JavaText

  datatype PopupType = Phone | Sms | Mms | Calendar | Gmail | Twitter | Facebook | K9

  /** The notification subtypes the button rules distinguish; every other subtype is `OtherSubType`. */
  datatype SubType =
    | TwitterDirectMessage | TwitterMention | TwitterFollowerRequest
    | FacebookNotification | FacebookFriendRequest
    | OtherSubType

  datatype Visibility = Visible | Gone

  function Vis(shown: bool): (r: Visibility)
    ensures r == Visible <==> shown
  {
    if shown then Visible else Gone
  }

  // ---------------------------------------------------------------------------
  // Action buttons
  // ---------------------------------------------------------------------------

  /** The five action buttons; each exists once in the text row and once in the image row. */
  datatype Button = Dismiss | Delete | Call | Reply | View

  /** The visibilities of the five buttons of one row. */
  datatype Buttons = Buttons(dismiss: Visibility, delete: Visibility, call: Visibility,
                             reply: Visibility, view: Visibility)

  const AllGone := Buttons(Gone, Gone, Gone, Gone, Gone)

  function Get(bs: Buttons, b: Button): Visibility
  {
    match b
    case Dismiss => bs.dismiss
    case Delete => bs.delete
    case Call => bs.call
    case Reply => bs.reply
    case View => bs.view
  }

  /** `setVisibility` on one button of a row. */
  function With(bs: Buttons, b: Button, v: Visibility): (r: Buttons)
  {
    match b
    case Dismiss => bs.(dismiss := v)
    case Delete => bs.(delete := v)
    case Call => bs.(call := v)
    case Reply => bs.(reply := v)
    case View => bs.(view := v)
  }

  /**
   * The button preferences of the notification's own type: the button style,
   * the text of its count-action preference (as `getString` returns it), and
   * the stored display flags; a flag that is not stored reads as true.
   */
  datatype ButtonSettings = ButtonSettings(iconOnly: bool, countAction: string, display: map<Button, bool>)

  function DisplayPref(s: ButtonSettings, b: Button): bool
  {
    if b in s.display then s.display[b] else true
  }

  /** The buttons the setup method of a type switches on when their preference allows it. */
  predicate Offers(t: PopupType, sub: SubType, b: Button)
  {
    match t
    case Phone => b == Dismiss || b == Call
    case Sms => b == Dismiss || b == Delete || b == Reply
    case Mms => b == Dismiss || b == Delete || b == Reply
    case Calendar => b == Dismiss || b == View
    case Gmail => false
    case Twitter =>
      || b == Dismiss
      || (b == Delete && sub != TwitterMention && sub != TwitterFollowerRequest)
      || (b == Reply && sub != TwitterFollowerRequest)
      || (b == View && sub != TwitterDirectMessage)
    case Facebook =>
      || b == Dismiss
      || (b == Reply && sub != FacebookNotification && sub != FacebookFriendRequest)
      || b == View
    case K9 => b == Dismiss || b == Delete || b == Reply
  }

  /**
   * Whether a button of the image row (`image`) or of the text row ends up
   * shown: it belongs to the active row, the count action parses as an int,
   * the type offers it and its preference is on; the SMS/MMS reply image
   * button is never switched on.
   */
  predicate Shown(t: PopupType, sub: SubType, s: ButtonSettings, image: bool, b: Button)
  {
    && image == s.iconOnly
    && ParseInt(s.countAction).Some?
    && Offers(t, sub, b)
    && DisplayPref(s, b)
    && !(image && (t == Sms || t == Mms) && b == Reply)
  }

  function ButtonStates(t: PopupType, sub: SubType, s: ButtonSettings, image: bool): Buttons
  {
    Buttons(Vis(Shown(t, sub, s, image, Dismiss)), Vis(Shown(t, sub, s, image, Delete)),
            Vis(Shown(t, sub, s, image, Call)), Vis(Shown(t, sub, s, image, Reply)),
            Vis(Shown(t, sub, s, image, View)))
  }

  /** The SMS and MMS rows: dismiss, delete and (in the text row only) reply, each as its preference says. */
  lemma SmsButtonStates(t: PopupType, sub: SubType, s: ButtonSettings, image: bool)
    requires t == Sms || t == Mms
    ensures ButtonStates(t, sub, s, image) ==
      if image != s.iconOnly || ParseInt(s.countAction).None? then AllGone
      else Buttons(Vis(DisplayPref(s, Dismiss)), Vis(DisplayPref(s, Delete)), Gone, Vis(!image && DisplayPref(s, Reply)), Gone)
  {
  }

  /**
   * The Twitter rows: dismiss; delete except for mentions and follower
   * requests; reply except for follower requests; view except for direct
   * messages; each as its preference says.
   */
  lemma TwitterButtonStates(sub: SubType, s: ButtonSettings, image: bool)
    ensures ButtonStates(Twitter, sub, s, image) ==
      if image != s.iconOnly || ParseInt(s.countAction).None? then AllGone
      else Buttons(Vis(DisplayPref(s, Dismiss)),
                   Vis(sub != TwitterMention && sub != TwitterFollowerRequest && DisplayPref(s, Delete)), Gone,
                   Vis(sub != TwitterFollowerRequest && DisplayPref(s, Reply)),
                   Vis(sub != TwitterDirectMessage && DisplayPref(s, View)))
  {
  }

  /**
   * The Facebook rows: dismiss; reply except for notifications and friend
   * requests; view; each as its preference says.
   */
  lemma FacebookButtonStates(sub: SubType, s: ButtonSettings, image: bool)
    ensures ButtonStates(Facebook, sub, s, image) ==
      if image != s.iconOnly || ParseInt(s.countAction).None? then AllGone
      else Buttons(Vis(DisplayPref(s, Dismiss)), Gone, Gone,
                   Vis(sub != FacebookNotification && sub != FacebookFriendRequest && DisplayPref(s, Reply)),
                   Vis(DisplayPref(s, View)))
  {
  }

  /** The two button rows of the popup and their buttons. */
  class ButtonBar {
    var buttonRow: Visibility
    var imageButtonRow: Visibility
    var textButtons: Buttons
    var imageButtons: Buttons

    /** Every view starts as the layout inflates it: visible. */
    constructor ()
      ensures buttonRow == Visible && imageButtonRow == Visible
      ensures textButtons == Buttons(Visible, Visible, Visible, Visible, Visible)
      ensures imageButtons == Buttons(Visible, Visible, Visible, Visible, Visible)
    {
      buttonRow := Visible;
      imageButtonRow := Visible;
      textButtons := Buttons(Visible, Visible, Visible, Visible, Visible);
      imageButtons := Buttons(Visible, Visible, Visible, Visible, Visible);
    }

    /** `setVisibility(shown ? VISIBLE : GONE)` on a button of the image or the text row. */
    method SetButton(image: bool, b: Button, shown: bool)
      modifies this
      ensures buttonRow == old(buttonRow) && imageButtonRow == old(imageButtonRow)
      ensures image ==> imageButtons == With(old(imageButtons), b, Vis(shown)) && textButtons == old(textButtons)
      ensures !image ==> textButtons == With(old(textButtons), b, Vis(shown)) && imageButtons == old(imageButtons)
    {
      if image {
        imageButtons := With(imageButtons, b, Vis(shown));
      } else {
        textButtons := With(textButtons, b, Vis(shown));
      }
    }

    /** `setupViewButtons`. */
    method SetupViewButtons(t: PopupType, sub: SubType, s: ButtonSettings)
      modifies this
      ensures buttonRow == (if s.iconOnly then Gone else Visible)
      ensures imageButtonRow == (if s.iconOnly then Visible else Gone)
      ensures textButtons == ButtonStates(t, sub, s, false)
      ensures imageButtons == ButtonStates(t, sub, s, true)
    {
      var usingImageButtons := s.iconOnly;
      if usingImageButtons {
        buttonRow := Gone;
        imageButtonRow := Visible;
      } else {
        buttonRow := Visible;
        imageButtonRow := Gone;
      }
      textButtons := AllGone;
      imageButtons := AllGone;
      match t
      case Phone => SetupViewPhoneButtons(usingImageButtons, s, sub);
      case Sms => SetupViewSmsButtons(usingImageButtons, t, s, sub);
      case Mms => SetupViewSmsButtons(usingImageButtons, t, s, sub);
      case Calendar => SetupViewCalendarButtons(usingImageButtons, s, sub);
      case Gmail =>
      case Twitter => SetupViewTwitterButtons(usingImageButtons, sub, s);
      case Facebook => SetupViewFacebookButtons(usingImageButtons, sub, s);
      case K9 => SetupViewK9Buttons(usingImageButtons, s, sub);
    }

    /** `setupViewPhoneButtons`; `sub` only names the subtype the result is stated for. */
    method SetupViewPhoneButtons(usingImageButtons: bool, s: ButtonSettings, ghost sub: SubType)
      requires usingImageButtons == s.iconOnly
      requires textButtons == AllGone && imageButtons == AllGone
      modifies this
      ensures buttonRow == old(buttonRow) && imageButtonRow == old(imageButtonRow)
      ensures textButtons == ButtonStates(Phone, sub, s, false)
      ensures imageButtons == ButtonStates(Phone, sub, s, true)
    {
      var notificationCountAction := ParseInt(s.countAction);
      if notificationCountAction.None? {
        return;
      }
      SetButton(usingImageButtons, Dismiss, DisplayPref(s, Dismiss));
      SetButton(usingImageButtons, Call, DisplayPref(s, Call));
    }

    /** `setupViewSMSButtons`, shared by SMS and MMS. */
    method SetupViewSmsButtons(usingImageButtons: bool, t: PopupType, s: ButtonSettings, ghost sub: SubType)
      requires usingImageButtons == s.iconOnly && (t == Sms || t == Mms)
      requires textButtons == AllGone && imageButtons == AllGone
      modifies this
      ensures buttonRow == old(buttonRow) && imageButtonRow == old(imageButtonRow)
      ensures textButtons == ButtonStates(t, sub, s, false)
      ensures imageButtons == ButtonStates(t, sub, s, true)
    {
      SmsButtonStates(t, sub, s, false);
      SmsButtonStates(t, sub, s, true);
      var notificationCountAction := ParseInt(s.countAction);
      if notificationCountAction.None? {
        return;
      }
      SetButton(usingImageButtons, Dismiss, DisplayPref(s, Dismiss));
      SetButton(usingImageButtons, Delete, DisplayPref(s, Delete));
      if usingImageButtons {
        // With the preference on only a click listener is attached.
        if !DisplayPref(s, Reply) {
          SetButton(true, Reply, false);
        }
      } else {
        SetButton(false, Reply, DisplayPref(s, Reply));
      }
    }

    /** `setupViewCalendarButtons`. */
    method SetupViewCalendarButtons(usingImageButtons: bool, s: ButtonSettings, ghost sub: SubType)
      requires usingImageButtons == s.iconOnly
      requires textButtons == AllGone && imageButtons == AllGone
      modifies this
      ensures buttonRow == old(buttonRow) && imageButtonRow == old(imageButtonRow)
      ensures textButtons == ButtonStates(Calendar, sub, s, false)
      ensures imageButtons == ButtonStates(Calendar, sub, s, true)
    {
      var notificationCountAction := ParseInt(s.countAction);
      if notificationCountAction.None? {
        return;
      }
      SetButton(usingImageButtons, Dismiss, DisplayPref(s, Dismiss));
      SetButton(usingImageButtons, View, DisplayPref(s, View));
    }

    /** `setupViewTwitterButtons`. */
    method SetupViewTwitterButtons(usingImageButtons: bool, sub: SubType, s: ButtonSettings)
      requires usingImageButtons == s.iconOnly
      requires textButtons == AllGone && imageButtons == AllGone
      modifies this
      ensures buttonRow == old(buttonRow) && imageButtonRow == old(imageButtonRow)
      ensures textButtons == ButtonStates(Twitter, sub, s, false)
      ensures imageButtons == ButtonStates(Twitter, sub, s, true)
    {
      TwitterButtonStates(sub, s, false);
      TwitterButtonStates(sub, s, true);
      var notificationCountAction := ParseInt(s.countAction);
      if notificationCountAction.None? {
        return;
      }
      SetButton(usingImageButtons, Dismiss, DisplayPref(s, Dismiss));
      if sub == TwitterMention || sub == TwitterFollowerRequest {
        SetButton(usingImageButtons, Delete, false);
      } else {
        SetButton(usingImageButtons, Delete, DisplayPref(s, Delete));
      }
      if sub == TwitterFollowerRequest {
        SetButton(usingImageButtons, Reply, false);
      } else {
        SetButton(usingImageButtons, Reply, DisplayPref(s, Reply));
      }
      if sub == TwitterDirectMessage {
        SetButton(usingImageButtons, View, false);
      } else {
        SetButton(usingImageButtons, View, DisplayPref(s, View));
      }
    }

    /** `setupViewFacebookButtons`. */
    method SetupViewFacebookButtons(usingImageButtons: bool, sub: SubType, s: ButtonSettings)
      requires usingImageButtons == s.iconOnly
      requires textButtons == AllGone && imageButtons == AllGone
      modifies this
      ensures buttonRow == old(buttonRow) && imageButtonRow == old(imageButtonRow)
      ensures textButtons == ButtonStates(Facebook, sub, s, false)
      ensures imageButtons == ButtonStates(Facebook, sub, s, true)
    {
      FacebookButtonStates(sub, s, false);
      FacebookButtonStates(sub, s, true);
      var notificationCountAction := ParseInt(s.countAction);
      if notificationCountAction.None? {
        return;
      }
      SetButton(usingImageButtons, Dismiss, DisplayPref(s, Dismiss));
      if sub == FacebookNotification || sub == FacebookFriendRequest {
        SetButton(usingImageButtons, Reply, false);
      } else {
        SetButton(usingImageButtons, Reply, DisplayPref(s, Reply));
      }
      SetButton(usingImageButtons, View, DisplayPref(s, View));
    }

    /** `setupViewK9Buttons`. */
    method SetupViewK9Buttons(usingImageButtons: bool, s: ButtonSettings, ghost sub: SubType)
      requires usingImageButtons == s.iconOnly
      requires textButtons == AllGone && imageButtons == AllGone
      modifies this
      ensures buttonRow == old(buttonRow) && imageButtonRow == old(imageButtonRow)
      ensures textButtons == ButtonStates(K9, sub, s, false)
      ensures imageButtons == ButtonStates(K9, sub, s, true)
    {
      var notificationCountAction := ParseInt(s.countAction);
      if notificationCountAction.None? {
        return;
      }
      SetButton(usingImageButtons, Dismiss, DisplayPref(s, Dismiss));
      SetButton(usingImageButtons, Delete, DisplayPref(s, Delete));
      SetButton(usingImageButtons, Reply, DisplayPref(s, Reply));
    }
  }

  // Properties of the button table

  /** Only the row of the chosen style can show a button. */
  lemma InactiveRowShowsNothing(t: PopupType, sub: SubType, s: ButtonSettings, b: Button)
    ensures Get(ButtonStates(t, sub, s, !s.iconOnly), b) == Gone
  {
    match b
    case Dismiss => case Delete => case Call => case Reply => case View =>
  }

  /** A GMAIL popup shows no action button at all. */
  lemma GmailShowsNoButtons(sub: SubType, s: ButtonSettings, image: bool)
    ensures ButtonStates(Gmail, sub, s, image) == AllGone
  {
  }

  /** A count action that is not an int leaves every button hidden. */
  lemma UnparsableCountActionHidesAll(t: PopupType, sub: SubType, s: ButtonSettings, image: bool)
    requires ParseInt(s.countAction).None?
    ensures ButtonStates(t, sub, s, image) == AllGone
  {
  }

  /**
   * Twitter subtypes hide buttons whatever the preferences say: delete for a
   * mention or a follower request, reply for a follower request, view for a
   * direct message.
   */
  lemma TwitterSubtypeHides(sub: SubType, s: ButtonSettings, image: bool)
    ensures sub == TwitterMention || sub == TwitterFollowerRequest ==> ButtonStates(Twitter, sub, s, image).delete == Gone
    ensures sub == TwitterFollowerRequest ==> ButtonStates(Twitter, sub, s, image).reply == Gone
    ensures sub == TwitterDirectMessage ==> ButtonStates(Twitter, sub, s, image).view == Gone
  {
  }

  /** A Facebook popup never shows delete, and hides reply for notifications and friend requests. */
  lemma FacebookHides(sub: SubType, s: ButtonSettings, image: bool)
    ensures ButtonStates(Facebook, sub, s, image).delete == Gone
    ensures ButtonStates(Facebook, sub, s, image).call == Gone
    ensures sub == FacebookNotification || sub == FacebookFriendRequest ==> ButtonStates(Facebook, sub, s, image).reply == Gone
  {
  }

  /** SMS and MMS in icon-only style: the reply image button stays hidden even with its preference on. */
  lemma SmsIconReplyHidden(t: PopupType, sub: SubType, s: ButtonSettings)
    requires t == Sms || t == Mms
    ensures ButtonStates(t, sub, s, true).reply == Gone
    ensures !s.iconOnly && ParseInt(s.countAction).Some? ==>
              (ButtonStates(t, sub, s, false).reply == Visible <==> DisplayPref(s, Reply))
  {
  }

  /**
   * Outside the quirks above, a button of the active row is shown exactly when
   * its type offers it and its preference is on; with nothing stored every
   * offered button is shown.
   */
  lemma ActiveRowFollowsPreferences(t: PopupType, sub: SubType, s: ButtonSettings, b: Button)
    requires ParseInt(s.countAction).Some?
    requires !(s.iconOnly && (t == Sms || t == Mms) && b == Reply)
    ensures Get(ButtonStates(t, sub, s, s.iconOnly), b) == Visible <==> Offers(t, sub, b) && DisplayPref(s, b)
    ensures s.display == map[] && Offers(t, sub, b) ==> Get(ButtonStates(t, sub, s, s.iconOnly), b) == Visible
  {
    ButtonStateIsShown(t, sub, s, s.iconOnly, b);
  }

  lemma ButtonStateIsShown(t: PopupType, sub: SubType, s: ButtonSettings, image: bool, b: Button)
    ensures Get(ButtonStates(t, sub, s, image), b) == Vis(Shown(t, sub, s, image, b))
  {
    match b
    case Dismiss => case Delete => case Call => case Reply => case View =>
  }

  // ---------------------------------------------------------------------------
  // Content views
  // ---------------------------------------------------------------------------

  /** The boolean preferences `populateViewInfo` and `setNotificationMessage` read. */
  datatype ViewFlag =
    | ContactNameDisplay | ContactNameHideUnknown | ContactNumberDisplay | ContactPhotoDisplay
    | CalendarHideBody | SmsHideBody | MmsHideBody | TwitterHideBody | FacebookHideBody | K9HideBody
    | BodyCenterAlign

  /** The three display flags default to true; the hide and align flags to false. */
  predicate FlagDefault(f: ViewFlag)
  {
    f == ContactNameDisplay || f == ContactNumberDisplay || f == ContactPhotoDisplay
  }

  /**
   * The view preferences: stored flags, and the text of the body max-lines and
   * photo-background preferences as `getString` returns them (the latter with
   * default "0").
   */
  datatype ViewPrefs = ViewPrefs(flags: map<ViewFlag, bool>, maxLinesText: string, photoBackgroundText: string)

  function Flag(p: ViewPrefs, f: ViewFlag): bool
  {
    if f in p.flags then p.flags[f] else FlagDefault(f)
  }

  /** What the view shows of its notification. */
  datatype ViewNotification = ViewNotification(
    kind: PopupType, title: Option<string>, contactName: string, sentFromAddress: string, messageBody: string)

  datatype PhotoFrame = FroyoFrame | GingerbreadFrame | WhiteFrame

  /** The title, with "No Title" for a missing or empty one. */
  function Title(title: Option<string>): (r: string)
    ensures r != ""
    ensures title.Some? && title.value != "" ==> r == title.value
  {
    if title.None? || title.value == "" then "No Title" else title.value
  }

  /** The contact name is shown iff its display flag is on and it is not a hidden unknown name. */
  predicate ShowsContactName(p: ViewPrefs, name: string, unknownName: string)
  {
    Flag(p, ContactNameDisplay) && !(Flag(p, ContactNameHideUnknown) && name == unknownName)
  }

  /**
   * The text put in the number view when numbers are displayed: the raw
   * address for an e-mail-like address or a Twitter popup, `None` (text left
   * as it was) for a Facebook popup, and the formatted number otherwise.
   */
  function NumberText(kind: PopupType, address: string, formatted: string): (r: Option<string>)
    ensures r == Some(address) <== '@' in address || kind == Twitter
    ensures r.None? <==> kind == Facebook && '@' !in address
    ensures r.Some? ==> r.value == address || r.value == formatted
  {
    if '@' in address || kind == Twitter then Some(address)
    else if kind == Facebook then None
    else Some(formatted)
  }

  /** The body view's visibility per type; `None` where the type leaves it as it was. */
  function BodyVisibility(kind: PopupType, p: ViewPrefs): (r: Option<Visibility>)
    ensures r.None? <==> kind == Gmail
    ensures kind == Phone || kind == Mms ==> r == Some(Gone)
  {
    match kind
    case Calendar => Some(Vis(!Flag(p, CalendarHideBody)))
    case Sms => Some(Vis(!Flag(p, SmsHideBody)))
    case Mms => Some(Gone)
    case Phone => Some(Gone)
    case Twitter => Some(Vis(!Flag(p, TwitterHideBody)))
    case Facebook => Some(Vis(!Flag(p, FacebookHideBody)))
    case Gmail => None
    case K9 => Some(Vis(!Flag(p, K9HideBody)))
  }

  function PhotoFrameFor(background: int): PhotoFrame
  {
    if background == 1 then FroyoFrame else if background == 2 then GingerbreadFrame else WhiteFrame
  }

  /** The views the type split of `populateViewInfo` sets: name, number, photo, progress bar and photo frame. */
  datatype HeaderViews = HeaderViews(
    nameVisibility: Visibility, nameText: string, numberVisibility: Visibility, numberText: string,
    photoVisibility: Visibility, progressVisibility: Visibility, photoFrame: PhotoFrame)

  /**
   * The header views after the type split, from the views `h` before it: a
   * calendar popup shows its title and no number or photo; any other popup
   * shows the name, number and photo its preferences ask for. Defined when
   * the split runs to its end.
   */
  function PopulatedHeader(n: ViewNotification, titleText: string, p: ViewPrefs, unknownName: string, formattedNumber: string,
                           h: HeaderViews): HeaderViews
    requires n.kind == Calendar || !Flag(p, ContactPhotoDisplay) || ParseInt(p.photoBackgroundText).Some?
  {
    if n.kind == Calendar then
      h.(nameText := titleText, numberVisibility := Gone, photoVisibility := Gone, progressVisibility := Gone)
    else
      var shows := ShowsContactName(p, n.contactName, unknownName);
      var number := NumberText(n.kind, n.sentFromAddress, formattedNumber);
      var photo := Flag(p, ContactPhotoDisplay);
      HeaderViews(
        Vis(shows), if shows then n.contactName else h.nameText,
        Vis(Flag(p, ContactNumberDisplay)),
        if Flag(p, ContactNumberDisplay) && number.Some? then number.value else h.numberText,
        if photo then h.photoVisibility else Gone, if photo then h.progressVisibility else Gone,
        if photo then PhotoFrameFor(ParseInt(p.photoBackgroundText).value) else h.photoFrame)
  }

  /** `setNotificationMessage`: the fixed text of a missed call, the message body otherwise. */
  function NotificationText(kind: PopupType, body: string): (r: string)
    ensures kind == Phone ==> r == "Missed Call!"
    ensures kind != Phone ==> r == body
  {
    if kind == Phone then "Missed Call!" else body
  }

  /**
   * `populateViewInfo` runs to its end unless the max-lines preference, or
   * (when a contact photo is displayed) the photo-background preference, is
   * not an int; either exception escapes the view's constructor.
   */
  predicate PopulateCompletes(kind: PopupType, p: ViewPrefs)
  {
    && ParseInt(p.maxLinesText).Some?
    && (kind == Calendar || !Flag(p, ContactPhotoDisplay) || ParseInt(p.photoBackgroundText).Some?)
  }

  /** The content views of the popup. */
  class ContentViews {
    var nameVisibility: Visibility
    var nameText: string
    var numberVisibility: Visibility
    var numberText: string
    var photoVisibility: Visibility
    var progressVisibility: Visibility
    var photoFrame: PhotoFrame
    var detailsVisibility: Visibility
    var detailsText: string
    var detailsMaxLines: Option<int>
    var detailsCentered: bool
    var mmsLinkVisibility: Visibility

    function Header(): HeaderViews
      reads this
    {
      HeaderViews(nameVisibility, nameText, numberVisibility, numberText, photoVisibility, progressVisibility, photoFrame)
    }

    /** Every view starts as the layout inflates it: visible and empty. */
    constructor ()
      ensures nameVisibility == Visible && numberVisibility == Visible && photoVisibility == Visible
      ensures progressVisibility == Visible && detailsVisibility == Visible && mmsLinkVisibility == Visible
      ensures nameText == "" && numberText == "" && detailsText == ""
      ensures photoFrame == WhiteFrame && detailsMaxLines.None? && !detailsCentered
    {
      nameVisibility, nameText := Visible, "";
      numberVisibility, numberText := Visible, "";
      photoVisibility, progressVisibility, photoFrame := Visible, Visible, WhiteFrame;
      detailsVisibility, detailsText, detailsMaxLines, detailsCentered := Visible, "", None, false;
      mmsLinkVisibility := Visible;
    }

    /**
     * `populateViewInfo`. `unknownName` is the platform's unknown-name string
     * and `formattedNumber` the formatted form of the sender's address.
     * `loadContactPhoto` says whether the contact-photo task is started.
     */
    method PopulateViewInfo(n: ViewNotification, p: ViewPrefs, unknownName: string, formattedNumber: string)
      returns (completed: bool, loadContactPhoto: bool)
      modifies this
      ensures completed <==> PopulateCompletes(n.kind, p)
      ensures loadContactPhoto <==> completed && n.kind != Calendar && Flag(p, ContactPhotoDisplay)
      ensures ParseInt(p.maxLinesText).None? ==>
                && nameVisibility == old(nameVisibility) && nameText == old(nameText)
                && numberVisibility == old(numberVisibility) && numberText == old(numberText)
                && photoVisibility == old(photoVisibility) && progressVisibility == old(progressVisibility)
                && photoFrame == old(photoFrame) && detailsVisibility == old(detailsVisibility)
                && detailsText == old(detailsText) && detailsMaxLines == old(detailsMaxLines)
                && detailsCentered == old(detailsCentered) && mmsLinkVisibility == old(mmsLinkVisibility)
      ensures completed ==> detailsMaxLines == ParseInt(p.maxLinesText)
      ensures completed ==> Header() == PopulatedHeader(n, Title(n.title), p, unknownName, formattedNumber, old(Header()))
      ensures completed ==>
                && detailsVisibility == (if BodyVisibility(n.kind, p).Some? then BodyVisibility(n.kind, p).value
                                         else old(detailsVisibility))
                && mmsLinkVisibility == (if n.kind == Mms then Vis(!Flag(p, MmsHideBody)) else old(mmsLinkVisibility))
                && detailsText == NotificationText(n.kind, n.messageBody)
                && detailsCentered == Flag(p, BodyCenterAlign)
    {
      loadContactPhoto := true;
      var titleText := Title(n.title);
      var maxLines := ParseInt(p.maxLinesText);
      if maxLines.None? {
        return false, false;
      }
      detailsMaxLines := maxLines;
      var headerShown := PopulateHeaderViews(n, titleText, p, unknownName, formattedNumber);
      if !headerShown {
        return false, false;
      }
      if n.kind == Calendar || !Flag(p, ContactPhotoDisplay) {
        loadContactPhoto := false;
      }
      PopulateBodyViews(n, p);
      completed := true;
    }

    /**
     * The type split in the middle of `populateViewInfo`: the calendar title,
     * or the contact name, number and photo. Returns false when the
     * photo-background preference is read and is not an int.
     */
    method PopulateHeaderViews(n: ViewNotification, titleText: string, p: ViewPrefs, unknownName: string, formattedNumber: string)
      returns (shown: bool)
      modifies this`nameVisibility, this`nameText, this`numberVisibility, this`numberText
      modifies this`photoVisibility, this`progressVisibility, this`photoFrame, this`detailsVisibility
      ensures shown <==> n.kind == Calendar || !Flag(p, ContactPhotoDisplay) || ParseInt(p.photoBackgroundText).Some?
      ensures shown ==> Header() == PopulatedHeader(n, titleText, p, unknownName, formattedNumber, old(Header()))
      ensures shown ==> detailsVisibility == if n.kind == Calendar then BodyVisibility(Calendar, p).value else old(detailsVisibility)
    {
      if n.kind == Calendar {
        PopulateCalendarViews(titleText, p);
        shown := true;
      } else {
        shown := PopulateContactViews(n, p, unknownName, formattedNumber);
      }
    }

    /** The end of `populateViewInfo`: the body view, the MMS link and the body text. */
    method PopulateBodyViews(n: ViewNotification, p: ViewPrefs)
      modifies this`detailsVisibility, this`mmsLinkVisibility, this`detailsText, this`detailsCentered
      ensures detailsVisibility == (if n.kind != Calendar && BodyVisibility(n.kind, p).Some? then BodyVisibility(n.kind, p).value
                                    else old(detailsVisibility))
      ensures mmsLinkVisibility == (if n.kind == Mms then Vis(!Flag(p, MmsHideBody)) else old(mmsLinkVisibility))
      ensures detailsText == NotificationText(n.kind, n.messageBody)
      ensures detailsCentered == Flag(p, BodyCenterAlign)
    {
      SetBodyVisibility(n.kind, p);
      SetNotificationMessage(n, p);
    }

    /** The Calendar branch of `populateViewInfo`: the title in the name view, no number and no photo. */
    method PopulateCalendarViews(titleText: string, p: ViewPrefs)
      modifies this`nameText, this`numberVisibility, this`photoVisibility, this`progressVisibility
      modifies this`detailsVisibility
      ensures nameText == titleText
      ensures numberVisibility == Gone && photoVisibility == Gone && progressVisibility == Gone
      ensures detailsVisibility == BodyVisibility(Calendar, p).value
    {
      nameText := titleText;
      numberVisibility := Gone;
      photoVisibility := Gone;
      progressVisibility := Gone;
      if Flag(p, CalendarHideBody) {
        detailsVisibility := Gone;
      } else {
        detailsVisibility := Visible;
      }
    }

    /**
     * The contact part of `populateViewInfo` for every type but Calendar: the
     * name, the number and the photo frame. Returns false when the
     * photo-background preference is read and is not an int.
     */
    method PopulateContactViews(n: ViewNotification, p: ViewPrefs, unknownName: string, formattedNumber: string)
      returns (photoParsed: bool)
      modifies this`nameVisibility, this`nameText, this`numberVisibility, this`numberText
      modifies this`photoVisibility, this`progressVisibility, this`photoFrame
      ensures photoParsed <==> !Flag(p, ContactPhotoDisplay) || ParseInt(p.photoBackgroundText).Some?
      ensures nameVisibility == Vis(ShowsContactName(p, n.contactName, unknownName))
      ensures nameText == (if ShowsContactName(p, n.contactName, unknownName) then n.contactName else old(nameText))
      ensures numberVisibility == Vis(Flag(p, ContactNumberDisplay))
      ensures numberText == (if Flag(p, ContactNumberDisplay) && NumberText(n.kind, n.sentFromAddress, formattedNumber).Some?
                             then NumberText(n.kind, n.sentFromAddress, formattedNumber).value else old(numberText))
      ensures photoParsed ==>
                && photoVisibility == (if Flag(p, ContactPhotoDisplay) then old(photoVisibility) else Gone)
                && progressVisibility == (if Flag(p, ContactPhotoDisplay) then old(progressVisibility) else Gone)
                && photoFrame == (if Flag(p, ContactPhotoDisplay) then PhotoFrameFor(ParseInt(p.photoBackgroundText).value)
                                  else old(photoFrame))
    {
      ShowContactName(n.contactName, p, unknownName);
      ShowContactNumber(n, p, formattedNumber);
      photoParsed := ShowContactPhoto(p);
    }

    /** Show/hide contact name. */
    method ShowContactName(contactName: string, p: ViewPrefs, unknownName: string)
      modifies this`nameVisibility, this`nameText
      ensures nameVisibility == Vis(ShowsContactName(p, contactName, unknownName))
      ensures nameText == (if ShowsContactName(p, contactName, unknownName) then contactName else old(nameText))
    {
      var displayContactNameText := true;
      if Flag(p, ContactNameDisplay) {
        if Flag(p, ContactNameHideUnknown) {
          if contactName == unknownName {
            displayContactNameText := false;
          } else {
            displayContactNameText := true;
          }
        } else {
          displayContactNameText := true;
        }
      } else {
        displayContactNameText := false;
      }
      if displayContactNameText {
        nameText := contactName;
        nameVisibility := Visible;
      } else {
        nameVisibility := Gone;
      }
    }

    /** Show/hide contact number. */
    method ShowContactNumber(n: ViewNotification, p: ViewPrefs, formattedNumber: string)
      modifies this`numberVisibility, this`numberText
      ensures numberVisibility == Vis(Flag(p, ContactNumberDisplay))
      ensures numberText == (if Flag(p, ContactNumberDisplay) && NumberText(n.kind, n.sentFromAddress, formattedNumber).Some?
                             then NumberText(n.kind, n.sentFromAddress, formattedNumber).value else old(numberText))
    {
      if Flag(p, ContactNumberDisplay) {
        var sentFromAddress := n.sentFromAddress;
        if '@' in sentFromAddress {
          numberText := sentFromAddress;
        } else if n.kind == Twitter {
          numberText := sentFromAddress;
        } else if n.kind == Facebook {
          numberVisibility := Gone;
        } else {
          numberText := formattedNumber;
        }
        numberVisibility := Visible;
      } else {
        numberVisibility := Gone;
      }
    }

    /** Show/hide contact photo; false when the photo-background preference is read and is not an int. */
    method ShowContactPhoto(p: ViewPrefs) returns (photoParsed: bool)
      modifies this`photoVisibility, this`progressVisibility, this`photoFrame
      ensures photoParsed <==> !Flag(p, ContactPhotoDisplay) || ParseInt(p.photoBackgroundText).Some?
      ensures photoParsed ==>
                && photoVisibility == (if Flag(p, ContactPhotoDisplay) then old(photoVisibility) else Gone)
                && progressVisibility == (if Flag(p, ContactPhotoDisplay) then old(progressVisibility) else Gone)
                && photoFrame == (if Flag(p, ContactPhotoDisplay) then PhotoFrameFor(ParseInt(p.photoBackgroundText).value)
                                  else old(photoFrame))
    {
      if Flag(p, ContactPhotoDisplay) {
        var contactPhotoBackground := ParseInt(p.photoBackgroundText);
        if contactPhotoBackground.None? {
          return false;
        }
        if contactPhotoBackground.value == 1 {
          photoFrame := FroyoFrame;
        } else if contactPhotoBackground.value == 2 {
          photoFrame := GingerbreadFrame;
        } else {
          photoFrame := WhiteFrame;
        }
      } else {
        photoVisibility := Gone;
        progressVisibility := Gone;
      }
      return true;
    }

    /**
     * The type chain at the end of `populateViewInfo`: the body view and the
     * MMS link (Calendar, which set its body view earlier, is not in it).
     */
    method SetBodyVisibility(kind: PopupType, p: ViewPrefs)
      modifies this`detailsVisibility, this`mmsLinkVisibility
      ensures detailsVisibility == (if kind != Calendar && BodyVisibility(kind, p).Some? then BodyVisibility(kind, p).value
                                    else old(detailsVisibility))
      ensures mmsLinkVisibility == (if kind == Mms then Vis(!Flag(p, MmsHideBody)) else old(mmsLinkVisibility))
    {
      if kind == Sms {
        detailsVisibility := if Flag(p, SmsHideBody) then Gone else Visible;
      } else if kind == Mms {
        detailsVisibility := Gone;
        mmsLinkVisibility := if Flag(p, MmsHideBody) then Gone else Visible;
      } else if kind == Phone {
        detailsVisibility := Gone;
      } else if kind == Twitter {
        detailsVisibility := if Flag(p, TwitterHideBody) then Gone else Visible;
      } else if kind == Facebook {
        detailsVisibility := if Flag(p, FacebookHideBody) then Gone else Visible;
      } else if kind == Gmail {
      } else if kind == K9 {
        detailsVisibility := if Flag(p, K9HideBody) then Gone else Visible;
      }
    }

    /** `setNotificationMessage`: the body text and its alignment. */
    method SetNotificationMessage(n: ViewNotification, p: ViewPrefs)
      modifies this`detailsText, this`detailsCentered
      ensures detailsText == NotificationText(n.kind, n.messageBody)
      ensures detailsCentered == Flag(p, BodyCenterAlign)
    {
      var notificationText := "";
      match n.kind {
        case Phone => notificationText := "Missed Call!";
        case Sms => notificationText := n.messageBody;
        case Mms => notificationText := n.messageBody;
        case Calendar => notificationText := n.messageBody;
        case Gmail => notificationText := n.messageBody;
        case Twitter => notificationText := n.messageBody;
        case Facebook => notificationText := n.messageBody;
        case K9 => notificationText := n.messageBody;
      }
      detailsText := notificationText;
      detailsCentered := Flag(p, BodyCenterAlign);
    }
  }

  // Properties of the content rules

  /**
   * The contact name is hidden exactly when its display flag is off, or when
   * unknown names are hidden and the name is the unknown-name string.
   */
  lemma ContactNameHiddenIff(p: ViewPrefs, name: string, unknownName: string)
    ensures !ShowsContactName(p, name, unknownName) <==>
              !Flag(p, ContactNameDisplay) || (Flag(p, ContactNameHideUnknown) && name == unknownName)
    ensures p.flags == map[] ==> ShowsContactName(p, name, unknownName)
  {
  }

  /**
   * What the type split shows: a calendar popup its title and no number,
   * photo or progress bar; any other popup its name exactly when
   * `ShowsContactName`, its number view exactly when numbers are displayed,
   * and its photo and progress bar only when photos are displayed.
   */
  lemma PopulatedHeaderShows(n: ViewNotification, titleText: string, p: ViewPrefs, unknownName: string, formattedNumber: string,
                             h: HeaderViews)
    requires n.kind == Calendar || !Flag(p, ContactPhotoDisplay) || ParseInt(p.photoBackgroundText).Some?
    ensures var r := PopulatedHeader(n, titleText, p, unknownName, formattedNumber, h);
      n.kind == Calendar ==>
        && r.nameText == titleText && r.nameVisibility == h.nameVisibility
        && r.numberVisibility == Gone && r.numberText == h.numberText
        && r.photoVisibility == Gone && r.progressVisibility == Gone && r.photoFrame == h.photoFrame
    ensures var r := PopulatedHeader(n, titleText, p, unknownName, formattedNumber, h);
      n.kind != Calendar ==>
        && (r.nameVisibility == Visible <==> ShowsContactName(p, n.contactName, unknownName))
        && (ShowsContactName(p, n.contactName, unknownName) ==> r.nameText == n.contactName)
        && (r.numberVisibility == Visible <==> Flag(p, ContactNumberDisplay))
        && (r.photoVisibility == Gone <== !Flag(p, ContactPhotoDisplay))
        && (r.progressVisibility == Gone <== !Flag(p, ContactPhotoDisplay))
        && (Flag(p, ContactPhotoDisplay) ==>
              r.photoVisibility == h.photoVisibility && r.photoFrame == PhotoFrameFor(ParseInt(p.photoBackgroundText).value))
  {
  }

  /**
   * With numbers displayed, a Facebook popup whose address is not e-mail-like
   * ends with its number view VISIBLE and its text untouched: the view is
   * hidden and then shown again.
   */
  lemma FacebookNumberStaysVisible(n: ViewNotification, titleText: string, p: ViewPrefs, unknownName: string,
                                   formattedNumber: string, h: HeaderViews)
    requires n.kind == Facebook && Flag(p, ContactNumberDisplay) && '@' !in n.sentFromAddress
    requires !Flag(p, ContactPhotoDisplay) || ParseInt(p.photoBackgroundText).Some?
    ensures PopulatedHeader(n, titleText, p, unknownName, formattedNumber, h).numberVisibility == Visible
    ensures PopulatedHeader(n, titleText, p, unknownName, formattedNumber, h).numberText == h.numberText
  {
  }

  /** Only Twitter and e-mail-like addresses are shown raw; Facebook keeps its text; the rest are formatted. */
  lemma NumberTextByType(kind: PopupType, address: string, formatted: string)
    requires '@' !in address
    ensures kind == Twitter ==> NumberText(kind, address, formatted) == Some(address)
    ensures kind != Twitter && kind != Facebook ==> NumberText(kind, address, formatted) == Some(formatted)
  {
  }

  /** `getContactPhotoPlaceholderResourceID`: picture `index` for 1..11, picture 1 otherwise. */
  function ContactPhotoPlaceholder(index: int): (r: int)
    ensures 1 <= r <= 11
    ensures 1 <= index <= 11 ==> r == index
    ensures !(1 <= index <= 11) ==> r == 1
  {
    if 1 <= index <= 11 then index else 1
  }
}
