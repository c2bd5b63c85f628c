/** The notifications screen: a local list of notification cards, their titles in either
    language, the action button each card shows, and dismissal. */
module NotificationsScreen {
  import opened Wrappers
  import opened Json

  /** One card. `titleName` and `titleLocation` are the optional `titleParams` fields;
      icon, colours and time only decorate the card and are not kept. */
  datatype Notification = Notification(
    id: int,
    kind: string,
    titleName: Option<string>,
    titleLocation: Option<string>,
    subtitle: string,
    action: string)

  /** The three mock cards the screen starts with. */
  const InitialNotifications: seq<Notification> := [
    Notification(1, "alert_attending", Some("Ananya Rao"), None, "Bangalore District", "view"),
    Notification(2, "new_volunteer", None, None, "Indiranagar Team", "dismiss"),
    Notification(3, "alert_resolved", None, Some("Mysore Road"), "Status updated", "none")
  ]

  /** `prev.filter(n => n.id !== id)`. */
  function Without(ns: seq<Notification>, id: int): (r: seq<Notification>)
    ensures |r| <= |ns|
    ensures forall n :: n in r <==> n in ns && n.id != id
    ensures (forall n :: n in ns ==> n.id != id) ==> r == ns
  {
    if ns == [] then []
    else if ns[0].id == id then Without(ns[1..], id)
    else [ns[0]] + Without(ns[1..], id)
  }

  /** Filtering a list made of two parts filters each part and keeps the parts in order;
      with the one-element case this pins down that the survivors keep their order. */
  lemma {:induction false} WithoutAppend(a: seq<Notification>, b: seq<Notification>, id: int)
    ensures Without(a + b, id) == Without(a, id) + Without(b, id)
  {
    if a == [] {
      assert a + b == b;
    } else {
      assert (a + b)[1..] == a[1..] + b;
      WithoutAppend(a[1..], b, id);
    }
  }

  /** Dismissing the same id twice is dismissing it once. */
  lemma WithoutTwice(ns: seq<Notification>, id: int)
    ensures Without(Without(ns, id), id) == Without(ns, id)
  {
  }

  const AttendingSuffix: string := " is attending your alert"
  const AttendingSuffixHindi: string := " आपके अलर्ट पर आ रहे हैं"
  const NewVolunteerTitle: string := "New volunteer joined your district"
  const NewVolunteerTitleHindi: string := "नया वॉलंटियर आपके जिले में जुड़ा"
  const ResolvedPrefix: string := "Alert Resolved: "
  const ResolvedPrefixHindi: string := "अलर्ट हल हो गया: "

  predicate IsKnownKind(kind: string) {
    kind == "alert_attending" || kind == "new_volunteer" || kind == "alert_resolved"
  }

  /** `getNotificationTitle`: a sentence per known type in the current language, and the
      subtitle for any other type. */
  function Title(n: Notification, isHindi: bool): (r: string)
    ensures !IsKnownKind(n.kind) ==> r == n.subtitle
  {
    if isHindi then
      if n.kind == "alert_attending" then OrElse(n.titleName, "कोई") + AttendingSuffixHindi
      else if n.kind == "new_volunteer" then NewVolunteerTitleHindi
      else if n.kind == "alert_resolved" then ResolvedPrefixHindi + OrElse(n.titleLocation, "")
      else n.subtitle
    else
      if n.kind == "alert_attending" then OrElse(n.titleName, "Someone") + AttendingSuffix
      else if n.kind == "new_volunteer" then NewVolunteerTitle
      else if n.kind == "alert_resolved" then ResolvedPrefix + OrElse(n.titleLocation, "")
      else n.subtitle
  }

  /** An attending card names the attendee when a non-empty name is given, and otherwise
      names "Someone" (English) or "कोई" (Hindi); the rest of the sentence is fixed. */
  lemma AttendingTitleNamesAttendee(n: Notification)
    requires n.kind == "alert_attending"
    ensures IsPresent(n.titleName) ==>
      Title(n, false) == n.titleName.value + AttendingSuffix
      && Title(n, true) == n.titleName.value + AttendingSuffixHindi
    ensures !IsPresent(n.titleName) ==>
      Title(n, false) == "Someone" + AttendingSuffix
      && Title(n, true) == "कोई" + AttendingSuffixHindi
  {
  }

  /** A resolved card ends with its location, or with nothing when none is given; a new
      volunteer card ignores its parameters. */
  lemma ResolvedAndVolunteerTitles(n: Notification, isHindi: bool)
    ensures n.kind == "alert_resolved" ==>
      Title(n, isHindi) == (if isHindi then ResolvedPrefixHindi else ResolvedPrefix)
        + (if IsPresent(n.titleLocation) then n.titleLocation.value else "")
    ensures n.kind == "new_volunteer" ==>
      Title(n, isHindi) == if isHindi then NewVolunteerTitleHindi else NewVolunteerTitle
  {
  }

  /** The title depends only on the type, the parameters and the subtitle, never on the
      id or the action. */
  lemma TitleIgnoresIdAndAction(n: Notification, id: int, action: string, isHindi: bool)
    ensures Title(n.(id := id, action := action), isHindi) == Title(n, isHindi)
  {
  }

  /** The button under a card. */
  datatype ActionButton = ViewAlertButton | DismissButton | NoButton

  /** `'view'` shows View Alert, `'dismiss'` shows Dismiss; `'none'` and any other value
      show no button. */
  function ButtonFor(action: string): (b: ActionButton)
    ensures b == ViewAlertButton <==> action == "view"
    ensures b == DismissButton <==> action == "dismiss"
    ensures b == NoButton <==> action != "view" && action != "dismiss"
  {
    if action == "none" then NoButton
    else if action == "view" then ViewAlertButton
    else if action == "dismiss" then DismissButton
    else NoButton
  }

  /** The mock list shows one button of each kind, in card order. */
  lemma InitialButtons()
    ensures |InitialNotifications| == 3
    ensures ButtonFor(InitialNotifications[0].action) == ViewAlertButton
    ensures ButtonFor(InitialNotifications[1].action) == DismissButton
    ensures ButtonFor(InitialNotifications[2].action) == NoButton
  {
  }

  class Screen {
    var notifications: seq<Notification>
    var hasNotification: bool

    constructor ()
      ensures notifications == InitialNotifications && hasNotification
    {
      notifications := InitialNotifications;
      hasNotification := true;
    }

    /** `handleDismiss(id)`: drops the cards with that id (the toast is not modelled). */
    method Dismiss(id: int)
      modifies this
      ensures notifications == Without(old(notifications), id)
      ensures hasNotification == old(hasNotification)
    {
      notifications := Without(notifications, id);
    }

    /** `handleViewAlert`: goes to the SOS screen and changes nothing on this one. */
    method ViewAlert(n: Notification) returns (route: string)
      ensures route == "/sos"
    {
      route := "/sos";
    }

    /** The bell: hides the unread dot. */
    method PressBell()
      modifies this
      ensures !hasNotification && notifications == old(notifications)
    {
      hasNotification := false;
    }
  }
}
