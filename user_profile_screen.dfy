/** The user's own profile page: initials, name and "joined N days ago" derived from the
    signed-in user record, and the logout button. */
module UserProfileScreen {
  import opened Wrappers
  import opened Strings
  import opened Json
  import opened LanguageContext
  import opened AuthContext
  import opened Storage

  /** What the page shows of the user. `joinedDays` is the raw field value (or 0), since
      the template prints whatever it is. */
  datatype UserData = UserData(initials: string, name: string, joinedDays: JsonValue)

  /** `user?.name` read as a non-empty string, or None. */
  function UserName(user: Option<JsonObject>): (r: Option<string>)
    ensures r.Some? ==> r.value != ""
  {
    if user.Some? && "name" in user.value && user.value["name"].JStr? && user.value["name"].s != ""
    then Some(user.value["name"].s) else None
  }

  /** `user?.joinedDays || 0`. */
  function JoinedDays(user: Option<JsonObject>): (r: JsonValue)
    ensures Truthy(r) || r == JNum(0)
  {
    if user.Some? && "joinedDays" in user.value && Truthy(user.value["joinedDays"])
    then user.value["joinedDays"] else JNum(0)
  }

  /** The derived `userData`: the upper-cased initials of the name (or "U"), the name (or
      "User"), and the joined days (or 0). */
  function DeriveUserData(user: Option<JsonObject>): (d: UserData)
    ensures UserName(user).None? ==> d.initials == "U" && d.name == "User"
    ensures UserName(user).Some? ==>
              d.name == UserName(user).value && d.initials == UpperAscii(WordStarts(d.name, true))
    ensures d.joinedDays == JoinedDays(user)
  {
    match UserName(user)
    case None => UserData("U", "User", JoinedDays(user))
    case Some(name) =>
      InitialsAreWordStarts(name);
      UserData(UpperAscii(Initials(name)), name, JoinedDays(user))
  }

  /** How a value prints when substituted into a string: a string as itself, a number in
      decimal, which reads back as that number. */
  function JsString(v: JsonValue): (r: string)
    ensures v.JStr? ==> r == v.s
    ensures v.JNum? && v.n >= 0 ==> DecimalValue(r) == v.n
    ensures v.JNum? && v.n < 0 ==> r != [] && r[0] == '-' && DecimalValue(r[1..]) == -v.n
  {
    match v
    case JNull => "null"
    case JBool(b) => if b then "true" else "false"
    case JNum(n) =>
      DecimalRoundTrip(if n >= 0 then n else -n);
      IntToDecimal(n)
    case JStr(s) => s
  }

  /** The joined line: `t('joinedDaysAgo', {days})`. */
  function JoinedLine(tables: map<string, Table>, language: string, d: UserData): string {
    Translate(tables, language, "joinedDaysAgo", [("days", JsString(d.joinedDays))])
  }

  /** The default user of a login without data shows as "AR", "Ananya Rao" and, in
      English, "Joined 120 days ago". */
  lemma DefaultUserProfile(user: JsonObject)
    requires user == DefaultUser
    ensures DeriveUserData(Some(user)) == UserData("AR", "Ananya Rao", JNum(120))
    ensures JoinedLine(Excerpt, "en", DeriveUserData(Some(user))) == "Joined 120 days ago"
  {
    assert UserName(Some(user)) == Some("Ananya Rao") && JoinedDays(Some(user)) == JNum(120) by {
      assert "name" in user && "joinedDays" in user;
    }
    assert "Ananya" + " " + "Rao" == "Ananya Rao";
    TwoWordUserProfile(Some(user), "Ananya", "Rao");
    UpperAsciiKeepsNonLower("AR");
  }

  /** A user whose name is two words and who joined 120 days ago shows the capitals of
      the two first letters, the name and, in English, "Joined 120 days ago". */
  lemma TwoWordUserProfile(user: Option<JsonObject>, first: string, last: string)
    requires first != [] && last != [] && ' ' !in first && ' ' !in last
    requires UserName(user) == Some(first + " " + last) && JoinedDays(user) == JNum(120)
    ensures DeriveUserData(user) == UserData(UpperAscii([first[0], last[0]]), first + " " + last, JNum(120))
    ensures JoinedLine(Excerpt, "en", DeriveUserData(user)) == "Joined 120 days ago"
  {
    TwoWordInitials(first, last);
    InitialsAreWordStarts(first + " " + last);
    JoinedLineFor120(DeriveUserData(user));
  }

  /** 120 days print as "120", so the English line reads "Joined 120 days ago". */
  lemma JoinedLineFor120(d: UserData)
    requires d.joinedDays == JNum(120)
    ensures JoinedLine(Excerpt, "en", d) == "Joined 120 days ago"
  {
    var days := JsString(d.joinedDays);
    assert days == "120" by {
      assert NatToDecimal(1) == "1";
      assert NatToDecimal(12) == NatToDecimal(1) + [DigitChar(2)] == "12";
      assert NatToDecimal(120) == NatToDecimal(12) + [DigitChar(0)] == "120";
    }
    JoinedLineInEnglish(d, days);
    assert "Joined " + days + " days ago" == "Joined 120 days ago" by {
      EnglishLineFor120(days);
    }
  }

  /** The English sentence with "120" substituted, proved apart from the translation
      tables, which make the same step several times costlier inside `JoinedLineFor120`. */
  lemma EnglishLineFor120(days: string)
    requires days == "120"
    ensures "Joined " + days + " days ago" == "Joined 120 days ago"
  {
  }

  lemma JoinedLineInEnglish(d: UserData, days: string)
    requires JsString(d.joinedDays) == days
    ensures JoinedLine(Excerpt, "en", d) == "Joined " + days + " days ago"
  {
    JoinedDaysInEnglish(days);
  }

  /** A signed-out page (no user) shows "U", "User" and 0 days. */
  lemma SignedOutProfile()
    ensures DeriveUserData(None) == UserData("U", "User", JNum(0))
  {
  }

  /** `handleLogout`: the session is cleared first, then the app goes to "/". */
  method HandleLogout(auth: AuthProvider) returns (route: string)
    modifies auth, auth.storage
    ensures !auth.isAuthenticated && auth.user.None?
    ensures auth.storage.items == old(auth.storage.items) - {AuthStorageKey}
    ensures route == "/"
    ensures DeriveUserData(auth.user) == UserData("U", "User", JNum(0))
  {
    auth.Logout();
    route := "/";
  }
}
