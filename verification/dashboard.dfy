/** examples/chainflow-login/static/dashboard.js: the page shown after login. It reads the
    session (`sessionStorage`), shortens the DID and proof id, formats the credential's
    expiry as DD.MM.YYYY, and on logout clears the three session keys. The DOM writes become
    the returned view; JavaScript's `Date` parsing and `parseInt` are parameters. */
module Dashboard {
  import opened Wrappers
  import opened Decimal
  import opened Calendar
  import opened BrowserStorage

  const UserDidKey := "userDID"
  const ProofIdKey := "proofId"
  const ExpiryDateKey := "expiryDate"
  /** The session keys the login page stores and logout removes. */
  const SessionKeys: set<string> := {UserDidKey, ProofIdKey, ExpiryDateKey}

  const LoginLocation := "/"
  const InvalidDateText := "Geçersiz tarih"
  const UnspecifiedText := "Belirtilmemiş"
  /** What formatDate writes for an invalid `Date`: every getter returns NaN. */
  const InvalidDateFormatted := "NaN.NaN.NaN"

  // ------------------------------------------------------------------ shortening

  /** formatDID: null, the empty string and strings shorter than 10 characters are
      returned as they are; longer ones become their first 8 characters, "...", and their
      last 4. */
  function FormatDID(did: Option<string>): (r: Option<string>)
    ensures did.None? || |did.value| < 10 ==> r == did
    ensures did.Some? && |did.value| >= 10 ==>
      && r.Some? && |r.value| == 15
      && r.value[..8] == did.value[..8]
      && r.value[8..11] == "..."
      && r.value[11..] == did.value[|did.value| - 4..]
  {
    match did
    case None => None
    case Some(s) => if |s| < 10 then did else Some(s[..8] + "..." + s[|s| - 4..])
  }

  /** formatProofId, written out separately in the page script. */
  function FormatProofId(proofId: Option<string>): (r: Option<string>)
    ensures proofId.None? || |proofId.value| < 10 ==> r == proofId
    ensures proofId.Some? && |proofId.value| >= 10 ==> r.Some? && |r.value| == 15
  {
    match proofId
    case None => None
    case Some(s) => if |s| < 10 then proofId else Some(s[..8] + "..." + s[|s| - 4..])
  }

  /** The two shortening rules are the same rule. */
  lemma FormatProofIdAgreesWithFormatDID(s: Option<string>)
    ensures FormatProofId(s) == FormatDID(s)
  {
  }

  /** Shortening a shortened value changes nothing. */
  lemma FormatDIDIdempotent(did: Option<string>)
    ensures FormatDID(FormatDID(did)) == FormatDID(did)
  {
    var r := FormatDID(did);
    if did.Some? && |did.value| >= 10 {
      assert r.value[|r.value| - 4..] == r.value[11..];
    }
  }

  // ------------------------------------------------------------------ dates

  /** formatDate: day and one-based month padded to two digits, then the year. */
  function FormatDate(date: CalendarDate): (r: string)
    ensures |r| >= 7 && r[2] == '.' && r[5] == '.'
    ensures AllDigits(r[..2]) && DigitsValue(r[..2]) == date.day
    ensures AllDigits(r[3..5]) && DigitsValue(r[3..5]) == date.month + 1
    ensures r[6..] == IntToString(date.year) && ParseInt(r[6..]) == Some(date.year)
  {
    var day, month, year := PadTwo(IntToString(date.day)), PadTwo(IntToString(date.month + 1)), IntToString(date.year);
    PadTwoOfSmall(date.day);
    PadTwoOfSmall(date.month + 1);
    IntToStringRoundTrip(date.year);
    DottedParts(day, month, year);
    day + "." + month + "." + year
  }

  /** Where the three parts sit in `a.b.c` when the first two have two characters. */
  lemma DottedParts(a: string, b: string, c: string)
    requires |a| == 2 && |b| == 2
    ensures var r := a + "." + b + "." + c;
      |r| == 6 + |c| && r[..2] == a && r[2] == '.' && r[3..5] == b && r[5] == '.' && r[6..] == c
  {
    var r := a + "." + b + "." + c;
    assert r[..2] == a;
    assert r[3..5] == b;
    assert r[6..] == c;
  }

  /** `String(n).padStart(2, '0')` of a number below 100 is two digits that read back as n. */
  lemma PadTwoOfSmall(n: nat)
    requires n < 100
    ensures var s := PadTwo(IntToString(n)); |s| == 2 && AllDigits(s) && DigitsValue(s) == n
  {
    var s := PadTwo(IntToString(n));
    NatToStringRoundTrip(n);
    if n < 10 {
      assert s == ['0'] + NatToString(n);
      assert s[..1] == ['0'];
    } else {
      assert |NatToString(n / 10)| == 1;
    }
  }

  /** Reads a DD.MM.YYYY text back into a calendar date. */
  function ParseFormattedDate(s: string): Option<DateParts>
  {
    if |s| >= 7 && s[2] == '.' && s[5] == '.' && AllDigits(s[..2]) && AllDigits(s[3..5]) && ParseInt(s[6..]).Some? then
      Some(DateParts(ParseInt(s[6..]).value, DigitsValue(s[3..5]) - 1, DigitsValue(s[..2])))
    else None
  }

  /** The displayed date determines the date: formatDate loses nothing. */
  lemma FormatDateRoundTrip(date: CalendarDate)
    ensures ParseFormattedDate(FormatDate(date)) == Some(date)
  {
  }

  /** A formatted date is never one of the page's messages. */
  lemma FormattedDateIsNoMessage(date: CalendarDate)
    ensures FormatDate(date) != InvalidDateText && FormatDate(date) != UnspecifiedText
  {
    assert InvalidDateText[2] == 'ç' && UnspecifiedText[2] == 'l';
  }

  /** formatExpiryDate: the string as a date if `new Date` accepts it; otherwise, if
      `parseInt` reads a number, the date that many seconds after the epoch (which may be
      out of range, and then prints as NaN); otherwise "Geçersiz tarih". */
  function FormatExpiryDate(s: string, parseDate: string -> Option<CalendarDate>, parseInt: string -> Option<int>,
                            dateOfEpochMillis: int -> Option<CalendarDate>): (r: string)
    ensures parseDate(s).Some? ==> r == FormatDate(parseDate(s).value)
    ensures parseDate(s).None? && parseInt(s).Some? ==>
      r == (match dateOfEpochMillis(parseInt(s).value * 1000)
            case Some(d) => FormatDate(d)
            case None => InvalidDateFormatted)
    ensures r == InvalidDateText <==> parseDate(s).None? && parseInt(s).None?
  {
    match parseDate(s)
    case Some(date) => FormattedDateIsNoMessage(date); FormatDate(date)
    case None =>
      match parseInt(s)
      case None => InvalidDateText
      case Some(timestamp) =>
        match dateOfEpochMillis(timestamp * 1000)
        case Some(date) => FormattedDateIsNoMessage(date); FormatDate(date)
        case None => InvalidDateFormatted
  }

  // ------------------------------------------------------------------ the page

  /** What the page shows: shortened text with the full value as its title. */
  datatype UserView = UserView(didText: string, didTitle: string, proofIdText: string, proofIdTitle: string, expiryText: string)

  datatype Page = Redirect(location: string) | Dashboard(view: UserView)

  /** JavaScript truthiness of a `getItem` result: neither null nor the empty string. */
  predicate Present(session: map<string, string>, key: string)
  {
    key in session && session[key] != ""
  }

  /** displayUserData, for the DID and proof id checkLogin found present. */
  function DisplayUserData(did: string, proofId: string, expiryDate: Option<string>,
                           parseDate: string -> Option<CalendarDate>, parseInt: string -> Option<int>,
                           dateOfEpochMillis: int -> Option<CalendarDate>): (v: UserView)
    ensures v.didTitle == did && v.proofIdTitle == proofId
    ensures Some(v.didText) == FormatDID(Some(did)) && Some(v.proofIdText) == FormatProofId(Some(proofId))
    ensures expiryDate.None? || expiryDate.value == "" ==> v.expiryText == UnspecifiedText
    ensures expiryDate.Some? && expiryDate.value != "" ==>
      v.expiryText == FormatExpiryDate(expiryDate.value, parseDate, parseInt, dateOfEpochMillis)
  {
    var expiryText :=
      if expiryDate.Some? && expiryDate.value != "" then FormatExpiryDate(expiryDate.value, parseDate, parseInt, dateOfEpochMillis)
      else UnspecifiedText;
    UserView(FormatDID(Some(did)).value, did, FormatProofId(Some(proofId)).value, proofId, expiryText)
  }

  /** checkLogin over the session's contents: back to the login page unless both the DID
      and the proof id are present; the expiry is optional. */
  function CheckLogin(session: map<string, string>, parseDate: string -> Option<CalendarDate>, parseInt: string -> Option<int>,
                      dateOfEpochMillis: int -> Option<CalendarDate>): (page: Page)
    ensures page.Redirect? <==> !Present(session, UserDidKey) || !Present(session, ProofIdKey)
    ensures page.Redirect? ==> page.location == LoginLocation
    ensures page.Dashboard? ==>
      && page.view.didTitle == session[UserDidKey]
      && page.view.proofIdTitle == session[ProofIdKey]
      && (!Present(session, ExpiryDateKey) <==> page.view.expiryText == UnspecifiedText)
    // the page shows what displayUserData makes of the three stored values
    ensures page.Dashboard? ==>
      page.view == DisplayUserData(session[UserDidKey], session[ProofIdKey],
                                   if ExpiryDateKey in session then Some(session[ExpiryDateKey]) else None,
                                   parseDate, parseInt, dateOfEpochMillis)
  {
    if !Present(session, UserDidKey) || !Present(session, ProofIdKey) then Redirect(LoginLocation)
    else
      var expiry := if ExpiryDateKey in session then Some(session[ExpiryDateKey]) else None;
      var view := DisplayUserData(session[UserDidKey], session[ProofIdKey], expiry, parseDate, parseInt, dateOfEpochMillis);
      ExpiryTextNeverUnspecified(session, parseDate, parseInt, dateOfEpochMillis);
      Dashboard(view)
  }

  /** A formatted expiry is never the "not specified" text. */
  lemma ExpiryTextNeverUnspecified(session: map<string, string>, parseDate: string -> Option<CalendarDate>, parseInt: string -> Option<int>,
                                   dateOfEpochMillis: int -> Option<CalendarDate>)
    ensures Present(session, ExpiryDateKey) ==>
      FormatExpiryDate(session[ExpiryDateKey], parseDate, parseInt, dateOfEpochMillis) != UnspecifiedText
  {
    if Present(session, ExpiryDateKey) {
      var s := session[ExpiryDateKey];
      match parseDate(s)
      case Some(date) => FormattedDateIsNoMessage(date);
      case None =>
        match parseInt(s)
        case None =>
        case Some(timestamp) =>
          if dateOfEpochMillis(timestamp * 1000).Some? {
            FormattedDateIsNoMessage(dateOfEpochMillis(timestamp * 1000).value);
          }
    }
  }

  /** logout: removes exactly the three session keys and sends the browser to the login page. */
  method Logout(session: Store) returns (location: string)
    modifies session
    ensures session.items == old(session.items) - SessionKeys
    ensures location == LoginLocation
  {
    session.RemoveItem(UserDidKey);
    session.RemoveItem(ProofIdKey);
    session.RemoveItem(ExpiryDateKey);
    location := LoginLocation;
  }

  /** After logout the dashboard sends the user back to log in, and every other key of the
      session is as it was. */
  lemma LogoutEndsSession(session: map<string, string>, parseDate: string -> Option<CalendarDate>, parseInt: string -> Option<int>,
                          dateOfEpochMillis: int -> Option<CalendarDate>)
    ensures CheckLogin(session - SessionKeys, parseDate, parseInt, dateOfEpochMillis) == Redirect(LoginLocation)
    ensures forall k :: k in session && k !in SessionKeys ==> k in session - SessionKeys && (session - SessionKeys)[k] == session[k]
  {
  }
}
