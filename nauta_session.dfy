/**
 * The captive-portal client of src/stickNAUTA/NautaSession.py: the constructor
 * that bootstraps an anonymous session and optionally scrapes the account
 * information, the login/logout state machine, the remaining-time query and the
 * export and import of session data.
 */
module NautaSessionModel {
  import opened Py
  import opened PyText
  import opened Web
  import opened Accounts

  const HOMEPAGE_URL := "https://secure.etecsa.net:8443/"
  const LOGIN_URL := "https://secure.etecsa.net:8443/LoginServlet"
  const QUERY_URL := "https://secure.etecsa.net:8443/EtecsaQueryServlet"
  const LOGOUT_URL := "https://secure.etecsa.net:8443/LogoutServlet"

  const WLANUSERIP_XPATH := "//*[@id=\"wlanuserip\"]"
  const CSRFHW_XPATH := "//*[@name=\"CSRFHW\"]"
  const ACCOUNT_STATE_XPATH := "//*[@id=\"sessioninfo\"]/tbody/tr[1]/td[2]/text()"
  const CREDIT_XPATH := "//*[@id=\"sessioninfo\"]/tbody/tr[2]/td[2]/text()"
  const EXPIRATION_DATE_XPATH := "//*[@id=\"sessioninfo\"]/tbody/tr[3]/td[2]/text()"
  const ACCESS_AREAS_XPATH := "//*[@id=\"sessioninfo\"]/tbody/tr[4]/td[2]/text()"
  const SESSIONS_XPATH := "//*[@id=\"sesiontraza\"]/tbody/tr/td/text()"

  const ALERT_PATTERN := "alert\\(\"(?P<_>[^\"]*?)\"\\)"
  const UUID_PATTERN := "ATTRIBUTE_UUID=(\\w+)&CSRFHW="

  /** A login succeeded when the final URL contains this fragment. */
  const LOGIN_SUCCESS_MARK := "online.do"
  /** A logout succeeded when the body contains this marker. */
  const LOGOUT_SUCCESS_MARK := "SUCCESS"

  /** The keys `set_session_data` requires, in the order it checks them. */
  const SESSION_KEYS: seq<string> := ["username", "cookies", "wlanuserip", "CSRFHW", "ATTRIBUTE_UUID"]

  const ALREADY_LOGGED_IN: Error := RuntimeError("User is already logged in.")
  const NOT_LOGGED_IN: Error := RuntimeError("User is not logged in.")
  const NO_USER_INFO: Error :=
    AttributeError("NautaSession has no user information since acquire_user_info=False was passed to __init__.")
  const NO_UUID_ATTRIBUTE: Error :=
    AttributeError("'NautaSession' object has no attribute '_NautaSession__ATTRIBUTE_UUID'")
  const EXPORT_WHILE_LOGGED_OUT: Error := RuntimeError("Cannot get session data since user is not logged in.")
  const IMPORT_WHILE_LOGGED_IN: Error := RuntimeError("Cannot set session data since user is logged in.")

  // ---------------------------------------------------------------- account information

  /** One row of the session history table. */
  datatype SessionEntry = SessionEntry(start: string, end: string, duration: string)

  /** The account information scraped by the constructor. */
  datatype UserInfo = UserInfo(
    accountState: string,
    credit: string,
    expirationDate: string,
    accessAreas: string,
    sessions: seq<SessionEntry>)

  /** `s[13:-tail]`: drops the padding around a scraped table cell. */
  function TrimField(s: string, tail: nat): (r: string)
    requires tail > 0
    ensures |r| == (if |s| >= 13 + tail then |s| - 13 - tail else 0)
    ensures forall k :: 0 <= k < |r| ==> r[k] == s[13 + k]
  {
    Slice(s, 13, -(tail as int))
  }

  /** Trimming undoes padding of exactly 13 characters in front and `tail` behind. */
  lemma TrimFieldOfPadded(front: string, x: string, back: string, tail: nat)
    requires tail > 0 && |front| == 13 && |back| == tail
    ensures TrimField(front + x + back, tail) == x
  {
    var r := TrimField(front + x + back, tail);
    assert |r| == |x|;
    forall k | 0 <= k < |x| ensures r[k] == x[k] {
      assert (front + x + back)[13 + k] == x[k];
    }
  }

  /**
   * The session list built from the flat cells of the history table. Entry `i`
   * takes the cells at `i`, `i + 1` and `i + 2`, with no stride of 3.
   */
  function SessionEntries(cells: seq<string>): (r: seq<SessionEntry>)
    ensures |r| == |cells| / 3
    ensures forall i :: 0 <= i < |r| ==> r[i] == SessionEntry(cells[i], cells[i + 1], cells[i + 2])
  {
    seq(|cells| / 3, i requires 0 <= i < |cells| / 3 => SessionEntry(cells[i], cells[i + 1], cells[i + 2]))
  }

  /** Consecutive entries overlap: each one starts where the previous one's end was. */
  lemma SessionEntriesOverlap(cells: seq<string>, i: nat)
    requires i + 1 < |cells| / 3
    ensures SessionEntries(cells)[i].end == SessionEntries(cells)[i + 1].start
    ensures SessionEntries(cells)[i].duration == SessionEntries(cells)[i + 1].end
  {
  }

  /** Only the first `|cells| / 3 + 2` cells are ever read. */
  lemma {:induction false} SessionEntriesReadPrefix(cells: seq<string>, other: seq<string>)
    requires |cells| == |other| >= 3
    requires cells[..|cells| / 3 + 2] == other[..|other| / 3 + 2]
    ensures SessionEntries(cells) == SessionEntries(other)
  {
    var n := |cells| / 3 + 2;
    forall i | 0 <= i < n ensures cells[i] == other[i] {
      assert cells[..n][i] == other[..n][i];
    }
  }

  /** The four fixed cells and the history of the account information page. */
  function UserInfoOf(text: string, net: Net): (r: Result<UserInfo>)
    ensures r.Ok? <==>
              |net.xpath(ACCOUNT_STATE_XPATH, text)| > 0 && |net.xpath(CREDIT_XPATH, text)| > 0
              && |net.xpath(EXPIRATION_DATE_XPATH, text)| > 0 && |net.xpath(ACCESS_AREAS_XPATH, text)| > 0
    ensures r.Err? ==> r.error == LIST_INDEX_ERROR
    ensures r.Ok? ==>
              && r.value.accountState == TrimField(net.xpath(ACCOUNT_STATE_XPATH, text)[0], 12)
              && r.value.credit == TrimField(net.xpath(CREDIT_XPATH, text)[0], 13)
              && r.value.expirationDate == TrimField(net.xpath(EXPIRATION_DATE_XPATH, text)[0], 12)
              && r.value.accessAreas == TrimField(net.xpath(ACCESS_AREAS_XPATH, text)[0], 12)
              && r.value.sessions == SessionEntries(net.xpath(SESSIONS_XPATH, text))
  {
    var state := First(net.xpath(ACCOUNT_STATE_XPATH, text));
    var credit := First(net.xpath(CREDIT_XPATH, text));
    var expiration := First(net.xpath(EXPIRATION_DATE_XPATH, text));
    var areas := First(net.xpath(ACCESS_AREAS_XPATH, text));
    if state.Err? || credit.Err? || expiration.Err? || areas.Err? then Err(LIST_INDEX_ERROR)
    else
      Ok(UserInfo(TrimField(state.value, 12), TrimField(credit.value, 13), TrimField(expiration.value, 12),
                  TrimField(areas.value, 12), SessionEntries(net.xpath(SESSIONS_XPATH, text))))
  }

  // ---------------------------------------------------------------- remaining time

  /** `get_remaining_time` returns the server's text, or a number of seconds. */
  datatype RemainingTime = AsText(text: string) | AsSeconds(seconds: int)

  /** `[int(number) for number in parts]`: stops at the first part that is not an integer. */
  function ParseAll(parts: seq<string>): (r: Result<seq<int>>)
    ensures r.Ok? <==> forall i :: 0 <= i < |parts| ==> ParseInt(parts[i]).Some?
    ensures r.Ok? ==> |r.value| == |parts|
    ensures r.Ok? ==> forall i :: 0 <= i < |parts| ==> ParseInt(parts[i]) == Some(r.value[i])
    ensures r.Err? ==> r.error.ValueError?
  {
    if |parts| == 0 then Ok([])
    else match ParseInt(parts[0])
      case None => Err(ParseIntError(parts[0]))
      case Some(n) =>
        match ParseAll(parts[1..])
        case Err(e) => Err(e)
        case Ok(ns) => Ok([n] + ns)
  }

  /** `hours * 3600 + minutes * 60 + seconds` after unpacking the three parts of `text`. */
  function SecondsOf(text: string): (r: Result<int>)
    ensures var parts := Split(text, ":");
            r.Ok? <==> |parts| == 3 && forall i :: 0 <= i < 3 ==> ParseInt(parts[i]).Some?
    ensures r.Ok? ==> var parts := Split(text, ":");
            r.value == ParseInt(parts[0]).value * 3600 + ParseInt(parts[1]).value * 60 + ParseInt(parts[2]).value
    ensures r.Err? ==> r.error.ValueError?
  {
    match ParseAll(Split(text, ":"))
    case Err(e) => Err(e)
    case Ok(ns) =>
      if |ns| < 3 then Err(ValueError("not enough values to unpack (expected 3, got " + IntToString(|ns|) + ")"))
      else if |ns| > 3 then Err(ValueError("too many values to unpack (expected 3)"))
      else Ok(ns[0] * 3600 + ns[1] * 60 + ns[2])
  }

  /** A text that splits at its colons into three integers `H`, `M`, `S` is
      `H * 3600 + M * 60 + S` seconds. */
  lemma SecondsOfClock(text: string, h: int, m: int, s: int)
    requires |Split(text, ":")| == 3
    requires ParseInt(Split(text, ":")[0]) == Some(h)
    requires ParseInt(Split(text, ":")[1]) == Some(m)
    requires ParseInt(Split(text, ":")[2]) == Some(s)
    ensures SecondsOf(text) == Ok(h * 3600 + m * 60 + s)
  {
  }

  /** Splitting `H:M:S` at the colons gives the three digit strings back. */
  lemma SplitClock(h: string, m: string, s: string)
    requires AllDigits(h) && AllDigits(m) && AllDigits(s)
    ensures Split(h + ":" + m + ":" + s, ":") == [h, m, s]
  {
    var parts := [h, m, s];
    JoinThree(h, m, s, ":");
    NoColonInDigits(h);
    NoColonInDigits(m);
    NoColonInDigits(s);
    assert forall p :: p in parts ==> ':' !in p;
    SplitJoin(parts, ":");
  }

  lemma JoinThree(a: string, b: string, c: string, sep: string)
    ensures Join([a, b, c], sep) == a + sep + b + sep + c
  {
    assert [a, b, c][1..] == [b, c];
    assert [b, c][1..] == [c];
    assert Join([b, c], sep) == b + sep + c;
  }


  lemma NoColonInDigits(x: string)
    requires AllDigits(x)
    ensures ':' !in x
  {
    forall i | 0 <= i < |x| ensures x[i] != ':' {
      assert IsDigitChar(x[i]);
    }
  }

  lemma DigitExample(c: char)
    requires IsDigitChar(c)
    ensures ParseInt(['0', c]) == Some(c as int - '0' as int)
  {
    var x := ['0', c];
    assert IsDigitString(x);
    ParseIntOfDigits(x);
    assert x[..1] == "0";
    assert DigitsValue("0") == 0 by { assert "0"[..0] == ""; }
  }

  lemma SecondsOfExample()
    ensures SecondsOf("01:02:03") == Ok(3723)
  {
    ClockExampleParts();
    ClockExampleNumbers();
    SecondsOfClock("01:02:03", 1, 2, 3);
  }

  lemma ClockExampleParts()
    ensures Split("01:02:03", ":") == ["01", "02", "03"]
  {
    SplitClock("01", "02", "03");
    assert "01" + ":" + "02" + ":" + "03" == "01:02:03";
  }

  lemma ClockExampleNumbers()
    ensures ParseInt("01") == Some(1) && ParseInt("02") == Some(2) && ParseInt("03") == Some(3)
  {
    DigitExample('1');
    DigitExample('2');
    DigitExample('3');
  }

  /** What `get_remaining_time` returns for the text the server answered. */
  function RemainingTimeOf(text: string, inSeconds: bool): (r: Result<RemainingTime>)
    ensures !inSeconds ==> r == Ok(AsText(text))
    ensures inSeconds ==> (r.Ok? <==> SecondsOf(text).Ok?)
    ensures inSeconds && r.Ok? ==> r.value == AsSeconds(SecondsOf(text).value)
    ensures r.Err? ==> r.error.ValueError?
  {
    if !inSeconds then Ok(AsText(text))
    else match SecondsOf(text)
      case Err(e) => Err(e)
      case Ok(n) => Ok(AsSeconds(n))
  }

  // ---------------------------------------------------------------- construction

  /** The form posted to the query and login servlets. */
  function CredentialsForm(username: string, password: string, wlanuserip: string, csrfhw: string,
                           language: string): seq<(string, string)>
  {
    [("username", username), ("password", password), ("wlanuserip", wlanuserip), ("CSRFHW", csrfhw),
     ("lang", language)]
  }

  function Language(english: bool): string
  {
    if english then "en_US" else "es_ES"
  }

  /** The state `__init__` leaves behind when it returns normally. */
  datatype SessionInit = SessionInit(
    username: string,
    password: string,
    language: string,
    wlanuserip: string,
    csrfhw: string,
    userInformation: Option<UserInfo>)

  /** The account query `__init__` posts with the credentials and the two tokens. */
  function QueryRequest(username: string, password: string, wlanuserip: string, csrfhw: string,
                        langEnglish: bool): Request
  {
    Post(QUERY_URL, CredentialsForm(username, password, wlanuserip, csrfhw, Language(langEnglish)))
  }

  /** What `__init__` raises when the query page carries an alert. */
  function CreditAlertError(alert: string): Error
  {
    RuntimeError("Failed to get user data (probably related to wrong credentials or "
                 + "insufficient balance in the account. More info: \"" + alert + "\"")
  }

  /** The landing page carries both tokens. */
  predicate HasTokens(home: Response, net: Net)
  {
    |net.xpath(WLANUSERIP_XPATH, home.text)| > 0 && |net.xpath(CSRFHW_XPATH, home.text)| > 0
  }

  /**
   * `NautaSession.__init__`: validates the credentials, fetches the landing page,
   * captures the two ambient tokens and, when asked to, queries and scrapes the
   * account information.
   */
  function Bootstrap(username: Arg, password: Arg, acquireUserInfo: bool, langEnglish: bool, net: Net)
    : (run: Run<SessionInit>)
    ensures CheckCredentials(username, password).Err? ==>
              run == Run(Err(CheckCredentials(username, password).error), [])
    ensures CheckCredentials(username, password).Ok? ==>
              1 <= |run.sent| <= 2 && run.sent[0] == Get(HOMEPAGE_URL)
    // when construction succeeds, and what it raises otherwise
    ensures var home := net.respond(Get(HOMEPAGE_URL));
            run.result.Ok? <==>
              && CheckCredentials(username, password).Ok? && home.Ok() && HasTokens(home, net)
              && (acquireUserInfo ==>
                    var answer := net.respond(QueryRequest(username.text, password.text,
                                    net.xpath(WLANUSERIP_XPATH, home.text)[0], net.xpath(CSRFHW_XPATH, home.text)[0],
                                    langEnglish));
                    answer.Ok() && net.search(ALERT_PATTERN, answer.text).None? && UserInfoOf(answer.text, net).Ok?)
    ensures var home := net.respond(Get(HOMEPAGE_URL));
            CheckCredentials(username, password).Ok? && !home.Ok() ==>
              run == Run(Err(HttpError("init session", home)), [Get(HOMEPAGE_URL)])
    ensures var home := net.respond(Get(HOMEPAGE_URL));
            CheckCredentials(username, password).Ok? && home.Ok() && !HasTokens(home, net) ==>
              run == Run(Err(LIST_INDEX_ERROR), [Get(HOMEPAGE_URL)])
    ensures var home := net.respond(Get(HOMEPAGE_URL));
            CheckCredentials(username, password).Ok? && home.Ok() && HasTokens(home, net) && acquireUserInfo ==>
              var query := QueryRequest(username.text, password.text, net.xpath(WLANUSERIP_XPATH, home.text)[0],
                                        net.xpath(CSRFHW_XPATH, home.text)[0], langEnglish);
              var answer := net.respond(query);
              && run.sent == [Get(HOMEPAGE_URL), query]
              && (!answer.Ok() ==> run.result == Err(HttpError("get user data (credit)", answer)))
              && (answer.Ok() && net.search(ALERT_PATTERN, answer.text).Some? ==>
                    run.result == Err(CreditAlertError(net.search(ALERT_PATTERN, answer.text).value)))
              && (answer.Ok() && net.search(ALERT_PATTERN, answer.text).None? && UserInfoOf(answer.text, net).Err? ==>
                    run.result == Err(LIST_INDEX_ERROR))
    // what a constructed client holds
    ensures run.result.Ok? ==>
              var home := net.respond(Get(HOMEPAGE_URL)).text;
              var init := run.result.value;
              && init.username == username.text && init.password == password.text
              && ValidUsername(init.username)
              && init.language == Language(langEnglish)
              && |net.xpath(WLANUSERIP_XPATH, home)| > 0 && init.wlanuserip == net.xpath(WLANUSERIP_XPATH, home)[0]
              && |net.xpath(CSRFHW_XPATH, home)| > 0 && init.csrfhw == net.xpath(CSRFHW_XPATH, home)[0]
              && (init.userInformation.Some? <==> acquireUserInfo)
              && |run.sent| == (if acquireUserInfo then 2 else 1)
    ensures run.result.Ok? && acquireUserInfo ==>
              var init := run.result.value;
              var query := QueryRequest(init.username, init.password, init.wlanuserip, init.csrfhw, langEnglish);
              run.sent == [Get(HOMEPAGE_URL), query]
              && Ok(init.userInformation.value) == UserInfoOf(net.respond(query).text, net)
  {
    match CheckCredentials(username, password)
    case Err(e) => Run(Err(e), [])
    case Ok((user, pass)) =>
      var language := Language(langEnglish);
      var home := Get(HOMEPAGE_URL);
      var resp := net.respond(home);
      if !resp.Ok() then Run(Err(HttpError("init session", resp)), [home])
      else
        var wlanuseripNode := First(net.xpath(WLANUSERIP_XPATH, resp.text));
        var csrfhwNode := First(net.xpath(CSRFHW_XPATH, resp.text));
        if wlanuseripNode.Err? || csrfhwNode.Err? then Run(Err(LIST_INDEX_ERROR), [home])
        else
          var wlanuserip, csrfhw := wlanuseripNode.value, csrfhwNode.value;
          if !acquireUserInfo then
            Run(Ok(SessionInit(user, pass, language, wlanuserip, csrfhw, None)), [home])
          else
            var query := QueryRequest(user, pass, wlanuserip, csrfhw, langEnglish);
            var answer := net.respond(query);
            if !answer.Ok() then Run(Err(HttpError("get user data (credit)", answer)), [home, query])
            else match net.search(ALERT_PATTERN, answer.text)
              case Some(alert) => Run(Err(CreditAlertError(alert)), [home, query])
              case None =>
                match UserInfoOf(answer.text, net)
                case Err(e) => Run(Err(e), [home, query])
                case Ok(info) => Run(Ok(SessionInit(user, pass, language, wlanuserip, csrfhw, Some(info))), [home, query])
  }

  // ---------------------------------------------------------------- login and logout

  /** What `login` raises when the server answers with a 4xx or 5xx status. */
  function LoginHttpError(resp: Response): Error
  {
    RuntimeError("Login failure with HTTP code: " + IntToString(resp.status) + " and reason: \""
                 + resp.reason + "\".")
  }

  /** What `login` raises when the portal answers with an alert instead of the session page. */
  function LoginAlertError(reason: string): Error
  {
    RuntimeError("Login failure reason: \"" + reason + "\".")
  }

  /** How `login` reads the response: the captured session identifier, or what it raises. */
  function LoginResult(resp: Response, net: Net): (r: Result<string>)
    ensures r.Ok? <==>
              resp.Ok() && Contains(resp.url, LOGIN_SUCCESS_MARK) && net.search(UUID_PATTERN, resp.text).Some?
    ensures r.Ok? ==> net.search(UUID_PATTERN, resp.text) == Some(r.value)
    ensures !resp.Ok() ==> r == Err(LoginHttpError(resp))
    ensures resp.Ok() && !Contains(resp.url, LOGIN_SUCCESS_MARK) ==>
              r.Err? && (r.error.RuntimeError? <==> net.search(ALERT_PATTERN, resp.text).Some?)
    ensures resp.Ok() && !Contains(resp.url, LOGIN_SUCCESS_MARK) && net.search(ALERT_PATTERN, resp.text).Some? ==>
              r == Err(LoginAlertError(net.search(ALERT_PATTERN, resp.text).value))
    ensures resp.Ok() && Contains(resp.url, LOGIN_SUCCESS_MARK) && r.Err? ==> r.error == NO_MATCH_ERROR
    ensures r.Err? && !r.error.RuntimeError? ==> r.error == NO_MATCH_ERROR
  {
    if !resp.Ok() then Err(LoginHttpError(resp))
    else if !Contains(resp.url, LOGIN_SUCCESS_MARK) then
      match net.search(ALERT_PATTERN, resp.text)
      case None => Err(NO_MATCH_ERROR)
      case Some(reason) => Err(LoginAlertError(reason))
    else
      match net.search(UUID_PATTERN, resp.text)
      case None => Err(NO_MATCH_ERROR)
      case Some(uuid) => Ok(uuid)
  }

  /** How `logout` reads the response. */
  function LogoutResult(resp: Response): (r: Outcome)
    ensures r.Pass? <==> resp.Ok() && Contains(resp.text, LOGOUT_SUCCESS_MARK)
    ensures r.Fail? ==> r.error.RuntimeError?
    ensures resp.Ok() && !Contains(resp.text, LOGOUT_SUCCESS_MARK) ==>
              r == Fail(RuntimeError("Logout failure reason: \"" + resp.text + "\"."))
  {
    if !resp.Ok() then
      Fail(RuntimeError("Logout failure with HTTP code: " + IntToString(resp.status) + " and reason: \""
                        + resp.reason + "\"."))
    else if !Contains(resp.text, LOGOUT_SUCCESS_MARK) then
      Fail(RuntimeError("Logout failure reason: \"" + resp.text + "\"."))
    else Pass
  }

  /** All five keys are present. */
  predicate Complete(d: SessionData)
  {
    d.username.Some? && d.cookies.Some? && d.wlanuserip.Some? && d.csrfhw.Some? && d.attributeUuid.Some?
  }

  lemma CompleteIffNoneMissing(d: SessionData)
    ensures FirstMissing(d, SESSION_KEYS).None? <==> Complete(d)
  {
    assert Present(d, SESSION_KEYS[0]) == d.username.Some?;
    assert Present(d, SESSION_KEYS[1]) == d.cookies.Some?;
    assert Present(d, SESSION_KEYS[2]) == d.wlanuserip.Some?;
    assert Present(d, SESSION_KEYS[3]) == d.csrfhw.Some?;
    assert Present(d, SESSION_KEYS[4]) == d.attributeUuid.Some?;
  }

  /** The checks `set_session_data` makes of its argument once the state check passed. */
  function ImportCheck(d: SessionData, username: string): (r: Outcome)
    ensures r.Pass? <==> Complete(d) && d.username == Some(username)
    ensures FirstMissing(d, SESSION_KEYS).Some? ==>
              r == Fail(MissingKeyError(SESSION_KEYS[FirstMissing(d, SESSION_KEYS).value]))
    ensures r.Fail? ==> r.error.ValueError?
  {
    CompleteIffNoneMissing(d);
    match FirstMissing(d, SESSION_KEYS)
    case Some(i) => Fail(MissingKeyError(SESSION_KEYS[i]))
    case None =>
      if d.username != Some(username) then Fail(ValueError("Session data is not for this account."))
      else Pass
  }

  // ---------------------------------------------------------------- the client

  class NautaSession {
    const username: string
    const password: string
    const language: string
    var loggedIn: bool
    var userInformation: Option<UserInfo>
    var wlanuserip: string
    var csrfhw: string
    /** `None` until a login or an import has set the attribute. */
    var attributeUuid: Option<string>
    var cookies: Cookies

    /** A logged-in session always holds a session identifier. */
    ghost predicate Valid()
      reads this
    {
      loggedIn ==> attributeUuid.Some?
    }

    constructor FromInit(init: SessionInit)
      ensures Valid() && !loggedIn && attributeUuid.None? && cookies == map[]
      ensures username == init.username && password == init.password && language == init.language
      ensures wlanuserip == init.wlanuserip && csrfhw == init.csrfhw
      ensures userInformation == init.userInformation
    {
      username, password, language := init.username, init.password, init.language;
      wlanuserip, csrfhw := init.wlanuserip, init.csrfhw;
      userInformation := init.userInformation;
      loggedIn, attributeUuid, cookies := false, None, map[];
    }

    /** `NautaSession(username, password, acquire_user_info, lang_english)`: a new
        logged-out client, or what the constructor raises. */
    static method Create(username: Arg, password: Arg, acquireUserInfo: bool, langEnglish: bool, net: Net)
      returns (r: Result<NautaSession>, sent: seq<Request>)
      ensures var run := Bootstrap(username, password, acquireUserInfo, langEnglish, net);
              sent == run.sent
              && (r.Ok? <==> run.result.Ok?)
              && (r.Err? ==> r.error == run.result.error)
              && (r.Ok? ==> var init := run.result.value;
                    && fresh(r.value) && r.value.Valid() && !r.value.loggedIn
                    && r.value.attributeUuid.None? && r.value.cookies == map[]
                    && r.value.username == init.username && r.value.password == init.password
                    && r.value.language == init.language && r.value.wlanuserip == init.wlanuserip
                    && r.value.csrfhw == init.csrfhw && r.value.userInformation == init.userInformation)
    {
      var run := Bootstrap(username, password, acquireUserInfo, langEnglish, net);
      sent := run.sent;
      if run.result.Err? {
        r := Err(run.result.error);
      } else {
        var session := new NautaSession.FromInit(run.result.value);
        r := Ok(session);
      }
    }

    method Login(net: Net) returns (out: Outcome, sent: seq<Request>)
      requires Valid()
      modifies this`loggedIn, this`attributeUuid
      ensures Valid()
      ensures old(loggedIn) ==>
                out == Fail(ALREADY_LOGGED_IN) && sent == [] && loggedIn && attributeUuid == old(attributeUuid)
      ensures !old(loggedIn) ==>
                var req := Post(LOGIN_URL, CredentialsForm(username, password, wlanuserip, csrfhw, language));
                var res := LoginResult(net.respond(req), net);
                && sent == [req]
                && out == OutcomeOf(res)
                && (res.Ok? ==> loggedIn && attributeUuid == Some(res.value))
                && (res.Err? ==> !loggedIn && attributeUuid == old(attributeUuid))
    {
      if loggedIn {
        return Fail(ALREADY_LOGGED_IN), [];
      }
      var req := Post(LOGIN_URL, CredentialsForm(username, password, wlanuserip, csrfhw, language));
      sent := [req];
      var res := LoginResult(net.respond(req), net);
      out := OutcomeOf(res);
      if res.Ok? {
        attributeUuid := Some(res.value);
        loggedIn := true;
      }
    }

    /** The logout URL, with the four tokens interpolated as they are (no escaping). */
    function LogoutUrl(uuid: string): string
      reads this
    {
      LOGOUT_URL + "?" + "username=" + username + "&" + "wlanuserip=" + wlanuserip + "&"
      + "CSRFHW=" + csrfhw + "&" + "ATTRIBUTE_UUID=" + uuid
    }

    method Logout(net: Net) returns (out: Outcome, sent: seq<Request>)
      requires Valid()
      modifies this`loggedIn, this`attributeUuid
      ensures Valid()
      ensures !old(loggedIn) ==>
                out == Fail(NOT_LOGGED_IN) && sent == [] && !loggedIn && attributeUuid == old(attributeUuid)
      ensures old(loggedIn) ==>
                var req := Get(LogoutUrl(old(attributeUuid).value));
                var res := LogoutResult(net.respond(req));
                && sent == [req]
                && out == res
                && (res.Pass? ==> !loggedIn && attributeUuid == Some(""))
                && (res.Fail? ==> loggedIn && attributeUuid == old(attributeUuid))
    {
      if !loggedIn {
        return Fail(NOT_LOGGED_IN), [];
      }
      var req := Get(LogoutUrl(attributeUuid.value));
      sent := [req];
      out := LogoutResult(net.respond(req));
      if out.Pass? {
        loggedIn := false;
        attributeUuid := Some("");
      }
    }

    method GetUserInfo() returns (r: Result<UserInfo>)
      ensures r.Ok? <==> userInformation.Some?
      ensures r.Ok? ==> r.value == userInformation.value
      ensures r.Err? ==> r.error == NO_USER_INFO
    {
      if userInformation.None? {
        return Err(NO_USER_INFO);
      }
      r := Ok(userInformation.value);
    }

    /** The form of the remaining-time query. */
    function LeftTimeForm(uuid: string): seq<(string, string)>
      reads this
    {
      [("op", "getLeftTime"), ("username", username), ("wlanuserip", wlanuserip), ("CSRFHW", csrfhw),
       ("ATTRIBUTE_UUID", uuid)]
    }

    /** Not guarded by the login state: it only needs the session identifier attribute
        to exist, which a logout leaves behind as the empty string. */
    method GetRemainingTime(inSeconds: bool, net: Net) returns (r: Result<RemainingTime>, sent: seq<Request>)
      ensures attributeUuid.None? ==> r == Err(NO_UUID_ATTRIBUTE) && sent == []
      ensures attributeUuid.Some? ==>
                var req := Post(QUERY_URL, LeftTimeForm(attributeUuid.value));
                var resp := net.respond(req);
                && sent == [req]
                && (!resp.Ok() ==> r == Err(HttpError("get user data (remaining_time)", resp)))
                && (resp.Ok() ==> r == RemainingTimeOf(resp.text, inSeconds))
    {
      if attributeUuid.None? {
        return Err(NO_UUID_ATTRIBUTE), [];
      }
      var req := Post(QUERY_URL, LeftTimeForm(attributeUuid.value));
      sent := [req];
      var resp := net.respond(req);
      if !resp.Ok() {
        r := Err(HttpError("get user data (remaining_time)", resp));
        return;
      }
      var remaining: RemainingTime := AsText(resp.text);
      if inSeconds {
        var seconds := SecondsOf(resp.text);
        if seconds.Err? {
          r := Err(seconds.error);
          return;
        }
        remaining := AsSeconds(seconds.value);
      }
      r := Ok(remaining);
    }

    method GetSessionData() returns (r: Result<SessionData>)
      requires Valid()
      ensures !loggedIn ==> r == Err(EXPORT_WHILE_LOGGED_OUT)
      ensures loggedIn ==>
                r == Ok(SessionData(Some(username), Some(cookies), Some(wlanuserip), Some(csrfhw), attributeUuid))
    {
      if !loggedIn {
        return Err(EXPORT_WHILE_LOGGED_OUT);
      }
      r := Ok(SessionData(Some(username), Some(cookies), Some(wlanuserip), Some(csrfhw), attributeUuid));
    }

    method SetSessionData(d: SessionData) returns (out: Outcome)
      requires Valid()
      modifies this`loggedIn, this`attributeUuid, this`wlanuserip, this`csrfhw, this`cookies
      ensures Valid()
      ensures out == if old(loggedIn) then Fail(IMPORT_WHILE_LOGGED_IN) else ImportCheck(d, username)
      ensures out.Fail? ==> unchanged(this)
      ensures out.Pass? ==>
                && loggedIn && cookies == d.cookies.value && wlanuserip == d.wlanuserip.value
                && csrfhw == d.csrfhw.value && attributeUuid == d.attributeUuid
    {
      if loggedIn {
        return Fail(IMPORT_WHILE_LOGGED_IN);
      }
      var missing := FindMissingKey(d, SESSION_KEYS);
      if missing.Some? {
        return Fail(MissingKeyError(SESSION_KEYS[missing.value]));
      }
      CompleteIffNoneMissing(d);
      if d.username != Some(username) {
        return Fail(ValueError("Session data is not for this account."));
      }
      cookies := d.cookies.value;
      wlanuserip := d.wlanuserip.value;
      csrfhw := d.csrfhw.value;
      attributeUuid := d.attributeUuid;
      loggedIn := true;
      out := Pass;
    }

    /** `load_session_data_from_file` once the file has been read and decoded. */
    method LoadSessionData(doc: JsonDocument) returns (out: Outcome)
      requires Valid()
      modifies this`loggedIn, this`attributeUuid, this`wlanuserip, this`csrfhw, this`cookies
      ensures Valid()
      ensures doc.OtherDocument? ==> out == Fail(NOT_A_DICT_ERROR) && unchanged(this)
      ensures doc.DictDocument? ==>
                out == (if old(loggedIn) then Fail(IMPORT_WHILE_LOGGED_IN) else ImportCheck(doc.data, username))
      ensures out.Fail? ==> unchanged(this)
      ensures out.Pass? ==>
                && loggedIn && cookies == doc.data.cookies.value && wlanuserip == doc.data.wlanuserip.value
                && csrfhw == doc.data.csrfhw.value && attributeUuid == doc.data.attributeUuid
    {
      if doc.OtherDocument? {
        return Fail(NOT_A_DICT_ERROR);
      }
      out := SetSessionData(doc.data);
    }
  }

  // ---------------------------------------------------------------- properties across calls

  /** Exporting from a logged-in client and importing into a logged-out client of the
      same account logs the second one in with the first one's tokens and cookies. */
  method ExportThenImport(source: NautaSession, target: NautaSession)
    requires source.Valid() && target.Valid() && source != target
    requires source.loggedIn && !target.loggedIn && source.username == target.username
    modifies target`loggedIn, target`attributeUuid, target`wlanuserip, target`csrfhw, target`cookies
    ensures target.Valid() && target.loggedIn
    ensures target.cookies == source.cookies && target.wlanuserip == source.wlanuserip
    ensures target.csrfhw == source.csrfhw && target.attributeUuid == source.attributeUuid
  {
    var exported := source.GetSessionData();
    var out := target.SetSessionData(exported.value);
    assert out.Pass?;
  }

  /** Importing complete session data for this account and exporting it again gives the
      same data back. */
  method ImportThenExport(s: NautaSession, d: SessionData) returns (out: Outcome, exported: Result<SessionData>)
    requires s.Valid() && !s.loggedIn
    requires Complete(d) && d.username == Some(s.username)
    modifies s`loggedIn, s`attributeUuid, s`wlanuserip, s`csrfhw, s`cookies
    ensures out == Pass && exported == Ok(d)
  {
    out := s.SetSessionData(d);
    exported := s.GetSessionData();
  }

  /** A second login without a logout in between fails before sending anything, whatever
      the server answers. */
  method LoginTwice(s: NautaSession, first: Net, second: Net)
    returns (firstOut: Outcome, secondOut: Outcome, secondSent: seq<Request>)
    requires s.Valid()
    modifies s`loggedIn, s`attributeUuid
    ensures s.Valid()
    ensures firstOut.Pass? ==> secondOut == Fail(ALREADY_LOGGED_IN) && secondSent == [] && s.loggedIn
  {
    var firstSent;
    firstOut, firstSent := s.Login(first);
    secondOut, secondSent := s.Login(second);
  }
}
