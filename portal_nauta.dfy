/**
 * The user-portal client of src/stickNAUTA/PortalNauta.py: the constructor that
 * fetches the login page and its CSRF token, the CAPTCHA login, the four account
 * actions, the account information, the three history reports and the export and
 * import of session data.
 *
 * Every method past the constructor first checks the truthiness of the
 * account-data dictionary. A successful CAPTCHA or import stores an EMPTY
 * dictionary, which is falsy, and only `get_account_data` (itself behind the
 * check) stores a non-empty one; so from any state a client can reach, the
 * check fails. The model keeps that behaviour and states it (`Open`,
 * `CaptchaThenRecharge`).
 */
module PortalNautaModel {
  import opened Py
  import opened PyText
  import opened Web
  import opened Accounts
  import opened PortalDetails

  const HOMEPAGE_URL := "https://www.portal.nauta.cu/"
  const LOGIN_URL := "https://www.portal.nauta.cu/user/login"

  const CSRF_XPATH := "//*[@name=\"csrf\"]"

  /** The error toast the portal renders: a main message ... */
  const TOASTR_MAIN_PATTERN := "toastr.error\\('<ul><li class=\\\"msg_error\\\">(.*)<ul>"
  /** ... and the list of its sub-messages, captured as one group ... */
  const TOASTR_SUB_PATTERN := "<li class=\\\"sub-message\\\">(.*)</li></ul></li></ul>'"
  /** ... that is split at this markup. */
  const SUB_MESSAGE_SEPARATOR := "</li><li class=\"sub-message\">"

  const GATE_ERROR: Error := AttributeError("This method is not available until a valid CAPTCHA is submitted!")
  const PROPERTY_GATE_ERROR: Error :=
    AttributeError("This property is not available until a valid CAPTCHA is submitted!")
  const CAPTCHA_TYPE_ERROR: Error := TypeError("captcha must be a str().")
  const RECHARGE_CODE_TYPE_ERROR: Error := TypeError("recharge_dode must be a str().")
  const RECHARGE_CODE_DIGITS_ERROR: Error := ValueError("recharge_code chars must be all digits.")
  const RECHARGE_CODE_LENGTH_ERROR: Error := ValueError("recharge_code must be between 12 and 16 digits long.")
  const NEW_PASSWORD_TYPE_ERROR: Error := TypeError("new_password must be a str().")
  const OLD_PASSWORD_TYPE_ERROR: Error := TypeError("old_password must be a str().")
  const TARGET_ACCOUNT_TYPE_ERROR: Error := TypeError("target_account must be a str().")
  const AMOUNT_TYPE_ERROR: Error := TypeError("amount must be a float().")
  const EXPORT_WHILE_LOGGED_OUT: Error :=
    RuntimeError("Cannot get session data since user is not logged in. Submit a valid CAPTCHA first!")
  const IMPORT_WHILE_LOGGED_IN: Error :=
    RuntimeError("Cannot set session data since user is logged in. Submit a valid CAPTCHA first!")
  const WRONG_ACCOUNT_ERROR: Error := ValueError("Session data is not for this account.")

  /** The keys the portal's `set_session_data` requires, in the order it checks them. */
  const PORTAL_SESSION_KEYS: seq<string> := ["username", "cookies"]

  // ---------------------------------------------------------------- error toasts

  /** `"m0", "m1", ...`: each sub-message quoted, separated by a comma and a space. */
  function Description(messages: seq<string>): string
  {
    "\"" + Join(messages, "\", \"") + "\""
  }

  /**
   * The loop that builds the description: the first sub-message quoted, then
   * `, "m"` for each further one.
   */
  method ErrorDescription(group: string) returns (description: string)
    ensures description == Description(Split(group, SUB_MESSAGE_SEPARATOR))
  {
    var messages := Split(group, SUB_MESSAGE_SEPARATOR);
    description := "\"" + messages[0] + "\"";
    var i := 1;
    while i < |messages|
      invariant 1 <= i <= |messages|
      invariant description == Description(messages[..i])
    {
      JoinSnoc(messages[..i], messages[i], "\", \"");
      assert messages[..i + 1] == messages[..i] + [messages[i]];
      description := description + ", \"" + messages[i] + "\"";
      i := i + 1;
    }
    assert messages[..i] == messages;
  }

  /** When the sub-messages contain no `<`, splitting their markup and describing them
      quotes exactly those sub-messages, in order. */
  lemma DescriptionOfSubMessages(messages: seq<string>)
    requires |messages| >= 1 && forall m :: m in messages ==> '<' !in m
    ensures Description(Split(Join(messages, SUB_MESSAGE_SEPARATOR), SUB_MESSAGE_SEPARATOR)) == Description(messages)
  {
    SplitJoin(messages, SUB_MESSAGE_SEPARATOR);
  }

  function ToastrError(what: string, main: string, group: string): Error
  {
    RuntimeError("Failed to " + what + " with error: \"" + main + "\", description: "
                 + Description(Split(group, SUB_MESSAGE_SEPARATOR)) + ".")
  }

  /**
   * The check of a page for an error toast: none found passes; a main message
   * without the sub-message list raises AttributeError (the `.group` of a failed
   * search); otherwise RuntimeError with both.
   */
  function ToastrOutcome(what: string, text: string, net: Net): (out: Outcome)
    ensures out.Pass? <==> net.search(TOASTR_MAIN_PATTERN, text).None?
    ensures out.Fail? && net.search(TOASTR_SUB_PATTERN, text).None? ==> out.error == NO_MATCH_ERROR
    ensures out.Fail? && net.search(TOASTR_SUB_PATTERN, text).Some? ==>
              out.error == ToastrError(what, net.search(TOASTR_MAIN_PATTERN, text).value,
                                       net.search(TOASTR_SUB_PATTERN, text).value)
  {
    match net.search(TOASTR_MAIN_PATTERN, text)
    case None => Pass
    case Some(main) =>
      match net.search(TOASTR_SUB_PATTERN, text)
      case None => Fail(NO_MATCH_ERROR)
      case Some(group) => Fail(ToastrError(what, main, group))
  }

  method CheckToastr(what: string, text: string, net: Net) returns (out: Outcome)
    ensures out == ToastrOutcome(what, text, net)
  {
    var main := net.search(TOASTR_MAIN_PATTERN, text);
    if main.None? {
      return Pass;
    }
    var group := net.search(TOASTR_SUB_PATTERN, text);
    if group.None? {
      return Fail(NO_MATCH_ERROR);
    }
    var description := ErrorDescription(group.value);
    out := Fail(RuntimeError("Failed to " + what + " with error: \"" + main.value + "\", description: "
                             + description + "."));
  }

  /** How the four account actions read the answer to their POST. */
  function ActionOutcome(httpWhat: string, toastrWhat: string, resp: Response, net: Net): (out: Outcome)
    ensures !resp.Ok() ==> out == Fail(HttpError(httpWhat, resp))
    ensures resp.Ok() ==> out == ToastrOutcome(toastrWhat, resp.text, net)
  {
    if !resp.Ok() then Fail(HttpError(httpWhat, resp)) else ToastrOutcome(toastrWhat, resp.text, net)
  }

  // ---------------------------------------------------------------- argument checks

  /** The checks of a recharge code: a `str`, all digits, then 12 to 16 of them. */
  function RechargeCodeCheck(code: Arg): (out: Outcome)
    ensures out.Pass? <==> code.Str? && IsDigitString(code.text) && 12 <= |code.text| <= 16
    ensures !code.Str? ==> out == Fail(RECHARGE_CODE_TYPE_ERROR)
    ensures code.Str? && !IsDigitString(code.text) ==> out == Fail(RECHARGE_CODE_DIGITS_ERROR)
    ensures code.Str? && IsDigitString(code.text) && !(12 <= |code.text| <= 16) ==>
              out == Fail(RECHARGE_CODE_LENGTH_ERROR)
  {
    if !code.Str? then Fail(RECHARGE_CODE_TYPE_ERROR)
    else if !IsDigitString(code.text) then Fail(RECHARGE_CODE_DIGITS_ERROR)
    else if !(12 <= |code.text| <= 16) then Fail(RECHARGE_CODE_LENGTH_ERROR)
    else Pass
  }

  /** The digit check comes first: a short code with a letter is refused for its
      letter, and the empty code for not being digits. Both ends of the length
      range pass, and one digit past either end does not. */
  lemma RechargeCodeExamples()
    ensures RechargeCodeCheck(Str("12a")) == Fail(RECHARGE_CODE_DIGITS_ERROR)
    ensures RechargeCodeCheck(Str("")) == Fail(RECHARGE_CODE_DIGITS_ERROR)
    ensures RechargeCodeCheck(Str("12345678901")) == Fail(RECHARGE_CODE_LENGTH_ERROR)
    ensures RechargeCodeCheck(Str("123456789012")) == Pass
    ensures RechargeCodeCheck(Str("1234567890123456")) == Pass
    ensures RechargeCodeCheck(Str("12345678901234567")) == Fail(RECHARGE_CODE_LENGTH_ERROR)
  {
    assert !IsDigitChar("12a"[2]);
    assert IsDigitString("12345678901");
    assert IsDigitString("123456789012");
    assert IsDigitString("1234567890123456");
    assert IsDigitString("12345678901234567");
  }

  // ---------------------------------------------------------------- account information

  /** The account-information keys and the page cells they are read from. */
  const ACCOUNT_FIELDS: seq<(string, string)> := [
    ("username", "//*[@id=\"content\"]/div[2]/div/div/div/div[2]/div/p/text()"),
    ("blocking_date", "//*[@id=\"content\"]/div[2]/div/div/div/div[3]/div[1]/p/text()"),
    ("elimination_date", "//*[@id=\"content\"]/div[2]/div/div/div/div[3]/div[2]/p/text()"),
    ("account_type", "//*[@id=\"content\"]/div[2]/div/div/div/div[4]/div[1]/p/text()"),
    ("service_type", "//*[@id=\"content\"]/div[2]/div/div/div/div[4]/div[2]/p/text()"),
    ("available_balance", "//*[@id=\"content\"]/div[2]/div/div/div/div[5]/div[1]/p/text()"),
    ("remaining_time", "//*[@id=\"content\"]/div[2]/div/div/div/div[5]/div[2]/p/text()"),
    ("email_account", "//*[@id=\"content\"]/div[2]/div/div/div/div[6]/div/p/text()")
  ]

  /** The dictionary literal of `get_account_data`: the first cell of each path. */
  function FieldsOf(fields: seq<(string, string)>, text: string, net: Net): (r: Result<map<string, string>>)
    ensures r.Ok? <==> forall i :: 0 <= i < |fields| ==> |net.xpath(fields[i].1, text)| > 0
    ensures r.Err? ==> r.error == LIST_INDEX_ERROR
    ensures r.Ok? ==> r.value.Keys == set i | 0 <= i < |fields| :: fields[i].0
  {
    if |fields| == 0 then Ok(map[])
    else match First(net.xpath(fields[0].1, text))
      case Err(e) => Err(e)
      case Ok(v) =>
        match FieldsOf(fields[1..], text, net)
        case Err(e) => Err(e)
        case Ok(m) =>
          assert forall i :: 1 <= i < |fields| ==> fields[i] == fields[1..][i - 1];
          Ok(m[fields[0].0 := v])
  }

  /** With distinct keys, each key holds the first cell of its own path. */
  lemma {:induction false} FieldsOfValues(fields: seq<(string, string)>, text: string, net: Net)
    requires forall i, j :: 0 <= i < j < |fields| ==> fields[i].0 != fields[j].0
    requires FieldsOf(fields, text, net).Ok?
    ensures forall i :: 0 <= i < |fields| ==>
              |net.xpath(fields[i].1, text)| > 0
              && FieldsOf(fields, text, net).value[fields[i].0] == net.xpath(fields[i].1, text)[0]
  {
    if |fields| > 0 {
      FieldsOfValues(fields[1..], text, net);
      forall i | 1 <= i < |fields|
        ensures FieldsOf(fields, text, net).value[fields[i].0] == net.xpath(fields[i].1, text)[0]
      {
        assert fields[i] == fields[1..][i - 1];
      }
    }
  }

  /** The account information read from the user-information page. */
  function AccountDataOf(text: string, net: Net): (r: Result<map<string, string>>)
    ensures r.Ok? <==> forall i :: 0 <= i < |ACCOUNT_FIELDS| ==> |net.xpath(ACCOUNT_FIELDS[i].1, text)| > 0
    ensures r.Err? ==> r.error == LIST_INDEX_ERROR
    ensures r.Ok? ==> r.value.Keys == ACCOUNT_KEYS
    ensures r.Ok? ==> forall i :: 0 <= i < |ACCOUNT_FIELDS| ==>
              r.value[ACCOUNT_FIELDS[i].0] == net.xpath(ACCOUNT_FIELDS[i].1, text)[0]
  {
    var r := FieldsOf(ACCOUNT_FIELDS, text, net);
    if r.Err? then r
    else
      AccountKeysDistinct();
      FieldsOfValues(ACCOUNT_FIELDS, text, net);
      AccountKeys();
      r
  }

  /** The eight keys of the account information. */
  const ACCOUNT_KEYS: set<string> := {"username", "blocking_date", "elimination_date", "account_type",
                                      "service_type", "available_balance", "remaining_time", "email_account"}

  lemma AccountKeys()
    ensures (set i | 0 <= i < |ACCOUNT_FIELDS| :: ACCOUNT_FIELDS[i].0) == ACCOUNT_KEYS
  {
    var keys := set i | 0 <= i < |ACCOUNT_FIELDS| :: ACCOUNT_FIELDS[i].0;
    forall i | 0 <= i < |ACCOUNT_FIELDS| ensures ACCOUNT_FIELDS[i].0 in ACCOUNT_KEYS {
      AccountFieldKey(i);
    }
    assert ACCOUNT_FIELDS[0].0 in keys && ACCOUNT_FIELDS[1].0 in keys && ACCOUNT_FIELDS[2].0 in keys;
    assert ACCOUNT_FIELDS[3].0 in keys && ACCOUNT_FIELDS[4].0 in keys && ACCOUNT_FIELDS[5].0 in keys;
    assert ACCOUNT_FIELDS[6].0 in keys && ACCOUNT_FIELDS[7].0 in keys;
  }

  lemma AccountKeysDistinct()
    ensures forall i, j :: 0 <= i < j < |ACCOUNT_FIELDS| ==> ACCOUNT_FIELDS[i].0 != ACCOUNT_FIELDS[j].0
  {
    forall i, j | 0 <= i < j < |ACCOUNT_FIELDS| ensures ACCOUNT_FIELDS[i].0 != ACCOUNT_FIELDS[j].0 {
      var a, b := ACCOUNT_FIELDS[i].0, ACCOUNT_FIELDS[j].0;
      assert |a| != |b| || a[0] != b[0] by { AccountFieldShape(i); AccountFieldShape(j); }
    }
  }

  /** The length and first letter of each key, which tell the keys apart. */
  lemma AccountFieldShape(i: nat)
    requires i < |ACCOUNT_FIELDS|
    ensures var key := ACCOUNT_FIELDS[i].0;
            |key| > 0 && (|key|, key[0]) == [(8, 'u'), (13, 'b'), (16, 'e'), (12, 'a'), (12, 's'), (17, 'a'), (14, 'r'), (13, 'e')][i]
  {
    if i == 0 { } else if i == 1 { } else if i == 2 { } else if i == 3 { }
    else if i == 4 { } else if i == 5 { } else if i == 6 { } else { }
  }

  lemma AccountFieldKey(i: nat)
    requires i < |ACCOUNT_FIELDS|
    ensures ACCOUNT_FIELDS[i].0 in ACCOUNT_KEYS
  {
    if i == 0 { } else if i == 1 { } else if i == 2 { } else if i == 3 { }
    else if i == 4 { } else if i == 5 { } else if i == 6 { } else { }
  }

  // ---------------------------------------------------------------- construction

  function PortalLanguage(english: bool): string
  {
    if english then "en-en" else "es-es"
  }

  /** The state `__init__` leaves behind when it returns normally. */
  datatype PortalInit = PortalInit(username: string, password: string, language: string, csrf: string)

  /**
   * `PortalNauta.__init__`: validates the credentials, fetches the login page in the
   * chosen language and keeps its CSRF token.
   */
  function PortalBootstrap(username: Arg, password: Arg, langEnglish: bool, net: Net): (run: Run<PortalInit>)
    ensures CheckCredentials(username, password).Err? ==>
              run == Run(Err(CheckCredentials(username, password).error), [])
    ensures CheckCredentials(username, password).Ok? ==>
              run.sent == [Get(LOGIN_URL + "/" + PortalLanguage(langEnglish))]
    ensures run.result.Ok? ==>
              var page := net.respond(run.sent[0]).text;
              var init := run.result.value;
              && init.username == username.text && init.password == password.text
              && ValidUsername(init.username)
              && init.language == PortalLanguage(langEnglish)
              && |net.xpath(CSRF_XPATH, page)| > 0 && init.csrf == net.xpath(CSRF_XPATH, page)[0]
    // when construction succeeds, and what it raises otherwise
    ensures var resp := net.respond(Get(LOGIN_URL + "/" + PortalLanguage(langEnglish)));
            run.result.Ok? <==>
              CheckCredentials(username, password).Ok? && resp.Ok() && |net.xpath(CSRF_XPATH, resp.text)| > 0
    ensures var resp := net.respond(Get(LOGIN_URL + "/" + PortalLanguage(langEnglish)));
            CheckCredentials(username, password).Ok? && !resp.Ok() ==>
              run.result == Err(HttpError("init session", resp))
    ensures var resp := net.respond(Get(LOGIN_URL + "/" + PortalLanguage(langEnglish)));
            CheckCredentials(username, password).Ok? && resp.Ok() && |net.xpath(CSRF_XPATH, resp.text)| == 0 ==>
              run.result == Err(LIST_INDEX_ERROR)
  {
    match CheckCredentials(username, password)
    case Err(e) => Run(Err(e), [])
    case Ok((user, pass)) =>
      var language := PortalLanguage(langEnglish);
      var req := Get(LOGIN_URL + "/" + language);
      var resp := net.respond(req);
      if !resp.Ok() then Run(Err(HttpError("init session", resp)), [req])
      else match First(net.xpath(CSRF_XPATH, resp.text))
        case Err(e) => Run(Err(e), [req])
        case Ok(csrf) => Run(Ok(PortalInit(user, pass, language, csrf)), [req])
  }

  /** What the portal's `set_session_data` checks once its state check passed. */
  function PortalImportCheck(d: SessionData, username: string): (out: Outcome)
    ensures out.Pass? <==> d.username == Some(username) && d.cookies.Some?
    ensures d.username.None? ==> out == Fail(MissingKeyError("username"))
    ensures d.username.Some? && d.cookies.None? ==> out == Fail(MissingKeyError("cookies"))
    ensures d.username.Some? && d.cookies.Some? && d.username != Some(username) ==> out == Fail(WRONG_ACCOUNT_ERROR)
  {
    PortalKeysPresent(d);
    match FirstMissing(d, PORTAL_SESSION_KEYS)
    case Some(i) => Fail(MissingKeyError(PORTAL_SESSION_KEYS[i]))
    case None => if d.username != Some(username) then Fail(WRONG_ACCOUNT_ERROR) else Pass
  }

  lemma PortalKeysPresent(d: SessionData)
    ensures FirstMissing(d, PORTAL_SESSION_KEYS) ==
              if d.username.None? then Some(0) else if d.cookies.None? then Some(1) else None
  {
    assert Present(d, PORTAL_SESSION_KEYS[0]) == d.username.Some?;
    assert Present(d, PORTAL_SESSION_KEYS[1]) == d.cookies.Some?;
    assert PORTAL_SESSION_KEYS[1..][1..] == [];
  }

  /** `results` with `acc` in front of its records, or its error. */
  function Appended(acc: seq<Record>, r: Result<seq<Record>>): Result<seq<Record>>
  {
    match r
    case Ok(recs) => Ok(acc + recs)
    case Err(e) => Err(e)
  }

  /** `for j in range(0, len(rows), w)`: appends one record per `w` cells to `records`. */
  method AppendRecords(k: Kind, rows: seq<string>, records: seq<Record>) returns (r: Result<seq<Record>>)
    ensures r == Appended(records, Chunk(rows, k))
  {
    var acc := records;
    var j := 0;
    var w := Width(k);
    while j < |rows|
      invariant 0 <= j <= |rows|
      invariant Appended(records, Chunk(rows, k)) == Appended(acc, Chunk(rows[j..], k))
    {
      if j + w > |rows| {
        AppendShort(k, rows, j, acc);
        return Err(LIST_INDEX_ERROR);
      }
      AppendStep(k, rows[j..], acc);
      SuffixSlices(rows, j, w);
      acc := acc + [RecordOf(k, rows[j..j + w])];
      j := j + w;
    }
    assert rows[j..] == [] && acc + [] == acc;
    r := Ok(acc);
  }

  lemma SuffixSlices(rows: seq<string>, j: nat, w: nat)
    requires j + w <= |rows|
    ensures rows[j..][..w] == rows[j..j + w] && rows[j..][w..] == rows[j + w..]
  {
  }

  /** One turn of the loop: the next `w` cells become one record. */
  lemma AppendStep(k: Kind, cells: seq<string>, acc: seq<Record>)
    requires Width(k) <= |cells|
    ensures Appended(acc, Chunk(cells, k))
            == Appended(acc + [RecordOf(k, cells[..Width(k)])], Chunk(cells[Width(k)..], k))
  {
    var head := RecordOf(k, cells[..Width(k)]);
    match Chunk(cells[Width(k)..], k)
    case Err(e) =>
      ChunkStepErr(cells, k, e);
    case Ok(rest) =>
      ChunkStep(cells, k, head, rest);
      assert acc + ([head] + rest) == acc + [head] + rest;
  }

  lemma ChunkStepErr(rows: seq<string>, k: Kind, e: Error)
    requires |rows| >= Width(k) && Chunk(rows[Width(k)..], k) == Err(e)
    ensures Chunk(rows, k) == Err(e)
  {
  }

  /** Fewer than `w` cells left: the loop indexes past the end. */
  lemma AppendShort(k: Kind, rows: seq<string>, j: nat, acc: seq<Record>)
    requires j < |rows| < j + Width(k)
    ensures Appended(acc, Chunk(rows[j..], k)) == Err(LIST_INDEX_ERROR)
  {
  }

  // ---------------------------------------------------------------- the client

  class PortalNauta {
    const username: string
    const password: string
    const language: string
    const csrf: string
    /** `None` before any CAPTCHA or import; the dictionary stored last otherwise. */
    var accountData: Option<map<string, string>>
    var cookies: Cookies

    /** The truthiness check that guards every method past the constructor: a
        dictionary is truthy exactly when it is not empty. */
    predicate Open()
      reads this
      ensures Open() <==> accountData.Some? && accountData.value != map[]
    {
      accountData.Some? && |accountData.value| > 0
    }

    constructor FromInit(init: PortalInit)
      ensures username == init.username && password == init.password
      ensures language == init.language && csrf == init.csrf
      ensures accountData.None? && cookies == map[] && !Open()
    {
      username, password, language, csrf := init.username, init.password, init.language, init.csrf;
      accountData, cookies := None, map[];
    }

    /** `PortalNauta(username, password, lang_english)`: a new client, or what the
        constructor raises. */
    static method Create(username: Arg, password: Arg, langEnglish: bool, net: Net)
      returns (r: Result<PortalNauta>, sent: seq<Request>)
      ensures var run := PortalBootstrap(username, password, langEnglish, net);
              sent == run.sent
              && (r.Ok? <==> run.result.Ok?)
              && (r.Err? ==> r.error == run.result.error)
              && (r.Ok? ==> var init := run.result.value;
                    && fresh(r.value) && !r.value.Open() && r.value.accountData.None?
                    && r.value.cookies == map[] && r.value.username == init.username
                    && r.value.password == init.password && r.value.language == init.language
                    && r.value.csrf == init.csrf)
    {
      var run := PortalBootstrap(username, password, langEnglish, net);
      sent := run.sent;
      if run.result.Err? {
        r := Err(run.result.error);
      } else {
        var portal := new PortalNauta.FromInit(run.result.value);
        r := Ok(portal);
      }
    }

    function LoginForm(captcha: string): seq<(string, string)>
      reads this
    {
      [("csrf", csrf), ("login_user", username), ("password_user", password), ("captcha", captcha),
       ("btn_submit", "")]
    }

    /**
     * `submit_captcha`: posts the credentials with the CAPTCHA text. The error toast
     * is looked for only when the portal answered on the login URL itself; on
     * success the account data becomes the empty dictionary, which leaves the gate
     * closed.
     */
    method SubmitCaptcha(captcha: Arg, net: Net) returns (out: Outcome, sent: seq<Request>)
      modifies this`accountData
      ensures !captcha.Str? ==> out == Fail(CAPTCHA_TYPE_ERROR) && sent == [] && unchanged(this)
      ensures captcha.Str? ==>
                var req := Post(LOGIN_URL, LoginForm(captcha.text));
                var resp := net.respond(req);
                && sent == [req]
                && out == (if !resp.Ok() then Fail(HttpError("submit CAPTCHA", resp))
                           else if resp.url == LOGIN_URL then ToastrOutcome("submit CAPTCHA code", resp.text, net)
                           else Pass)
      ensures out.Pass? ==> accountData == Some(map[]) && !Open()
      ensures out.Fail? ==> unchanged(this)
    {
      if !captcha.Str? {
        return Fail(CAPTCHA_TYPE_ERROR), [];
      }
      var req := Post(LOGIN_URL, LoginForm(captcha.text));
      sent := [req];
      var resp := net.respond(req);
      if !resp.Ok() {
        out := Fail(HttpError("submit CAPTCHA", resp));
        return;
      }
      if resp.url == LOGIN_URL {
        out := CheckToastr("submit CAPTCHA code", resp.text, net);
        if out.Fail? {
          return;
        }
      }
      accountData := Some(map[]);
      out := Pass;
    }

    /** `recharge_account`: the gate, the code checks, then one POST. */
    method RechargeAccount(code: Arg, net: Net) returns (out: Outcome, sent: seq<Request>)
      ensures !Open() ==> out == Fail(GATE_ERROR) && sent == []
      ensures Open() && RechargeCodeCheck(code).Fail? ==> out == RechargeCodeCheck(code) && sent == []
      ensures Open() && RechargeCodeCheck(code).Pass? ==>
                var req := Post(LOGIN_URL, [("csrf", csrf), ("recharge_code", code.text), ("btn_submit", "")]);
                sent == [req] && out == ActionOutcome("post recharge code", "post recharge code", net.respond(req), net)
    {
      if !Open() {
        return Fail(GATE_ERROR), [];
      }
      out := RechargeCodeCheck(code);
      sent := [];
      if out.Fail? {
        return;
      }
      var req := Post(LOGIN_URL, [("csrf", csrf), ("recharge_code", code.text), ("btn_submit", "")]);
      sent := [req];
      out := Act(req, "post recharge code", "post recharge code", net);
    }

    /** The POST of an account action and the reading of its answer. */
    method Act(req: Request, httpWhat: string, toastrWhat: string, net: Net) returns (out: Outcome)
      ensures out == ActionOutcome(httpWhat, toastrWhat, net.respond(req), net)
    {
      var resp := net.respond(req);
      if !resp.Ok() {
        return Fail(HttpError(httpWhat, resp));
      }
      out := CheckToastr(toastrWhat, resp.text, net);
    }

    function PasswordForm(oldPassword: string, newPassword: string): seq<(string, string)>
      reads this
    {
      [("csrf", csrf), ("old_password", oldPassword), ("new_password", newPassword),
       ("repeat_new_password", newPassword),
       ("btn_submit", "")]
    }

    /** `change_account_password`: the stored password is sent as the old one. The
        toast message reuses the recharge wording. */
    method ChangeAccountPassword(newPassword: Arg, net: Net) returns (out: Outcome, sent: seq<Request>)
      ensures !Open() ==> out == Fail(GATE_ERROR) && sent == []
      ensures Open() && !newPassword.Str? ==> out == Fail(NEW_PASSWORD_TYPE_ERROR) && sent == []
      ensures Open() && newPassword.Str? ==>
                var req := Post(USER_URL + "/change_password", PasswordForm(password, newPassword.text));
                sent == [req]
                && out == ActionOutcome("change password code", "post recharge code", net.respond(req), net)
    {
      if !Open() {
        return Fail(GATE_ERROR), [];
      }
      if !newPassword.Str? {
        return Fail(NEW_PASSWORD_TYPE_ERROR), [];
      }
      var req := Post(USER_URL + "/change_password", PasswordForm(password, newPassword.text));
      sent := [req];
      out := Act(req, "change password code", "post recharge code", net);
    }

    /** `change_email_password`: note the doubled slash the URL is built with. */
    method ChangeEmailPassword(oldPassword: Arg, newPassword: Arg, net: Net) returns (out: Outcome, sent: seq<Request>)
      ensures !Open() ==> out == Fail(GATE_ERROR) && sent == []
      ensures Open() && !oldPassword.Str? ==> out == Fail(OLD_PASSWORD_TYPE_ERROR) && sent == []
      ensures Open() && oldPassword.Str? && !newPassword.Str? ==> out == Fail(NEW_PASSWORD_TYPE_ERROR) && sent == []
      ensures Open() && oldPassword.Str? && newPassword.Str? ==>
                var req := Post(HOMEPAGE_URL + "/email/change_password", PasswordForm(oldPassword.text, newPassword.text));
                sent == [req]
                && out == ActionOutcome("change password code", "post recharge code", net.respond(req), net)
    {
      if !Open() {
        return Fail(GATE_ERROR), [];
      }
      if !oldPassword.Str? {
        return Fail(OLD_PASSWORD_TYPE_ERROR), [];
      }
      if !newPassword.Str? {
        return Fail(NEW_PASSWORD_TYPE_ERROR), [];
      }
      var req := Post(HOMEPAGE_URL + "/email/change_password", PasswordForm(oldPassword.text, newPassword.text));
      sent := [req];
      out := Act(req, "change password code", "post recharge code", net);
    }

    function TransferForm(target: string, amount: string): seq<(string, string)>
      reads this
    {
      [("csrf", csrf), ("transfer", amount), ("password_user", password), ("id_cuenta", target),
       ("action", "checkdata")]
    }

    /** `transfer_balance`: the target must be a Nauta account, the amount a `float`. */
    method TransferBalance(target: Arg, amount: Arg, net: Net) returns (out: Outcome, sent: seq<Request>)
      ensures !Open() ==> out == Fail(GATE_ERROR) && sent == []
      ensures Open() && !target.Str? ==> out == Fail(TARGET_ACCOUNT_TYPE_ERROR) && sent == []
      ensures Open() && target.Str? && !amount.Float? ==> out == Fail(AMOUNT_TYPE_ERROR) && sent == []
      ensures Open() && target.Str? && amount.Float? && !ValidUsername(target.text) ==>
                out == Fail(USERNAME_VALUE_ERROR) && sent == []
      ensures Open() && target.Str? && amount.Float? && ValidUsername(target.text) ==>
                var req := Post(USER_URL + "/transfer_balance", TransferForm(target.text, amount.repr));
                sent == [req]
                && out == ActionOutcome("transfer money", "post recharge code", net.respond(req), net)
    {
      if !Open() {
        return Fail(GATE_ERROR), [];
      }
      if !target.Str? {
        return Fail(TARGET_ACCOUNT_TYPE_ERROR), [];
      }
      if !amount.Float? {
        return Fail(AMOUNT_TYPE_ERROR), [];
      }
      if !ValidUsername(target.text) {
        return Fail(USERNAME_VALUE_ERROR), [];
      }
      var req := Post(USER_URL + "/transfer_balance", TransferForm(target.text, amount.repr));
      sent := [req];
      out := Act(req, "transfer money", "post recharge code", net);
    }

    /**
     * `get_account_data`: behind the gate; fetches and replaces the stored data when
     * asked to refresh (or when it is empty, which the gate already excludes), and
     * returns what is stored.
     */
    method GetAccountData(refresh: bool, net: Net) returns (r: Result<map<string, string>>, sent: seq<Request>)
      modifies this`accountData
      ensures !old(Open()) ==> r == Err(PROPERTY_GATE_ERROR) && sent == [] && unchanged(this)
      ensures old(Open()) && !refresh ==> unchanged(this) && sent == [] && r == Ok(accountData.value)
      ensures old(Open()) && refresh ==>
                var req := Get(USER_URL + "/user_info");
                var resp := net.respond(req);
                && sent == [req]
                && (!resp.Ok() ==> r == Err(HttpError("get account info", resp)) && unchanged(this))
                && (resp.Ok() ==> r == AccountDataOf(resp.text, net)
                                  && (r.Ok? ==> accountData == Some(r.value))
                                  && (r.Err? ==> unchanged(this)))
      ensures old(Open()) ==> Open()
    {
      if !Open() {
        return Err(PROPERTY_GATE_ERROR), [];
      }
      sent := [];
      if refresh || |accountData.value| == 0 {
        var req := Get(USER_URL + "/user_info");
        sent := [req];
        var resp := net.respond(req);
        if !resp.Ok() {
          r := Err(HttpError("get account info", resp));
          return;
        }
        var data := AccountDataOf(resp.text, net);
        if data.Err? {
          r := Err(data.error);
          return;
        }
        accountData := Some(data.value);
      }
      r := Ok(accountData.value);
    }

    /** The body of the page loop for one month: the summary, then each page's rows. */
    method FetchPeriod(k: Kind, yearMonth: string, net: Net) returns (r: Result<Period>, sent: seq<Request>)
      ensures Run(r, sent) == PeriodSpec(k, net, csrf, yearMonth)
    {
      var req := SummaryRequest(k, csrf, yearMonth);
      sent := [req];
      var resp := net.respond(req);
      if !resp.Ok() {
        r := Err(HttpError("get " + Noun(k) + " summary", resp));
        return;
      }
      var cells := net.xpath(SUMMARY_XPATH, resp.text);
      if |cells| < |SummaryKeys(k)| {
        r := Err(LIST_INDEX_ERROR);
        return;
      }
      var count := ParseInt(cells[0]);
      if count.None? {
        r := Err(ParseIntError(cells[0]));
        return;
      }
      var records, pagesSent := FetchPages(k, yearMonth, cells[0], PageCount(count.value), net);
      sent := sent + pagesSent;
      if records.Err? {
        r := Err(records.error);
        return;
      }
      r := Ok(Period(SummaryOf(k, cells), records.value));
    }

    /** `for i in range(1, last + 1)`: each page of a month, its records appended in order. */
    method FetchPages(k: Kind, yearMonth: string, count: string, last: int, net: Net)
      returns (r: Result<seq<Record>>, sent: seq<Request>)
      ensures Run(r, sent) == PagesFrom(PageReader(k, net, yearMonth, count), 1, last, [])
    {
      ghost var reader := PageReader(k, net, yearMonth, count);
      var records: seq<Record> := [];
      sent := [];
      var i := 1;
      while i <= last
        invariant PagesFrom(reader, 1, last, []) == Prepend(sent, PagesFrom(reader, i, last, records))
        decreases last + 1 - i
      {
        var req := Get(PageUrl(k, yearMonth, count, i));
        var resp := net.respond(req);
        assert reader(i) == PageSpec(k, net, yearMonth, count, i);
        PrependPrepend(sent, [req], PagesFrom(reader, i + 1, last, records));
        sent := sent + [req];
        if !resp.Ok() {
          r := Err(HttpError(ListWhat(k), resp));
          return;
        }
        var rows := net.xpath(ROWS_XPATH, resp.text);
        var appended := AppendRecords(k, rows, records);
        if appended.Err? {
          r := Err(appended.error);
          return;
        }
        PrependPrepend(sent[..|sent| - 1], [req], PagesFrom(reader, i + 1, last, appended.value));
        records := appended.value;
        i := i + 1;
      }
      r := Ok(records);
    }

    /** The year-month loop of the three reports. */
    method FetchDetails(k: Kind, net: Net) returns (r: Result<map<string, Period>>, sent: seq<Request>)
      ensures Run(r, sent) == DetailsSpec(k, net, csrf)
    {
      var req := TimestampRequest(k);
      sent := [req];
      var resp := net.respond(req);
      if !resp.Ok() {
        r := Err(HttpError("get " + Noun(k) + " timestamp", resp));
        return;
      }
      var offered := net.xpath(YEAR_MONTH_XPATH, resp.text);
      ghost var read := MonthReader(k, net, csrf);
      var details: map<string, Period> := map[];
      var i := 0;
      while i < |offered|
        invariant 0 <= i <= |offered|
        invariant DetailsSpec(k, net, csrf) == Prepend(sent, PeriodsFrom(read, offered[i..], details))
      {
        var period, periodSent := FetchPeriod(k, offered[i], net);
        assert read(offered[i]) == Run(period, periodSent);
        PeriodsFromStep(read, offered, i, details);
        if period.Err? {
          sent := sent + periodSent;
          r := Err(period.error);
          return;
        }
        PrependPrepend(sent, periodSent, PeriodsFrom(read, offered[i + 1..], details[offered[i] := period.value]));
        sent := sent + periodSent;
        details := details[offered[i] := period.value];
        i := i + 1;
      }
      r := Ok(details);
    }

    method GetConnectionDetails(net: Net) returns (r: Result<map<string, Period>>, sent: seq<Request>)
      ensures !Open() ==> r == Err(GATE_ERROR) && sent == []
      ensures Open() ==> Run(r, sent) == DetailsSpec(Connections, net, csrf)
    {
      if !Open() {
        return Err(GATE_ERROR), [];
      }
      r, sent := FetchDetails(Connections, net);
    }

    method GetRechargeDetails(net: Net) returns (r: Result<map<string, Period>>, sent: seq<Request>)
      ensures !Open() ==> r == Err(GATE_ERROR) && sent == []
      ensures Open() ==> Run(r, sent) == DetailsSpec(Recharges, net, csrf)
    {
      if !Open() {
        return Err(GATE_ERROR), [];
      }
      r, sent := FetchDetails(Recharges, net);
    }

    method GetTransferDetails(net: Net) returns (r: Result<map<string, Period>>, sent: seq<Request>)
      ensures !Open() ==> r == Err(GATE_ERROR) && sent == []
      ensures Open() ==> Run(r, sent) == DetailsSpec(Transfers, net, csrf)
    {
      if !Open() {
        return Err(GATE_ERROR), [];
      }
      r, sent := FetchDetails(Transfers, net);
    }

    /** `get_session_data`: the username and the cookie jar; the three captive-portal
        tokens are absent. */
    method GetSessionData() returns (r: Result<SessionData>)
      ensures !Open() ==> r == Err(EXPORT_WHILE_LOGGED_OUT)
      ensures Open() ==> r == Ok(SessionData(Some(username), Some(cookies), None, None, None))
    {
      if !Open() {
        return Err(EXPORT_WHILE_LOGGED_OUT);
      }
      r := Ok(SessionData(Some(username), Some(cookies), None, None, None));
    }

    /** `set_session_data`: replaces the cookie jar and stores the empty dictionary,
        which leaves the gate closed. */
    method SetSessionData(d: SessionData) returns (out: Outcome)
      modifies this`accountData, this`cookies
      ensures out == if old(Open()) then Fail(IMPORT_WHILE_LOGGED_IN) else PortalImportCheck(d, username)
      ensures out.Fail? ==> unchanged(this)
      ensures out.Pass? ==> d.cookies.Some? && cookies == d.cookies.value && accountData == Some(map[]) && !Open()
    {
      if Open() {
        return Fail(IMPORT_WHILE_LOGGED_IN);
      }
      var missing := FindMissingKey(d, PORTAL_SESSION_KEYS);
      PortalKeysPresent(d);
      if missing.Some? {
        return Fail(MissingKeyError(PORTAL_SESSION_KEYS[missing.value]));
      }
      if d.username != Some(username) {
        return Fail(WRONG_ACCOUNT_ERROR);
      }
      cookies := d.cookies.value;
      accountData := Some(map[]);
      out := Pass;
    }

    /** `load_session_data_from_file` once the file has been read and decoded. */
    method LoadSessionData(doc: JsonDocument) returns (out: Outcome)
      modifies this`accountData, this`cookies
      ensures doc.OtherDocument? ==> out == Fail(NOT_A_DICT_ERROR) && unchanged(this)
      ensures doc.DictDocument? ==>
                out == if old(Open()) then Fail(IMPORT_WHILE_LOGGED_IN) else PortalImportCheck(doc.data, username)
      ensures out.Fail? ==> unchanged(this)
      ensures out.Pass? ==> cookies == doc.data.cookies.value && accountData == Some(map[]) && !Open()
    {
      if doc.OtherDocument? {
        return Fail(NOT_A_DICT_ERROR);
      }
      out := SetSessionData(doc.data);
    }
  }

  // ---------------------------------------------------------------- properties across calls

  /** A CAPTCHA the portal accepts still leaves the gate closed: the recharge that
      follows fails at the gate without sending anything. */
  method CaptchaThenRecharge(p: PortalNauta, captcha: Arg, code: Arg, first: Net, second: Net)
    returns (submitted: Outcome, recharged: Outcome, rechargeSent: seq<Request>)
    modifies p`accountData
    ensures submitted.Pass? ==> recharged == Fail(GATE_ERROR) && rechargeSent == []
  {
    var submitSent;
    submitted, submitSent := p.SubmitCaptcha(captcha, first);
    recharged, rechargeSent := p.RechargeAccount(code, second);
  }

  /** A call a user of the class can make on a portal client, with its arguments
      and the server that answers it. */
  datatype Call =
    | SubmitCaptchaCall(captcha: Arg, net: Net)
    | RechargeCall(code: Arg, net: Net)
    | AccountPasswordCall(newPassword: Arg, net: Net)
    | EmailPasswordCall(oldPassword: Arg, newPassword: Arg, net: Net)
    | TransferCall(target: Arg, amount: Arg, net: Net)
    | AccountDataCall(refresh: bool, net: Net)
    | DetailsCall(kind: Kind, net: Net)
    | ExportCall
    | ImportCall(data: SessionData)
    | LoadCall(doc: JsonDocument)

  /** Makes one call on `p`. Whatever it answers, a closed gate stays closed. */
  method Apply(p: PortalNauta, call: Call)
    modifies p`accountData, p`cookies
    ensures !old(p.Open()) ==> !p.Open()
  {
    match call
    case SubmitCaptchaCall(captcha, net) =>
      var out, sent := p.SubmitCaptcha(captcha, net);
    case RechargeCall(code, net) =>
      var out, sent := p.RechargeAccount(code, net);
    case AccountPasswordCall(newPassword, net) =>
      var out, sent := p.ChangeAccountPassword(newPassword, net);
    case EmailPasswordCall(oldPassword, newPassword, net) =>
      var out, sent := p.ChangeEmailPassword(oldPassword, newPassword, net);
    case TransferCall(target, amount, net) =>
      var out, sent := p.TransferBalance(target, amount, net);
    case AccountDataCall(refresh, net) =>
      var r, sent := p.GetAccountData(refresh, net);
    case DetailsCall(kind, net) =>
      var r, sent;
      match kind {
        case Connections => r, sent := p.GetConnectionDetails(net);
        case Recharges => r, sent := p.GetRechargeDetails(net);
        case Transfers => r, sent := p.GetTransferDetails(net);
      }
    case ExportCall =>
      var r := p.GetSessionData();
    case ImportCall(data) =>
      var out := p.SetSessionData(data);
    case LoadCall(doc) =>
      var out := p.LoadSessionData(doc);
  }

  /**
   * A client starts with its gate closed (`FromInit`), and no sequence of calls
   * opens it: every state a client can reach has the gate closed, so every
   * gated operation fails with the gate error without sending a request.
   */
  method ApplyAll(p: PortalNauta, calls: seq<Call>)
    requires !p.Open()
    modifies p`accountData, p`cookies
    ensures !p.Open()
  {
    for i := 0 to |calls|
      invariant !p.Open()
    {
      Apply(p, calls[i]);
    }
  }

  /** Importing session data into a fresh client succeeds, yet exporting it again
      right after fails: the import leaves the gate closed too. */
  method ImportThenExport(p: PortalNauta, d: SessionData) returns (imported: Outcome, exported: Result<SessionData>)
    requires !p.Open() && d.username == Some(p.username) && d.cookies.Some?
    modifies p`accountData, p`cookies
    ensures imported == Pass && exported == Err(EXPORT_WHILE_LOGGED_OUT)
  {
    imported := p.SetSessionData(d);
    exported := p.GetSessionData();
  }
}
