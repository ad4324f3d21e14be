/**
 * What the two clients share: the check of the credentials passed to the
 * constructor, and the session-data mapping that `get_session_data` exports and
 * `set_session_data` imports (src/stickNAUTA/NautaSession.py, PortalNauta.py).
 */
module Accounts {
  import opened Py
  import opened PyText
  import opened Web

  const COM_SUFFIX := "@nauta.com.cu"
  const CO_SUFFIX := "@nauta.co.cu"

  /** `username.endswith(('@nauta.com.cu', '@nauta.co.cu'))`. */
  predicate ValidUsername(username: string)
  {
    EndsWith(username, COM_SUFFIX) || EndsWith(username, CO_SUFFIX)
  }

  /** A username is accepted exactly when it is some text followed by one of the two domains. */
  lemma ValidUsernameSuffix(username: string)
    ensures ValidUsername(username) <==>
              exists local :: username == local + COM_SUFFIX || username == local + CO_SUFFIX
  {
    if EndsWith(username, COM_SUFFIX) {
      assert username == username[..|username| - |COM_SUFFIX|] + COM_SUFFIX;
    } else if EndsWith(username, CO_SUFFIX) {
      assert username == username[..|username| - |CO_SUFFIX|] + CO_SUFFIX;
    } else {
      forall local ensures username != local + COM_SUFFIX && username != local + CO_SUFFIX {
        assert (local + COM_SUFFIX)[|local|..] == COM_SUFFIX;
        assert (local + CO_SUFFIX)[|local|..] == CO_SUFFIX;
      }
    }
  }

  /** The local part before the suffix is never looked at: the bare suffix is a
      valid username, and a look-alike domain is not. */
  lemma ValidUsernameExamples()
    ensures ValidUsername("@nauta.com.cu") && ValidUsername("pepe@nauta.co.cu")
    ensures !ValidUsername("pepe@nauta.cu") && !ValidUsername("pepe@nauta.com.cu.")
  {
    assert "pepe@nauta.co.cu"[4..] == CO_SUFFIX;
    assert "pepe@nauta.cu"[|"pepe@nauta.cu"| - |CO_SUFFIX|..] != CO_SUFFIX;
    assert "pepe@nauta.com.cu."[|"pepe@nauta.com.cu."| - |CO_SUFFIX|..] != CO_SUFFIX;
    assert "pepe@nauta.com.cu."[|"pepe@nauta.com.cu."| - |COM_SUFFIX|..] != COM_SUFFIX;
  }

  /** The message both clients raise when the server answers with a 4xx or 5xx status. */
  function HttpError(what: string, resp: Response): Error
  {
    RuntimeError("Failed to " + what + " with HTTP code: " + IntToString(resp.status)
                 + ", reason: \"" + resp.reason + "\".")
  }

  const USERNAME_TYPE_ERROR: Error := TypeError("username must be a str().")
  const PASSWORD_TYPE_ERROR: Error := TypeError("password must be a str().")
  const USERNAME_VALUE_ERROR: Error :=
    ValueError("username is not valid. It must end with @nauta.com.cu or @nauta.co.cu.")

  /**
   * The checks both constructors start with: the two type checks first, then the
   * domain suffix of the username.
   */
  function CheckCredentials(username: Arg, password: Arg): (r: Result<(string, string)>)
    ensures r.Ok? <==> username.Str? && password.Str? && ValidUsername(username.text)
    ensures r.Ok? ==> r.value == (username.text, password.text)
    ensures !username.Str? ==> r == Err(USERNAME_TYPE_ERROR)
    ensures username.Str? && !password.Str? ==> r == Err(PASSWORD_TYPE_ERROR)
    ensures r.Err? && r.error.ValueError? <==>
              username.Str? && password.Str? && !ValidUsername(username.text)
  {
    if !username.Str? then Err(USERNAME_TYPE_ERROR)
    else if !password.Str? then Err(PASSWORD_TYPE_ERROR)
    else if !ValidUsername(username.text) then Err(USERNAME_VALUE_ERROR)
    else Ok((username.text, password.text))
  }

  // ---------------------------------------------------------------- session data

  /**
   * A session-data mapping. Each field is the value under one key, `None` when the
   * key is absent; keys other than these five are never read by either client.
   */
  datatype SessionData = SessionData(
    username: Option<string>,
    cookies: Option<Cookies>,
    wlanuserip: Option<string>,
    csrfhw: Option<string>,
    attributeUuid: Option<string>)

  /** `key in session_data.keys()`. */
  predicate Present(d: SessionData, key: string)
  {
    match key
    case "username" => d.username.Some?
    case "cookies" => d.cookies.Some?
    case "wlanuserip" => d.wlanuserip.Some?
    case "CSRFHW" => d.csrfhw.Some?
    case "ATTRIBUTE_UUID" => d.attributeUuid.Some?
    case _ => false
  }

  /** The position in `keys` of the first key absent from `d`. */
  function FirstMissing(d: SessionData, keys: seq<string>): (r: Option<nat>)
    ensures r.None? <==> forall i :: 0 <= i < |keys| ==> Present(d, keys[i])
    ensures r.Some? ==> r.value < |keys| && !Present(d, keys[r.value])
    ensures r.Some? ==> forall i :: 0 <= i < r.value ==> Present(d, keys[i])
  {
    if |keys| == 0 then None
    else if !Present(d, keys[0]) then Some(0)
    else match FirstMissing(d, keys[1..])
      case None => None
      case Some(i) => Some(i + 1)
  }

  function MissingKeyError(key: string): Error
  {
    ValueError("session_data kas not required key: '" + key + "'.")
  }

  /** The loop over the required keys in `set_session_data`: it stops at the first
      key that is absent. */
  method FindMissingKey(d: SessionData, keys: seq<string>) returns (missing: Option<nat>)
    ensures missing == FirstMissing(d, keys)
  {
    var i := 0;
    while i < |keys|
      invariant 0 <= i <= |keys|
      invariant forall j :: 0 <= j < i ==> Present(d, keys[j])
    {
      if !Present(d, keys[i]) {
        missing := Some(i);
        return;
      }
      i := i + 1;
    }
    missing := None;
  }

  /** What `json.load` read from a session file: a dict, or any other JSON value. */
  datatype JsonDocument = DictDocument(data: SessionData) | OtherDocument

  const NOT_A_DICT_ERROR: Error :=
    ValueError("File does not contain a dict and therefore not a session data.")
}
