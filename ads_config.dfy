/**
 * `AdsConfig` of atc_del_simulator/ads_config.py: the configuration shared by
 * the commands, a dictionary whose key set is fixed when it is built. Each
 * `requests.Session` in it is modelled by its header map, and the rich
 * console by a placeholder value.
 */
module Config {
  import opened Wrappers
  import opened Python

  /** The values the configuration holds. */
  datatype PyValue =
    | PyNone
    | PyBool(b: bool)
    | PyStr(s: string)
    | PyConsole
    | PySession(headers: map<string, PyValue>)

  /** Python truthiness of a configuration value. */
  predicate PyTruthy(v: PyValue) {
    match v
    case PyNone => false
    case PyBool(b) => b
    case PyStr(s) => s != ""
    case PyConsole => true
    case PySession(_) => true
  }

  type Conf = map<string, PyValue>

  const AEROAPI_SESSION: string := "aeroapi_session"
  const AEROAPI_TOKEN: string := "aeroapi_token"
  const AVWX_SESSION: string := "avwx_session"
  const AVWX_TOKEN: string := "avwx_token"
  const RICH_CONSOLE: string := "rich_console"
  const VERBOSE: string := "verbose"

  /** The keys of `conf`, fixed at construction. */
  const CONF_KEYS: set<string> := {AEROAPI_SESSION, AEROAPI_TOKEN, AVWX_SESSION, AVWX_TOKEN, RICH_CONSOLE, VERBOSE}

  /** The `Accept` header both API sessions send. */
  const JSON_ACCEPT: string := "application/json; charset=UTF-8"

  /** The two session names `set_api_token` knows. */
  predicate IsApiSession(sessionName: string) {
    sessionName == AEROAPI_SESSION || sessionName == AVWX_SESSION
  }

  /** The configuration key holding the token of a session. */
  function TokenKey(sessionName: string): (key: string)
    requires IsApiSession(sessionName)
    ensures key in CONF_KEYS && key != sessionName
  {
    if sessionName == AEROAPI_SESSION then AEROAPI_TOKEN else AVWX_TOKEN
  }

  /** The header carrying the token: `x-apikey` for AeroAPI, `Authorization` for AVWX. */
  function AuthHeader(sessionName: string): (header: string)
    requires IsApiSession(sessionName)
    ensures header != "Accept"
  {
    if sessionName == AEROAPI_SESSION then "x-apikey" else "Authorization"
  }

  /** The headers `set_api_token` merges into a session. */
  function ApiHeaders(sessionName: string, apiToken: PyValue): (h: map<string, PyValue>)
    requires IsApiSession(sessionName)
    ensures h.Keys == {"Accept", AuthHeader(sessionName)}
    ensures h["Accept"] == PyStr(JSON_ACCEPT) && h[AuthHeader(sessionName)] == apiToken
  {
    map["Accept" := PyStr(JSON_ACCEPT), AuthHeader(sessionName) := apiToken]
  }

  // ---------------------------------------------------------------------------
  // The dictionary operations, on values

  /** `conf.get(name)`: the stored value, or `None` for a key that is not there. */
  function Lookup(conf: Conf, name: string): PyValue {
    if name in conf then conf[name] else PyNone
  }

  /**
   * `set_property` on a dictionary: an existing key takes the value, which is
   * returned; an unknown key raises `KeyError` and changes nothing.
   */
  function PropertySet(conf: Conf, name: string, value: PyValue): (after: (Conf, Result<PyValue, PyError>))
    ensures after.0.Keys == conf.Keys
    ensures name in conf ==> after.1 == Success(value) && after.0[name] == value
    ensures name !in conf ==> after.0 == conf && after.1 == Failure(KeyError(name))
    ensures forall k :: k in conf && k != name ==> after.0[k] == conf[k]
  {
    if name in conf then (conf[name := value], Success(value)) else (conf, Failure(KeyError(name)))
  }

  /**
   * `get_property` after `set_property(name, value)`: an existing `name`
   * reads back the value just set, every other key reads what it read
   * before, and an unknown `name` still reads `None`.
   */
  lemma LookupAfterPropertySet(conf: Conf, name: string, value: PyValue, key: string)
    ensures var after := PropertySet(conf, name, value).0;
      && (name in conf ==> Lookup(after, name) == value)
      && (name !in conf ==> Lookup(after, name) == PyNone)
      && (key != name ==> Lookup(after, key) == Lookup(conf, key))
  {
  }

  /**
   * `set_api_token` on a dictionary. For either API session: the token is set
   * through `set_property`, then `Accept` and the session's auth header are
   * merged into the session's headers. Updating the headers of a value that
   * is not a session raises `AttributeError` after the token was already
   * set. Any other session name changes nothing.
   */
  function TokenSet(conf: Conf, sessionName: string, apiToken: PyValue): (after: (Conf, Outcome<PyError>))
    ensures after.0.Keys == conf.Keys
    ensures !IsApiSession(sessionName) ==> after == (conf, Pass)
  {
    if !IsApiSession(sessionName) then (conf, Pass)
    else if TokenKey(sessionName) !in conf then (conf, Fail(KeyError(TokenKey(sessionName))))
    else
      var withToken := PropertySet(conf, TokenKey(sessionName), apiToken).0;
      if sessionName !in withToken then (withToken, Fail(KeyError(sessionName)))
      else if !withToken[sessionName].PySession? then (withToken, Fail(AttributeError("headers")))
      else (withToken[sessionName := PySession(withToken[sessionName].headers + ApiHeaders(sessionName, apiToken))], Pass)
  }

  /**
   * On a dictionary where the token key and the session exist and the
   * session is a session, `set_api_token` sets the token, overrides `Accept`
   * and the auth header in that session, keeps the session's other headers,
   * and leaves every other key as it was.
   */
  lemma TokenSetUpdatesSession(conf: Conf, sessionName: string, apiToken: PyValue)
    requires IsApiSession(sessionName) && TokenKey(sessionName) in conf
    requires sessionName in conf && conf[sessionName].PySession?
    ensures var (after, outcome) := TokenSet(conf, sessionName, apiToken);
      && outcome == Pass
      && after[TokenKey(sessionName)] == apiToken
      && after[sessionName].PySession?
      && after[sessionName].headers.Keys == conf[sessionName].headers.Keys + {"Accept", AuthHeader(sessionName)}
      && after[sessionName].headers["Accept"] == PyStr(JSON_ACCEPT)
      && after[sessionName].headers[AuthHeader(sessionName)] == apiToken
      && (forall h :: h in conf[sessionName].headers && h != "Accept" && h != AuthHeader(sessionName) ==>
            after[sessionName].headers[h] == conf[sessionName].headers[h])
      && (forall k :: k in conf && k != sessionName && k != TokenKey(sessionName) ==> after[k] == conf[k])
  {
    var withToken := conf[TokenKey(sessionName) := apiToken];
    assert PropertySet(conf, TokenKey(sessionName), apiToken) == (withToken, Success(apiToken));
    assert withToken[sessionName] == conf[sessionName];
  }

  /**
   * The error paths of `set_api_token`: `KeyError` without a token key
   * (nothing changes), `KeyError` without the session and `AttributeError`
   * when the session is some other value (the token is set regardless).
   */
  lemma TokenSetFailures(conf: Conf, sessionName: string, apiToken: PyValue)
    requires IsApiSession(sessionName)
    ensures TokenKey(sessionName) !in conf ==>
      TokenSet(conf, sessionName, apiToken) == (conf, Fail(KeyError(TokenKey(sessionName))))
    ensures TokenKey(sessionName) in conf && sessionName !in conf ==>
      TokenSet(conf, sessionName, apiToken) == (conf[TokenKey(sessionName) := apiToken], Fail(KeyError(sessionName)))
    ensures TokenKey(sessionName) in conf && sessionName in conf && !conf[sessionName].PySession? ==>
      TokenSet(conf, sessionName, apiToken) == (conf[TokenKey(sessionName) := apiToken], Fail(AttributeError("headers")))
  {
    if TokenKey(sessionName) in conf {
      var withToken := conf[TokenKey(sessionName) := apiToken];
      assert PropertySet(conf, TokenKey(sessionName), apiToken) == (withToken, Success(apiToken));
    }
  }

  /** Setting one session's token never touches the other session or its token. */
  lemma TokenSetLeavesOtherSession(conf: Conf, sessionName: string, apiToken: PyValue)
    requires IsApiSession(sessionName)
    ensures var other := if sessionName == AEROAPI_SESSION then AVWX_SESSION else AEROAPI_SESSION;
      var after := TokenSet(conf, sessionName, apiToken).0;
      && (other in conf ==> after[other] == conf[other])
      && (TokenKey(other) in conf ==> after[TokenKey(other)] == conf[TokenKey(other)])
  {
    if TokenKey(sessionName) in conf {
      var withToken := conf[TokenKey(sessionName) := apiToken];
      assert PropertySet(conf, TokenKey(sessionName), apiToken) == (withToken, Success(apiToken));
    }
  }

  /** The configuration values of a fresh `AdsConfig` before its two `set_api_token` calls. */
  function InitialConf(aeroapiToken: PyValue, avwxToken: PyValue, verbose: PyValue,
                       newSessionHeaders: map<string, PyValue>): (conf: Conf)
    ensures conf.Keys == CONF_KEYS
  {
    map[AEROAPI_SESSION := PySession(newSessionHeaders),
        AEROAPI_TOKEN := aeroapiToken,
        AVWX_SESSION := PySession(newSessionHeaders),
        AVWX_TOKEN := avwxToken,
        RICH_CONSOLE := PyConsole,
        VERBOSE := verbose]
  }

  /** Both sessions of a configuration are still sessions. */
  predicate SessionsIntact(conf: Conf) {
    && AEROAPI_SESSION in conf && conf[AEROAPI_SESSION].PySession?
    && AVWX_SESSION in conf && conf[AVWX_SESSION].PySession?
  }

  // ---------------------------------------------------------------------------
  // The class

  class AdsConfig {
    /** `self.conf` */
    var conf: Conf

    /** The key set stays the one built by the constructor. */
    predicate Valid()
      reads this
    {
      conf.Keys == CONF_KEYS
    }

    /**
     * `AdsConfig(aeroapi_token, avwx_token, verbose)`; `newSessionHeaders`
     * are the headers a new `requests.Session` starts with.
     */
    constructor (newSessionHeaders: map<string, PyValue>, aeroapiToken: PyValue := PyStr(""),
                 avwxToken: PyValue := PyStr(""), verbose: PyValue := PyBool(false))
      ensures Valid() && SessionsIntact(conf)
      ensures conf[AEROAPI_TOKEN] == aeroapiToken && conf[AVWX_TOKEN] == avwxToken && conf[VERBOSE] == verbose
      ensures conf[RICH_CONSOLE] == PyConsole
      ensures conf[AEROAPI_SESSION].headers == newSessionHeaders + ApiHeaders(AEROAPI_SESSION, aeroapiToken)
      ensures conf[AVWX_SESSION].headers == newSessionHeaders + ApiHeaders(AVWX_SESSION, avwxToken)
    {
      conf := InitialConf(aeroapiToken, avwxToken, verbose, newSessionHeaders);
      new;
      var aeroapiOutcome := SetApiToken(AEROAPI_SESSION, aeroapiToken);
      var avwxOutcome := SetApiToken(AVWX_SESSION, avwxToken);
    }

    /** `get_property`: the stored value, or `None` for an unknown key. */
    function GetProperty(name: string): PyValue
      reads this
    {
      Lookup(conf, name)
    }

    /** `set_property`: overwrite an existing key and return the value, or raise `KeyError`. */
    method SetProperty(name: string, value: PyValue) returns (r: Result<PyValue, PyError>)
      modifies this
      ensures (conf, r) == PropertySet(old(conf), name, value)
      ensures old(Valid()) ==> Valid()
      ensures r.Success? ==> GetProperty(name) == value
      ensures forall key :: key != name ==> GetProperty(key) == old(GetProperty(key))
    {
      if name in conf.Keys {
        conf := conf[name := value];
        return Success(GetProperty(name));
      }
      return Failure(KeyError(name));
    }

    /** `set_api_token`: set a session's token and its request headers. */
    method SetApiToken(sessionName: string, apiToken: PyValue) returns (outcome: Outcome<PyError>)
      modifies this
      ensures (conf, outcome) == TokenSet(old(conf), sessionName, apiToken)
      ensures old(Valid()) ==> Valid()
      ensures old(SessionsIntact(conf)) && IsApiSession(sessionName) && TokenKey(sessionName) in old(conf) ==>
        && outcome == Pass && SessionsIntact(conf) && conf[TokenKey(sessionName)] == apiToken
        && conf[sessionName] == PySession(old(conf)[sessionName].headers + ApiHeaders(sessionName, apiToken))
        && (forall k :: k in old(conf) && k != sessionName && k != TokenKey(sessionName) ==> conf[k] == old(conf)[k])
    {
      if IsApiSession(sessionName) && TokenKey(sessionName) in conf && SessionsIntact(conf) {
        TokenSetUpdatesSession(conf, sessionName, apiToken);
      }
      outcome := Pass;
      if sessionName == AEROAPI_SESSION || sessionName == AVWX_SESSION {
        var r := SetProperty(TokenKey(sessionName), apiToken);
        if r.Failure? {
          return Fail(r.error);
        }
        if sessionName !in conf {
          return Fail(KeyError(sessionName));
        }
        var session := conf[sessionName];
        if !session.PySession? {
          return Fail(AttributeError("headers"));
        }
        conf := conf[sessionName := PySession(session.headers + ApiHeaders(sessionName, apiToken))];
      }
    }
  }
}
