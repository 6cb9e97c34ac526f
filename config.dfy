/** The options object the `Crowdin` constructor receives, and the credential
    checks it makes before the client can be used. */
module Configuration {
  import opened Wrappers

  /** Which copy of the client: lib/client.js authenticates with an account key
      and a login, src/client.js with a single API key. */
  datatype Auth = AccountKeyAndLogin | ApiKey

  /** The keys of the options object the constructor reads; `None` is `undefined`. */
  datatype Options = Options(
    project: Option<string>,
    accountKey: Option<string>,
    login: Option<string>,
    key: Option<string>)

  datatype Credentials =
    | LoginCredentials(accountKey: string, login: string)
    | KeyCredentials(key: string)

  /** The configuration of a constructed client; it never changes afterwards. */
  datatype Config = Config(project: string, credentials: Credentials)

  /** The error the constructor throws, by the key it found missing. */
  datatype ConfigError =
    | MissingProject
    | MissingAccountKey(project: string)
    | MissingLogin(project: string)
    | MissingKey(project: string)
  {
    /** The option key the error is about. */
    function KeyName(): string {
      match this
      case MissingProject => "project"
      case MissingAccountKey(_) => "accountKey"
      case MissingLogin(_) => "login"
      case MissingKey(_) => "key"
    }
  }

  /** A truthy option value: present and not the empty string. */
  predicate Given(v: Option<string>) {
    v.Some? && v.value != ""
  }

  /** The option keys the constructor checks, in the order it checks them. */
  function RequiredKeys(auth: Auth): seq<string> {
    match auth
    case AccountKeyAndLogin => ["project", "accountKey", "login"]
    case ApiKey => ["project", "key"]
  }

  /** `options[name]` for the keys the constructor reads. */
  function OptionValue(o: Options, name: string): Option<string> {
    match name
    case "project" => o.project
    case "accountKey" => o.accountKey
    case "login" => o.login
    case "key" => o.key
    case _ => None
  }

  /** `new Crowdin(options)`: the checks in source order, each with its own error. */
  function Validate(auth: Auth, o: Options): (r: Result<Config, ConfigError>)
    ensures r.Success? <==> forall k | k in RequiredKeys(auth) :: Given(OptionValue(o, k))
    ensures r.Failure? ==>
      exists i | 0 <= i < |RequiredKeys(auth)| ::
        RequiredKeys(auth)[i] == r.error.KeyName()
        && !Given(OptionValue(o, RequiredKeys(auth)[i]))
        && forall j | 0 <= j < i :: Given(OptionValue(o, RequiredKeys(auth)[j]))
    ensures r.Failure? && !r.error.MissingProject? ==> Given(o.project) && r.error.project == o.project.value
    ensures r.Success? ==> Some(r.value.project) == o.project
    ensures r.Success? && auth == AccountKeyAndLogin ==>
      Given(o.accountKey) && Given(o.login)
      && r.value.credentials == LoginCredentials(o.accountKey.value, o.login.value)
    ensures r.Success? && auth == ApiKey ==>
      Given(o.key) && r.value.credentials == KeyCredentials(o.key.value)
  {
    var keys := RequiredKeys(auth);
    assert keys[0] == "project" && OptionValue(o, keys[0]) == o.project;
    if !Given(o.project) then Failure(MissingProject)
    else
      match auth
      case AccountKeyAndLogin =>
        assert keys[1] == "accountKey" && OptionValue(o, keys[1]) == o.accountKey;
        assert keys[2] == "login" && OptionValue(o, keys[2]) == o.login;
        if !Given(o.accountKey) then Failure(MissingAccountKey(o.project.value))
        else if !Given(o.login) then Failure(MissingLogin(o.project.value))
        else Success(Config(o.project.value, LoginCredentials(o.accountKey.value, o.login.value)))
      case ApiKey =>
        assert keys[1] == "key" && OptionValue(o, keys[1]) == o.key;
        if !Given(o.key) then Failure(MissingKey(o.project.value))
        else Success(Config(o.project.value, KeyCredentials(o.key.value)))
  }

  /** The page of the project's API settings that the error messages point to. */
  function SettingsUrl(project: string): string {
    "https://crowdin.com/project/" + project + "/settings#api"
  }

  /** What the message says the missing key should hold. The two copies word the
      project message differently. */
  function Requirement(auth: Auth, e: ConfigError): string {
    match e
    case MissingProject =>
      if auth == AccountKeyAndLogin
      then " should be specified and contain crowdin project ID."
      else " should be specified and contained crowdin project ID."
    case MissingAccountKey(_) => " should be specified and contain crowdin account API key."
    case MissingLogin(_) => " should be specified and contain crowdin account username."
    case MissingKey(_) => " should be specified and contained crowdin API key."
  }

  /** How a message opens: the key it is about, quoted. */
  function Quote(key: string): string {
    "Key `" + key + "`"
  }

  /** What follows the quoted key: the requirement and, for a credential, the
      line pointing to the project's settings page. */
  function Detail(auth: Auth, e: ConfigError): (d: string)
    ensures !e.MissingProject? ==>
      var url := SettingsUrl(e.project);
      |url| <= |d| && d[|d| - |url|..] == url
  {
    if e.MissingProject? then Requirement(auth, e)
    else
      var url := SettingsUrl(e.project);
      SuffixOfConcat(Requirement(auth, e) + "\nCheck ", url);
      Requirement(auth, e) + "\nCheck " + url
  }

  /** The message of the thrown `Error`: the quoted key, then what it should hold
      and, for a credential, where to find it. */
  function Message(auth: Auth, e: ConfigError): (m: string)
    ensures var head := Quote(e.KeyName());
      |head| <= |m| && m[..|head|] == head
    ensures !e.MissingProject? ==>
      var url := SettingsUrl(e.project);
      |url| <= |m| && m[|m| - |url|..] == url
  {
    var head := Quote(e.KeyName());
    var detail := Detail(auth, e);
    PrefixOfConcat(head, detail);
    if e.MissingProject? then head + detail
    else
      SuffixCarries(head, detail, SettingsUrl(e.project));
      head + detail
  }

  lemma PrefixOfConcat(a: string, b: string)
    ensures |a| <= |a + b| && (a + b)[..|a|] == a
  {
  }

  lemma SuffixOfConcat(a: string, b: string)
    ensures |b| <= |a + b| && (a + b)[|a + b| - |b|..] == b
  {
  }

  lemma SuffixCarries(a: string, b: string, c: string)
    requires |c| <= |b| && b[|b| - |c|..] == c
    ensures |c| <= |a + b| && (a + b)[|a + b| - |c|..] == c
  {
    assert (a + b)[|a + b| - |c|..] == b[|b| - |c|..];
  }

  /** Every message names the missing key; every credential message ends with the
      settings page of the project the options name. */
  lemma MessageNamesKeyAndSettings(auth: Auth, o: Options)
    requires Validate(auth, o).Failure?
    ensures var e := Validate(auth, o).error;
      var m := Message(auth, e);
      var head := Quote(e.KeyName());
      |head| <= |m| && m[..|head|] == head
      && (e != MissingProject ==>
            var url := SettingsUrl(o.project.value);
            |url| <= |m| && m[|m| - |url|..] == url)
  {
    var e := Validate(auth, o).error;
    assert e != MissingProject ==> e.project == o.project.value;
  }

  /** lib/client.js never reads `key`: the account-key check does not depend on it. */
  lemma AccountKeyAndLoginIgnoresKey(o: Options, key: Option<string>)
    ensures Validate(AccountKeyAndLogin, o) == Validate(AccountKeyAndLogin, o.(key := key))
  {
  }

  /** lib/client.js checks `login` only once `accountKey` passed: with the account
      key missing, the error is the same whatever the login is. */
  lemma LoginCheckedAfterAccountKey(o: Options, login: Option<string>)
    requires Given(o.project) && !Given(o.accountKey)
    ensures Validate(AccountKeyAndLogin, o) == Validate(AccountKeyAndLogin, o.(login := login))
    ensures Validate(AccountKeyAndLogin, o) == Failure(MissingAccountKey(o.project.value))
  {
  }

  /** src/client.js never reads `accountKey` or `login`. */
  lemma ApiKeyIgnoresLogin(o: Options, accountKey: Option<string>, login: Option<string>)
    ensures Validate(ApiKey, o) == Validate(ApiKey, o.(accountKey := accountKey, login := login))
  {
  }

  /** Whichever copy, a missing project is reported before anything else. */
  lemma ProjectCheckedFirst(auth: Auth, o: Options)
    requires !Given(o.project)
    ensures Validate(auth, o) == Failure(MissingProject)
  {
  }
}
