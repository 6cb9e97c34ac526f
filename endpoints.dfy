/** The endpoint table and the URL of each request (`getEndpointUrl`). */
module Endpoints {
  import opened Wrappers
  import opened Query
  import opened Configuration
  import opened Http

  /** The client methods that each issue one request. */
  datatype Endpoint =
    | AddFile
    | CreateBranch
    | UpdateFile
    | DeleteFile
    | UploadFile
    | TranslationStatus
    | LanguageStatus
    | Info
    | ExportFile
    | ExportTranslations
    | PreTranslate
    | Download(package: string)

  /** The HTTP verb of each endpoint. */
  function VerbOf(e: Endpoint): Verb {
    match e
    case ExportFile => GET
    case ExportTranslations => GET
    case Download(_) => GET
    case _ => POST
  }

  /** The path of each endpoint below the project's API address. */
  function PathOf(e: Endpoint): string {
    match e
    case AddFile => "add-file"
    case CreateBranch => "add-directory"
    case UpdateFile => "update-file"
    case DeleteFile => "delete-file"
    case UploadFile => "upload-translation"
    case TranslationStatus => "status"
    case LanguageStatus => "language-status"
    case Info => "info"
    case ExportFile => "export-file"
    case ExportTranslations => "export"
    case PreTranslate => "pre-translate"
    case Download(p) => "download/" + p + ".zip"
  }

  /** Whether the endpoint goes through `promiseStream` (raw body) rather than
      `promiseJSON` (parsed body). */
  predicate Streams(e: Endpoint) {
    e.ExportFile? || e.ExportTranslations? || e.PreTranslate? || e.Download?
  }

  const DOWNLOAD_PREFIX := "download/"
  const DOWNLOAD_SUFFIX := ".zip"

  /** Which endpoint a request path belongs to. */
  function EndpointOfPath(path: string): Option<Endpoint> {
    match path
    case "add-file" => Some(AddFile)
    case "add-directory" => Some(CreateBranch)
    case "update-file" => Some(UpdateFile)
    case "delete-file" => Some(DeleteFile)
    case "upload-translation" => Some(UploadFile)
    case "status" => Some(TranslationStatus)
    case "language-status" => Some(LanguageStatus)
    case "info" => Some(Info)
    case "export-file" => Some(ExportFile)
    case "export" => Some(ExportTranslations)
    case "pre-translate" => Some(PreTranslate)
    case _ =>
      if |DOWNLOAD_PREFIX| + |DOWNLOAD_SUFFIX| <= |path|
         && path[..|DOWNLOAD_PREFIX|] == DOWNLOAD_PREFIX
         && path[|path| - |DOWNLOAD_SUFFIX|..] == DOWNLOAD_SUFFIX
      then Some(Download(path[|DOWNLOAD_PREFIX|..|path| - |DOWNLOAD_SUFFIX|]))
      else None
  }

  /** The path of a request names the endpoint that issued it: no two endpoints
      share a path. */
  lemma PathIdentifiesEndpoint(e: Endpoint)
    ensures EndpointOfPath(PathOf(e)) == Some(e)
  {
    if e.Download? {
      var path := PathOf(e);
      assert path[..|DOWNLOAD_PREFIX|] == DOWNLOAD_PREFIX;
      assert path[|path| - |DOWNLOAD_SUFFIX|..] == DOWNLOAD_SUFFIX;
      assert path[|DOWNLOAD_PREFIX|..|path| - |DOWNLOAD_SUFFIX|] == e.package;
      // every fixed path differs from `path` within its first two characters
      assert path[0] == 'd' && path[1] == 'o';
    }
  }

  const API_ROOT := "https://api.crowdin.com/api/project/"

  /** The address every endpoint path of a project hangs below. */
  function ProjectRoot(cfg: Config): string {
    API_ROOT + cfg.project + "/"
  }

  /** The authentication pairs `getEndpointUrl` sets after `json=1`. */
  function AuthPairs(c: Credentials): seq<Pair> {
    match c
    case LoginCredentials(accountKey, login) => [("account-key", accountKey), ("login", login)]
    case KeyCredentials(key) => [("key", key)]
  }

  /** The pairs `getEndpointUrl` sets before the caller's. */
  function ReservedPairs(c: Credentials): seq<Pair> {
    [("json", "1")] + AuthPairs(c)
  }

  /** The query of the URL `getEndpointUrl` builds: `set` for each reserved pair, then
      `set` for each of the caller's `params` in the order `Object.keys` lists them. */
  function EndpointQuery(c: Credentials, params: Option<seq<Pair>>): seq<Pair> {
    SetAll([], ReservedPairs(c) + if params.Some? then params.value else [])
  }

  /** `getEndpointUrl(path, params)`. */
  function EndpointUrl(cfg: Config, path: string, params: Option<seq<Pair>>): Url {
    Url(ProjectRoot(cfg) + path, EndpointQuery(cfg.credentials, params))
  }

  /** The request an endpoint method issues. */
  function EndpointRequest(cfg: Config, e: Endpoint, params: Option<seq<Pair>>, form: Option<Form>): Request {
    Request(VerbOf(e), EndpointUrl(cfg, PathOf(e), params), form)
  }

  // ---- properties of the query

  /** The separate `set` calls for `json` and the credentials, on an empty query,
      leave exactly the reserved pairs. */
  lemma ReservedBySteps(c: Credentials)
    ensures c.LoginCredentials? ==>
      SetParam(SetParam(SetParam([], "json", "1"), "account-key", c.accountKey), "login", c.login)
      == ReservedPairs(c)
    ensures c.KeyCredentials? ==>
      SetParam(SetParam([], "json", "1"), "key", c.key) == ReservedPairs(c)
    ensures SetAll([], ReservedPairs(c) + []) == ReservedPairs(c)
  {
    ReservedSetInOrder(c);
    assert ReservedPairs(c) + [] == ReservedPairs(c);
    var json := SetParam([], "json", "1");
    assert json == [("json", "1")];
    match c
    case LoginCredentials(accountKey, login) =>
      assert Names(json) == ["json"];
      SetAppendsNewName(json, "account-key", accountKey);
      var withKey := json + [("account-key", accountKey)];
      assert Names(withKey) == ["json", "account-key"];
      SetAppendsNewName(withKey, "login", login);
    case KeyCredentials(key) =>
      assert Names(json) == ["json"];
      SetAppendsNewName(json, "key", key);
  }

  lemma ReservedSetInOrder(c: Credentials)
    ensures SetAll([], ReservedPairs(c)) == ReservedPairs(c)
    ensures Unique(Names(ReservedPairs(c)))
  {
    SetAllDistinct(ReservedPairs(c));
  }

  /** Setting pairs with distinct names, one by one, on an empty list lists them in order. */
  lemma {:induction false} SetAllDistinct(ps: seq<Pair>)
    requires Unique(Names(ps))
    ensures SetAll([], ps) == ps
    decreases |ps|
  {
    if ps != [] {
      var k := |ps| - 1;
      assert Names(ps[..k]) == Names(ps)[..k];
      SetAllDistinct(ps[..k]);
      assert ps[k].0 !in Names(ps[..k]);
      SetAppendsNewName(ps[..k], ps[k].0, ps[k].1);
      assert ps[..k] + [ps[k]] == ps;
    }
  }

  lemma {:induction false} SetAllSplit(l: seq<Pair>, a: seq<Pair>, b: seq<Pair>)
    ensures SetAll(l, a + b) == SetAll(SetAll(l, a), b)
    decreases |b|
  {
    if b == [] {
      assert a + b == a;
    } else {
      var k := |b| - 1;
      assert (a + b)[..|a| + k] == a + b[..k];
      assert (a + b)[|a| + k] == b[k];
      SetAllSplit(l, a, b[..k]);
    }
  }

  /** The query consists of the reserved pairs in their fixed order, in their own
      positions, followed by the caller's other names in order of first occurrence;
      no name occurs twice. */
  lemma {:induction false} QueryNames(c: Credentials, params: Option<seq<Pair>>)
    ensures var reserved := Names(ReservedPairs(c));
      var callers := if params.Some? then Names(params.value) else [];
      Names(EndpointQuery(c, params)) == reserved + NewNames(reserved, callers)
    ensures Unique(Names(EndpointQuery(c, params)))
  {
    var ps := if params.Some? then params.value else [];
    ReservedSetInOrder(c);
    SetAllSplit([], ReservedPairs(c), ps);
    SetAllNames(ReservedPairs(c), ps);
  }

  /** A name the caller passes reads back the caller's (last) value, whether or not
      it is reserved: caller parameters overwrite `json`, `account-key`, `login`
      and `key`. Any other name reads back its reserved value, or nothing. */
  lemma {:induction false} QueryValues(c: Credentials, params: Option<seq<Pair>>, name: string)
    ensures var callers := if params.Some? then params.value else [];
      Get(EndpointQuery(c, params), name) ==
        if name in Names(callers) then Some(LastValue(callers, name))
        else Get(ReservedPairs(c), name)
  {
    var ps := if params.Some? then params.value else [];
    ReservedSetInOrder(c);
    SetAllSplit([], ReservedPairs(c), ps);
    SetAllGet(ReservedPairs(c), ps, name);
  }

  /** Without caller parameters the query is exactly the reserved pairs. */
  lemma QueryWithoutParams(c: Credentials, params: Option<seq<Pair>>)
    requires params.None? || params.value == []
    ensures EndpointQuery(c, params) == ReservedPairs(c)
  {
    assert ReservedPairs(c) + [] == ReservedPairs(c);
    ReservedSetInOrder(c);
  }

  /** lib/client.js: with no caller parameters the query is `json=1`,
      `account-key=<accountKey>`, `login=<login>`, in that order. */
  lemma LoginQueryDefault(cfg: Config, path: string)
    requires cfg.credentials.LoginCredentials?
    ensures EndpointUrl(cfg, path, None) ==
      Url("https://api.crowdin.com/api/project/" + cfg.project + "/" + path,
          [("json", "1"), ("account-key", cfg.credentials.accountKey), ("login", cfg.credentials.login)])
  {
    QueryWithoutParams(cfg.credentials, None);
  }

  /** src/client.js: with no caller parameters the query is `json=1`, `key=<key>`. */
  lemma KeyQueryDefault(cfg: Config, path: string)
    requires cfg.credentials.KeyCredentials?
    ensures EndpointUrl(cfg, path, None) ==
      Url("https://api.crowdin.com/api/project/" + cfg.project + "/" + path,
          [("json", "1"), ("key", cfg.credentials.key)])
  {
    QueryWithoutParams(cfg.credentials, None);
  }

  /** lib/client.js: a caller parameter named `json`, `account-key` or `login`
      replaces the reserved value in that pair's own position. */
  lemma {:induction false} LoginCallerOverridesInPlace(cfg: Config, path: string, params: seq<Pair>, i: nat)
    requires cfg.credentials.LoginCredentials?
    requires i < 3
    requires ReservedPairs(cfg.credentials)[i].0 in Names(params)
    ensures var q := EndpointUrl(cfg, path, Some(params)).query;
      var name := ReservedPairs(cfg.credentials)[i].0;
      i < |q| && q[i] == (name, LastValue(params, name))
  {
    OverridesInPlace(cfg.credentials, params, i);
  }

  /** src/client.js: a caller parameter named `json` or `key` replaces the reserved
      value in that pair's own position. */
  lemma {:induction false} KeyCallerOverridesInPlace(cfg: Config, path: string, params: seq<Pair>, i: nat)
    requires cfg.credentials.KeyCredentials?
    requires i < 2
    requires ReservedPairs(cfg.credentials)[i].0 in Names(params)
    ensures var q := EndpointUrl(cfg, path, Some(params)).query;
      var name := ReservedPairs(cfg.credentials)[i].0;
      i < |q| && q[i] == (name, LastValue(params, name))
  {
    OverridesInPlace(cfg.credentials, params, i);
  }

  lemma {:induction false} OverridesInPlace(c: Credentials, params: seq<Pair>, i: nat)
    requires i < |ReservedPairs(c)|
    requires ReservedPairs(c)[i].0 in Names(params)
    ensures var q := EndpointQuery(c, Some(params));
      var name := ReservedPairs(c)[i].0;
      i < |q| && q[i] == (name, LastValue(params, name))
  {
    var q := EndpointQuery(c, Some(params));
    var name := ReservedPairs(c)[i].0;
    QueryNames(c, Some(params));
    QueryValues(c, Some(params), name);
    assert Names(q)[i] == name;
    UniqueGet(q, i);
  }

  /** In a list with unique names, the pair at position `i` is what `get` finds for its name. */
  lemma {:induction false} UniqueGet(l: seq<Pair>, i: nat)
    requires Unique(Names(l)) && i < |l|
    ensures Get(l, l[i].0) == Some(l[i].1)
  {
    if i > 0 {
      assert Names(l)[0] != Names(l)[i];
      assert Names(l[1..]) == Names(l)[1..];
      UniqueGet(l[1..], i - 1);
    }
  }
}
