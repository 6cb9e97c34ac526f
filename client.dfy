/** The `Crowdin` class: one client for both copies, parameterised by the
    authentication scheme. Every method that talks to the remote end appends its
    requests to the transport's record. */
module Client {
  import opened Wrappers
  import opened Json
  import opened Query
  import opened Configuration
  import opened Http
  import opened Endpoints
  import opened Orchestration

  class Crowdin {
    /** `this.options`, checked; it never changes after construction. */
    const config: Config
    /** The HTTP library and the remote end behind it. */
    const net: Transport
    /** `JSON.parse(buffer.toString('utf8'))`. */
    const parse: Decoder

    constructor (config: Config, net: Transport, parse: Decoder)
      ensures this.config == config && this.net == net && this.parse == parse
    {
      this.config := config;
      this.net := net;
      this.parse := parse;
    }

    /** `new Crowdin(options)`: throws the first failed credential check, or
        yields a client holding the checked options. */
    static method New(auth: Auth, options: Options, net: Transport, parse: Decoder)
      returns (r: Result<Crowdin, ConfigError>)
      ensures Validate(auth, options).Failure? ==> r == Failure(Validate(auth, options).error)
      ensures Validate(auth, options).Success? ==>
        r.Success? && fresh(r.value)
        && r.value.config == Validate(auth, options).value && r.value.net == net && r.value.parse == parse
    {
      match Validate(auth, options)
      case Failure(e) =>
        r := Failure(e);
      case Success(config) =>
        var client := new Crowdin(config, net, parse);
        r := Success(client);
    }

    /** `getEndpointUrl(path, params)`: a fresh URL whose search parameters get
        `set` for `json`, the credentials and then each caller parameter. */
    method GetEndpointUrl(path: string, params: Option<seq<Pair>>) returns (url: Url)
      ensures url == EndpointUrl(config, path, params)
    {
      var searchParams := new SearchParams();
      searchParams.Set("json", "1");
      match config.credentials {
        case LoginCredentials(accountKey, login) =>
          searchParams.Set("account-key", accountKey);
          searchParams.Set("login", login);
        case KeyCredentials(key) =>
          searchParams.Set("key", key);
      }
      ReservedBySteps(config.credentials);
      ghost var reserved := ReservedPairs(config.credentials);
      var callers := if params.Some? then params.value else [];
      for i := 0 to |callers|
        invariant searchParams.list == SetAll([], reserved + callers[..i])
      {
        SetAllStep([], reserved, callers, i);
        searchParams.Set(callers[i].0, callers[i].1);
      }
      assert callers[..|callers|] == callers;
      url := Url(ProjectRoot(config) + path, searchParams.list);
    }

    /** `request(method, name, params, formData, callback)`: one request to the
        endpoint URL, with the form as given. */
    method Request(verb: Verb, name: string, params: Option<seq<Pair>>, formData: Option<Form>)
      returns (reply: Reply)
      modifies net
      ensures net.sent == old(net.sent) + [Http.Request(verb, EndpointUrl(config, name, params), formData)]
      ensures reply == net.server(old(net.sent), Http.Request(verb, EndpointUrl(config, name, params), formData))
    {
      var url := GetEndpointUrl(name, params);
      reply := net.Send(Http.Request(verb, url, formData));
    }

    /** `promiseJSON(method, name, params, formData)`. */
    method PromiseJson(verb: Verb, name: string, params: Option<seq<Pair>>, formData: Option<Form>)
      returns (s: Settled<Json>)
      modifies net
      ensures net.sent == old(net.sent) + [Http.Request(verb, EndpointUrl(config, name, params), formData)]
      ensures s == ClassifyJson(net.server(old(net.sent), Http.Request(verb, EndpointUrl(config, name, params), formData)), parse)
    {
      var reply := Request(verb, name, params, formData);
      s := ClassifyJson(reply, parse);
    }

    /** `promiseStream(method, name, params, formData)`. */
    method PromiseStream(verb: Verb, name: string, params: Option<seq<Pair>>, formData: Option<Form>)
      returns (s: Settled<Bytes>)
      modifies net
      ensures net.sent == old(net.sent) + [Http.Request(verb, EndpointUrl(config, name, params), formData)]
      ensures s == ClassifyStream(net.server(old(net.sent), Http.Request(verb, EndpointUrl(config, name, params), formData)), parse)
    {
      var reply := Request(verb, name, params, formData);
      s := ClassifyStream(reply, parse);
    }

    // ---- the endpoint table: one request each

    method AddFile(data: Option<Form>) returns (s: Settled<Json>)
      modifies net
      ensures net.sent == old(net.sent) + [EndpointRequest(config, Endpoint.AddFile, None, data)]
      ensures s == JsonCall(config, net.server, parse, old(net.sent), Endpoint.AddFile, None, data)
    {
      s := PromiseJson(POST, "add-file", None, data);
    }

    method CreateBranch(name: string) returns (s: Settled<Json>)
      modifies net
      ensures net.sent == old(net.sent) + [EndpointRequest(config, Endpoint.CreateBranch, Some(BranchParams(name)), None)]
      ensures s == JsonCall(config, net.server, parse, old(net.sent), Endpoint.CreateBranch, Some(BranchParams(name)), None)
    {
      s := PromiseJson(POST, "add-directory", Some(BranchParams(name)), None);
    }

    method UpdateFile(data: Option<Form>) returns (s: Settled<Json>)
      modifies net
      ensures net.sent == old(net.sent) + [EndpointRequest(config, Endpoint.UpdateFile, None, data)]
      ensures s == JsonCall(config, net.server, parse, old(net.sent), Endpoint.UpdateFile, None, data)
    {
      s := PromiseJson(POST, "update-file", None, data);
    }

    method DeleteFile(data: Option<Form>) returns (s: Settled<Json>)
      modifies net
      ensures net.sent == old(net.sent) + [EndpointRequest(config, Endpoint.DeleteFile, None, data)]
      ensures s == JsonCall(config, net.server, parse, old(net.sent), Endpoint.DeleteFile, None, data)
    {
      s := PromiseJson(POST, "delete-file", None, data);
    }

    method UploadFile(data: Option<Form>) returns (s: Settled<Json>)
      modifies net
      ensures net.sent == old(net.sent) + [EndpointRequest(config, Endpoint.UploadFile, None, data)]
      ensures s == JsonCall(config, net.server, parse, old(net.sent), Endpoint.UploadFile, None, data)
    {
      s := PromiseJson(POST, "upload-translation", None, data);
    }

    method TranslationStatus(data: Option<Form>) returns (s: Settled<Json>)
      modifies net
      ensures net.sent == old(net.sent) + [EndpointRequest(config, Endpoint.TranslationStatus, None, data)]
      ensures s == JsonCall(config, net.server, parse, old(net.sent), Endpoint.TranslationStatus, None, data)
    {
      s := PromiseJson(POST, "status", None, data);
    }

    method LanguageStatus(data: Option<Form>) returns (s: Settled<Json>)
      modifies net
      ensures net.sent == old(net.sent) + [EndpointRequest(config, Endpoint.LanguageStatus, None, data)]
      ensures s == JsonCall(config, net.server, parse, old(net.sent), Endpoint.LanguageStatus, None, data)
    {
      s := PromiseJson(POST, "language-status", None, data);
    }

    method Info() returns (s: Settled<Json>)
      modifies net
      ensures net.sent == old(net.sent) + [EndpointRequest(config, Endpoint.Info, None, None)]
      ensures s == JsonCall(config, net.server, parse, old(net.sent), Endpoint.Info, None, None)
    {
      s := PromiseJson(POST, "info", None, None);
    }

    method ExportFile(data: Option<seq<Pair>>) returns (s: Settled<Bytes>)
      modifies net
      ensures net.sent == old(net.sent) + [EndpointRequest(config, Endpoint.ExportFile, data, None)]
      ensures s == StreamCall(config, net.server, parse, old(net.sent), Endpoint.ExportFile, data, None)
    {
      s := PromiseStream(GET, "export-file", data, None);
    }

    method ExportTranslations(data: Option<seq<Pair>>) returns (s: Settled<Bytes>)
      modifies net
      ensures net.sent == old(net.sent) + [EndpointRequest(config, Endpoint.ExportTranslations, data, None)]
      ensures s == StreamCall(config, net.server, parse, old(net.sent), Endpoint.ExportTranslations, data, None)
    {
      s := PromiseStream(GET, "export", data, None);
    }

    method PreTranslate(data: Option<Form>) returns (s: Settled<Bytes>)
      modifies net
      ensures net.sent == old(net.sent) + [EndpointRequest(config, Endpoint.PreTranslate, None, data)]
      ensures s == StreamCall(config, net.server, parse, old(net.sent), Endpoint.PreTranslate, None, data)
    {
      s := PromiseStream(POST, "pre-translate", None, data);
    }

    // ---- the two multi-step operations

    /** `downloadTranslations(pckg, branch)` without a callback. */
    method DownloadTranslations(pckg: Option<string>, branch: Option<string>) returns (s: Settled<Bytes>)
      modifies net
      ensures var run := DownloadRun(config, net.server, parse, old(net.sent), pckg, branch);
        net.sent == old(net.sent) + run.sent && s == run.outcome
    {
      var packageName := PackageName(pckg);
      if !Given(branch) {
        s := PromiseStream(GET, "download/" + packageName + ".zip", None, None);
        return;
      }
      var exported := ExportTranslations(Some([("branch", branch.value)]));
      if !exported.Resolved? {
        s := exported;
        return;
      }
      s := PromiseStream(GET, "download/" + packageName + ".zip", Some([("branch", branch.value)]), None);
    }

    /** `createOrUpdateVersionedFile(branchName, fileName, path, pattern)`. */
    method CreateOrUpdateVersionedFile(branchName: string, fileName: string, path: string, pattern: string)
      returns (s: Settled<Json>)
      modifies net
      ensures var run := VersionedFileRun(config, net.server, parse, old(net.sent), branchName, fileName, path, pattern);
        net.sent == old(net.sent) + run.sent && s == run.outcome
    {
      var info := Info();
      if !info.Resolved? {
        s := info;
        return;
      }
      var branch := InfoTree.GetInfoFile(info.value, branchName, "branch");
      if branch.Throws? {
        s := Rejected(TypeError);
        return;
      }
      var formData := Some(VersionedForm(branchName, fileName, path, pattern));
      if branch.Found? && Truthy(branch.node) {
        var file := InfoTree.GetInfoFileDefault(branch.node, fileName);
        if file.Throws? {
          s := Rejected(TypeError);
        } else if file.Found? && Truthy(file.node) {
          s := UpdateFile(formData);
        } else {
          s := AddFile(formData);
        }
        return;
      }
      var created := CreateBranch(branchName);
      if !created.Resolved? {
        s := created;
        return;
      }
      s := AddFile(formData);
    }
  }
}
