/** What the two multi-step methods, `createOrUpdateVersionedFile` and
    `downloadTranslations`, send and how they end, as functions of the remote
    end's answers. */
module Orchestration {
  import opened Wrappers
  import opened Json
  import opened Query
  import opened Configuration
  import opened Http
  import opened InfoTree
  import opened Endpoints

  /** The requests an operation sends, in order, and how its promise ends. */
  datatype Run<+T> = Run(sent: seq<Request>, outcome: Settled<T>)

  /** One `promiseJSON` endpoint call after the requests `hist`. */
  function JsonCall(cfg: Config, server: Server, parse: Decoder, hist: seq<Request>,
                    e: Endpoint, params: Option<seq<Pair>>, form: Option<Form>): Settled<Json> {
    ClassifyJson(server(hist, EndpointRequest(cfg, e, params, form)), parse)
  }

  /** One `promiseStream` endpoint call after the requests `hist`. */
  function StreamCall(cfg: Config, server: Server, parse: Decoder, hist: seq<Request>,
                      e: Endpoint, params: Option<seq<Pair>>, form: Option<Form>): Settled<Bytes> {
    ClassifyStream(server(hist, EndpointRequest(cfg, e, params, form)), parse)
  }

  /** The caller parameters `createBranch(name)` passes. */
  function BranchParams(name: string): seq<Pair> {
    [("name", name), ("is_branch", "1")]
  }

  // ---- the endpoint a recorded request went to

  /** The endpoint of a request sent by the client configured with `cfg`. */
  function EndpointOf(cfg: Config, req: Request): Option<Endpoint> {
    var root := ProjectRoot(cfg);
    var a := req.url.address;
    if |root| <= |a| && a[..|root|] == root then EndpointOfPath(a[|root|..]) else None
  }

  /** The endpoints of a sequence of requests, in order. */
  function Calls(cfg: Config, sent: seq<Request>): seq<Option<Endpoint>> {
    seq(|sent|, i requires 0 <= i < |sent| => EndpointOf(cfg, sent[i]))
  }

  lemma EndpointOfRequest(cfg: Config, e: Endpoint, params: Option<seq<Pair>>, form: Option<Form>)
    ensures EndpointOf(cfg, EndpointRequest(cfg, e, params, form)) == Some(e)
  {
    SplitAfterPrefix(ProjectRoot(cfg), PathOf(e));
    PathIdentifiesEndpoint(e);
  }

  lemma SplitAfterPrefix(root: string, path: string)
    ensures |root| <= |root + path|
    ensures (root + path)[..|root|] == root && (root + path)[|root|..] == path
  {
  }

  /** Whether the promise of the request `req` resolves on `reply`. */
  predicate Succeeds(cfg: Config, req: Request, reply: Reply, parse: Decoder) {
    match EndpointOf(cfg, req)
    case Some(e) =>
      if Streams(e) then ClassifyStream(reply, parse).Resolved? else ClassifyJson(reply, parse).Resolved?
    case None => false
  }

  /** Each request but the last is sent only after the one before it succeeded. */
  ghost predicate EachAwaitsPrevious(cfg: Config, server: Server, parse: Decoder, hist: seq<Request>, sent: seq<Request>) {
    forall i | 0 <= i < |sent| - 1 :: Succeeds(cfg, sent[i], server(hist + sent[..i], sent[i]), parse)
  }

  // ---- createOrUpdateVersionedFile

  /** The form both the add and the update send:
      `{files[<fileName>]: <stream of path>, export_patterns[<fileName>]: pattern, branch: branchName}`. */
  function VersionedForm(branchName: string, fileName: string, path: string, pattern: string): Form {
    [ ("files[" + fileName + "]", FileStream(path)),
      ("export_patterns[" + fileName + "]", Text(pattern)),
      ("branch", Text(branchName)) ]
  }

  /** What the callback on the `info` result decides. */
  datatype Plan = Abort | Update | Add | CreateThenAdd

  /** `getInfoFile(info, branchName, 'branch')`; a truthy branch is searched for the
      file with the default type `file`; each lookup may throw. */
  function Decide(info: Json, branchName: string, fileName: string): Plan {
    var branch := GetInfoFile(info, branchName, "branch");
    if branch.Throws? then Abort
    else if branch.Found? && Truthy(branch.node) then
      var file := GetInfoFileDefault(branch.node, fileName);
      if file.Throws? then Abort
      else if file.Found? && Truthy(file.node) then Update
      else Add
    else CreateThenAdd
  }

  /** `createOrUpdateVersionedFile(branchName, fileName, path, pattern)` after the requests `hist`. */
  function VersionedFileRun(cfg: Config, server: Server, parse: Decoder, hist: seq<Request>,
                            branchName: string, fileName: string, path: string, pattern: string): Run<Json> {
    var info := EndpointRequest(cfg, Info, None, None);
    var infoResult := JsonCall(cfg, server, parse, hist, Info, None, None);
    var form := Some(VersionedForm(branchName, fileName, path, pattern));
    var afterInfo := hist + [info];
    if !infoResult.Resolved? then Run([info], infoResult)
    else
      match Decide(infoResult.value, branchName, fileName)
      case Abort => Run([info], Rejected(TypeError))
      case Update =>
        Run([info, EndpointRequest(cfg, UpdateFile, None, form)],
            JsonCall(cfg, server, parse, afterInfo, UpdateFile, None, form))
      case Add =>
        Run([info, EndpointRequest(cfg, AddFile, None, form)],
            JsonCall(cfg, server, parse, afterInfo, AddFile, None, form))
      case CreateThenAdd =>
        var create := EndpointRequest(cfg, CreateBranch, Some(BranchParams(branchName)), None);
        var created := JsonCall(cfg, server, parse, afterInfo, CreateBranch, Some(BranchParams(branchName)), None);
        if !created.Resolved? then Run([info, create], created)
        else
          Run([info, create, EndpointRequest(cfg, AddFile, None, form)],
              JsonCall(cfg, server, parse, afterInfo + [create], AddFile, None, form))
  }

  /** The form has exactly three distinct keys, and `branch` is the branch name. */
  lemma VersionedFormKeys(branchName: string, fileName: string, path: string, pattern: string)
    ensures var f := VersionedForm(branchName, fileName, path, pattern);
      |f| == 3 && f[0].0 != f[1].0 && f[0].0 != f[2].0 && f[1].0 != f[2].0
      && f[2] == ("branch", Text(branchName))
  {
    var f := VersionedForm(branchName, fileName, path, pattern);
    assert f[0].0[0] == 'f' && f[1].0[0] == 'e' && f[2].0[0] == 'b';
  }

  /** The decision: create the branch exactly when `getInfoFile` finds no branch;
      update exactly when it finds the branch and the file in it; add otherwise. */
  lemma DecideCases(info: Json, branchName: string, fileName: string)
    ensures var branch := GetInfoFile(info, branchName, "branch");
      var p := Decide(info, branchName, fileName);
      && (p == CreateThenAdd <==> branch.NoFiles? || branch.NotFound?)
      && (p == Update <==> branch.Found? && GetInfoFileDefault(branch.node, fileName).Found?)
      && (p == Add <==> branch.Found? && (GetInfoFileDefault(branch.node, fileName).NoFiles?
                                           || GetInfoFileDefault(branch.node, fileName).NotFound?))
      && (p == Abort <==> branch.Throws? || (branch.Found? && GetInfoFileDefault(branch.node, fileName).Throws?))
  {
    var branch := GetInfoFile(info, branchName, "branch");
    if branch.Found? {
      FoundIsFirstMatch(info, branchName, "branch");
      var file := GetInfoFileDefault(branch.node, fileName);
      if file.Found? {
        FoundIsFirstMatch(branch.node, fileName, DEFAULT_NODE_TYPE);
      }
    }
  }

  /** `info` comes first; then, by the decision on its result, `updateFile`,
      `addFile`, or `createBranch` followed by `addFile` exactly when the branch
      creation resolved.
      A rejection, or a TypeError in the decision, stops the sequence. */
  lemma {:induction false} VersionedFileCalls(cfg: Config, server: Server, parse: Decoder, hist: seq<Request>,
                                             branchName: string, fileName: string, path: string, pattern: string)
    ensures var run := VersionedFileRun(cfg, server, parse, hist, branchName, fileName, path, pattern);
      var infoResult := JsonCall(cfg, server, parse, hist, Info, None, None);
      var t := Calls(cfg, run.sent);
      && 1 <= |t| <= 3 && t[0] == Some(Info)
      && (!infoResult.Resolved? ==> t == [Some(Info)] && run.outcome == infoResult)
      && (infoResult.Resolved? ==>
            match Decide(infoResult.value, branchName, fileName)
            case Abort => t == [Some(Info)] && run.outcome == Rejected(TypeError)
            case Update => t == [Some(Info), Some(UpdateFile)]
            case Add => t == [Some(Info), Some(AddFile)]
            case CreateThenAdd =>
              var created := JsonCall(cfg, server, parse, hist + [run.sent[0]], CreateBranch,
                                      Some(BranchParams(branchName)), None);
              && (created.Resolved? <==> t == [Some(Info), Some(CreateBranch), Some(AddFile)])
              && (!created.Resolved? ==> t == [Some(Info), Some(CreateBranch)] && run.outcome == created))
  {
    var run := VersionedFileRun(cfg, server, parse, hist, branchName, fileName, path, pattern);
    var infoResult := JsonCall(cfg, server, parse, hist, Info, None, None);
    var form := Some(VersionedForm(branchName, fileName, path, pattern));
    var info := EndpointRequest(cfg, Info, None, None);
    EndpointOfRequest(cfg, Info, None, None);
    if !infoResult.Resolved? {
      CallsOne(cfg, info);
    } else {
      match Decide(infoResult.value, branchName, fileName)
      case Abort =>
        CallsOne(cfg, info);
      case Update =>
        var update := EndpointRequest(cfg, UpdateFile, None, form);
        EndpointOfRequest(cfg, UpdateFile, None, form);
        assert run.sent == [info, update];
        CallsTwo(cfg, info, update);
      case Add =>
        var add := EndpointRequest(cfg, AddFile, None, form);
        EndpointOfRequest(cfg, AddFile, None, form);
        assert run.sent == [info, add];
        CallsTwo(cfg, info, add);
      case CreateThenAdd =>
        var create := EndpointRequest(cfg, CreateBranch, Some(BranchParams(branchName)), None);
        EndpointOfRequest(cfg, CreateBranch, Some(BranchParams(branchName)), None);
        CallsTwo(cfg, info, create);
        if |run.sent| == 3 {
          var add := EndpointRequest(cfg, AddFile, None, form);
          EndpointOfRequest(cfg, AddFile, None, form);
          assert run.sent == [info, create, add];
          CallsThree(cfg, info, create, add);
        }
    }
  }

  /** The exact requests, verb, address, query and form included: `info` with no
      caller query and no form; then `POST update-file` or `POST add-file` with no
      caller query and the versioned form, or `POST add-directory` with
      `{name, is_branch: 1}` and no form, followed by `POST add-file` once the
      branch creation resolved. */
  lemma VersionedFileRequests(cfg: Config, server: Server, parse: Decoder, hist: seq<Request>,
                                                branchName: string, fileName: string, path: string, pattern: string)
    ensures var run := VersionedFileRun(cfg, server, parse, hist, branchName, fileName, path, pattern);
      var info := EndpointRequest(cfg, Info, None, None);
      var infoResult := JsonCall(cfg, server, parse, hist, Info, None, None);
      var form := Some(VersionedForm(branchName, fileName, path, pattern));
      var create := EndpointRequest(cfg, CreateBranch, Some(BranchParams(branchName)), None);
      && (!infoResult.Resolved? ==> run.sent == [info])
      && (infoResult.Resolved? ==>
            match Decide(infoResult.value, branchName, fileName)
            case Abort => run.sent == [info]
            case Update => run.sent == [info, EndpointRequest(cfg, UpdateFile, None, form)]
            case Add => run.sent == [info, EndpointRequest(cfg, AddFile, None, form)]
            case CreateThenAdd =>
              var created := JsonCall(cfg, server, parse, hist + [info], CreateBranch,
                                      Some(BranchParams(branchName)), None);
              && (created.Resolved? ==> run.sent == [info, create, EndpointRequest(cfg, AddFile, None, form)])
              && (!created.Resolved? ==> run.sent == [info, create]))
  {
  }

  lemma CallsOne(cfg: Config, a: Request)
    ensures Calls(cfg, [a]) == [EndpointOf(cfg, a)]
  {
  }

  lemma CallsTwo(cfg: Config, a: Request, b: Request)
    ensures Calls(cfg, [a, b]) == [EndpointOf(cfg, a), EndpointOf(cfg, b)]
  {
  }

  lemma CallsThree(cfg: Config, a: Request, b: Request, c: Request)
    ensures Calls(cfg, [a, b, c]) == [EndpointOf(cfg, a), EndpointOf(cfg, b), EndpointOf(cfg, c)]
  {
  }

  /** `updateFile` is never issued when `getInfoFile` finds no branch, and
      `createBranch` never when it finds one. */
  lemma {:induction false} VersionedFileExclusions(cfg: Config, server: Server, parse: Decoder, hist: seq<Request>,
                                                  branchName: string, fileName: string, path: string, pattern: string)
    ensures var run := VersionedFileRun(cfg, server, parse, hist, branchName, fileName, path, pattern);
      var infoResult := JsonCall(cfg, server, parse, hist, Info, None, None);
      var t := Calls(cfg, run.sent);
      infoResult.Resolved? ==>
        (!GetInfoFile(infoResult.value, branchName, "branch").Found? ==> Some(UpdateFile) !in t)
        && (GetInfoFile(infoResult.value, branchName, "branch").Found? ==> Some(CreateBranch) !in t)
  {
    VersionedFileCalls(cfg, server, parse, hist, branchName, fileName, path, pattern);
    var infoResult := JsonCall(cfg, server, parse, hist, Info, None, None);
    if infoResult.Resolved? {
      DecideCases(infoResult.value, branchName, fileName);
    }
  }

  /** Every request after `info` is either the branch creation, with query
      `{name, is_branch: 1}` and no form, or carries the versioned form. */
  lemma {:induction false} VersionedFileForms(cfg: Config, server: Server, parse: Decoder, hist: seq<Request>,
                                             branchName: string, fileName: string, path: string, pattern: string)
    ensures var run := VersionedFileRun(cfg, server, parse, hist, branchName, fileName, path, pattern);
      && 1 <= |run.sent| && run.sent[0] == EndpointRequest(cfg, Info, None, None)
      && forall i | 1 <= i < |run.sent| ::
           run.sent[i] == EndpointRequest(cfg, CreateBranch, Some(BranchParams(branchName)), None)
           || run.sent[i].form == Some(VersionedForm(branchName, fileName, path, pattern))
  {
  }

  /** Each request waits for the one before it to succeed. The operation ends in a
      TypeError exactly when a `getInfoFile` lookup throws, and otherwise as its
      last request does. */
  lemma {:induction false} VersionedFileSequencing(cfg: Config, server: Server, parse: Decoder, hist: seq<Request>,
                                                  branchName: string, fileName: string, path: string, pattern: string)
    ensures var run := VersionedFileRun(cfg, server, parse, hist, branchName, fileName, path, pattern);
      && 1 <= |run.sent|
      && EachAwaitsPrevious(cfg, server, parse, hist, run.sent)
      && var infoResult := JsonCall(cfg, server, parse, hist, Info, None, None);
         var aborts := infoResult.Resolved? && Decide(infoResult.value, branchName, fileName) == Abort;
         && (run.outcome == Rejected(TypeError) <==> aborts)
         && (!aborts ==>
               run.outcome == ClassifyJson(server(hist + run.sent[..|run.sent| - 1], run.sent[|run.sent| - 1]), parse))
  {
    var run := VersionedFileRun(cfg, server, parse, hist, branchName, fileName, path, pattern);
    var infoResult := JsonCall(cfg, server, parse, hist, Info, None, None);
    var form := Some(VersionedForm(branchName, fileName, path, pattern));
    var info := EndpointRequest(cfg, Info, None, None);
    EndpointOfRequest(cfg, Info, None, None);
    if !infoResult.Resolved? {
      assert run.sent == [info];
      assert hist + run.sent[..0] == hist;
    } else {
      match Decide(infoResult.value, branchName, fileName)
      case Abort =>
      case Update =>
        assert run.sent == [info, EndpointRequest(cfg, UpdateFile, None, form)];
        AwaitsTwo(cfg, server, parse, hist, run.sent);
      case Add =>
        assert run.sent == [info, EndpointRequest(cfg, AddFile, None, form)];
        AwaitsTwo(cfg, server, parse, hist, run.sent);
      case CreateThenAdd =>
        var create := EndpointRequest(cfg, CreateBranch, Some(BranchParams(branchName)), None);
        EndpointOfRequest(cfg, CreateBranch, Some(BranchParams(branchName)), None);
        if |run.sent| == 3 {
          assert run.sent == [info, create, EndpointRequest(cfg, AddFile, None, form)];
          AwaitsThree(cfg, server, parse, hist, run.sent);
        } else {
          assert run.sent == [info, create];
          AwaitsTwo(cfg, server, parse, hist, run.sent);
        }
    }
  }

  lemma AwaitsTwo(cfg: Config, server: Server, parse: Decoder, hist: seq<Request>, sent: seq<Request>)
    requires |sent| == 2
    requires Succeeds(cfg, sent[0], server(hist, sent[0]), parse)
    ensures EachAwaitsPrevious(cfg, server, parse, hist, sent)
    ensures hist + sent[..1] == hist + [sent[0]]
  {
    assert hist + sent[..0] == hist;
  }

  lemma AwaitsThree(cfg: Config, server: Server, parse: Decoder, hist: seq<Request>, sent: seq<Request>)
    requires |sent| == 3
    requires Succeeds(cfg, sent[0], server(hist, sent[0]), parse)
    requires Succeeds(cfg, sent[1], server(hist + [sent[0]], sent[1]), parse)
    ensures EachAwaitsPrevious(cfg, server, parse, hist, sent)
    ensures hist + sent[..2] == hist + [sent[0]] + [sent[1]]
  {
    assert hist + sent[..0] == hist;
    assert sent[..1] == [sent[0]];
    assert sent[..2] == [sent[0], sent[1]];
  }

  // ---- downloadTranslations

  /** `pckg = 'all'`: the default applies when the argument is `undefined`. */
  function PackageName(pckg: Option<string>): string {
    if pckg.Some? then pckg.value else "all"
  }

  /** `downloadTranslations(pckg, branch)` without a callback, after the requests `hist`. */
  function DownloadRun(cfg: Config, server: Server, parse: Decoder, hist: seq<Request>,
                       pckg: Option<string>, branch: Option<string>): Run<Bytes> {
    var download := Download(PackageName(pckg));
    if !Given(branch) then
      Run([EndpointRequest(cfg, download, None, None)], StreamCall(cfg, server, parse, hist, download, None, None))
    else
      var scope := Some([("branch", branch.value)]);
      var exportRequest := EndpointRequest(cfg, ExportTranslations, scope, None);
      var exported := StreamCall(cfg, server, parse, hist, ExportTranslations, scope, None);
      if !exported.Resolved? then Run([exportRequest], exported)
      else
        Run([exportRequest, EndpointRequest(cfg, download, scope, None)],
            StreamCall(cfg, server, parse, hist + [exportRequest], download, scope, None))
  }

  /** Without a branch: one GET of `download/<pckg>.zip` with only the reserved
      query pairs. With a branch: the export of that branch comes first, and the
      download, scoped to the branch, follows only once the export resolved;
      otherwise the export's rejection is the result. Whenever the download is
      sent, the operation ends as the download does. */
  lemma {:induction false} DownloadCalls(cfg: Config, server: Server, parse: Decoder, hist: seq<Request>,
                                        pckg: Option<string>, branch: Option<string>)
    ensures var run := DownloadRun(cfg, server, parse, hist, pckg, branch);
      var t := Calls(cfg, run.sent);
      var download := Download(PackageName(pckg));
      && (!Given(branch) ==>
            t == [Some(download)] && run.sent[0].verb == GET
            && run.sent[0].url.query == ReservedPairs(cfg.credentials)
            && run.outcome == StreamCall(cfg, server, parse, hist, download, None, None))
      && (Given(branch) ==>
            var scope := Some([("branch", branch.value)]);
            var exported := StreamCall(cfg, server, parse, hist, ExportTranslations, scope, None);
            && t[0] == Some(ExportTranslations)
            && run.sent[0].url.query == EndpointQuery(cfg.credentials, scope)
            && (exported.Resolved? ==>
                  t == [Some(ExportTranslations), Some(download)]
                  && run.sent[1] == EndpointRequest(cfg, download, scope, None)
                  && run.outcome == StreamCall(cfg, server, parse, hist + [run.sent[0]], download, scope, None))
            && (!exported.Resolved? ==> t == [Some(ExportTranslations)] && run.outcome == exported))
      && EachAwaitsPrevious(cfg, server, parse, hist, run.sent)
  {
    var run := DownloadRun(cfg, server, parse, hist, pckg, branch);
    var download := Download(PackageName(pckg));
    if !Given(branch) {
      var req := EndpointRequest(cfg, download, None, None);
      EndpointOfRequest(cfg, download, None, None);
      QueryWithoutParams(cfg.credentials, None);
      CallsOne(cfg, req);
    } else {
      var scope := Some([("branch", branch.value)]);
      var exportRequest := EndpointRequest(cfg, ExportTranslations, scope, None);
      var exported := StreamCall(cfg, server, parse, hist, ExportTranslations, scope, None);
      EndpointOfRequest(cfg, ExportTranslations, scope, None);
      if exported.Resolved? {
        var req := EndpointRequest(cfg, download, scope, None);
        EndpointOfRequest(cfg, download, scope, None);
        assert run.sent == [exportRequest, req];
        CallsTwo(cfg, exportRequest, req);
        AwaitsTwo(cfg, server, parse, hist, run.sent);
      } else {
        CallsOne(cfg, exportRequest);
      }
    }
  }
}
