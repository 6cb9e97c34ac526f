# crowdin-client in Dafny

A model of the `Crowdin` REST client for the Crowdin localization platform. The
repository has two copies of one class. `lib/client.js` authenticates with an
account key and a login. `src/client.js` authenticates with a single API key.
The model is one client, `Client.Crowdin`, parameterised by
`Configuration.Auth` (`AccountKeyAndLogin` for the first copy, `ApiKey` for the
second).

What the model covers:

- **Options check** (`Configuration.Validate`): the constructor's checks, in
  source order, each with its own error and message.
- **Endpoint URL** (`Client.Crowdin.GetEndpointUrl`): the URL is built in place
  on a `Query.SearchParams` object, with `set()` as section 6.2 of the WHATWG URL
  Standard defines it. The proof matches it against the function
  `Endpoints.EndpointUrl`. Lemmas then fix the order of the query names, their
  uniqueness and every value.
- **Transport** (`Http.Transport`): the HTTP library and the remote end. The
  remote end is a function from (earlier requests, request) to a reply.
  `sent` records every request in order.
- **Response classification** (`Http.ClassifyJson`, `Http.ClassifyStream`): the
  callbacks of `promiseJSON` and `promiseStream`. JSON decoding is an abstract
  partial function (`Http.Decoder`).
- **Info-tree lookup** (`InfoTree.GetInfoFile`): `getInfoFile` over parsed JSON
  values. This includes the TypeErrors that `files.find` can throw.
- **Endpoint table** (`Endpoints`): each client method issues exactly one
  request.
- **Orchestration**: `createOrUpdateVersionedFile` and `downloadTranslations`
  are methods that append to the transport's record. The functions
  `Orchestration.VersionedFileRun` and `Orchestration.DownloadRun` specify
  them, and the lemmas about the sequencing are stated over those functions.

The two copies run the same code apart from authentication and the wording of
the missing-project message ("and contain" at lib/client.js:31, "and contained"
at src/client.js:17; `Configuration.Requirement` keeps both). Where a row cites
one copy for shared behaviour, the other copy has the same code:
lib/client.js 19-25, 53-100, 102-155 and 157-172 correspond to src/client.js
5-11, 38-85, 87-142 and 144-159. The layout differs in places: the single line
lib/client.js:154 is written over src/client.js:139-141.

Two behaviours of the code are easy to miss, and the model keeps both:

- Caller parameters overwrite `json`, `account-key`, `login` and `key` in place.
  `getEndpointUrl` applies them with `set()` after the reserved pairs
  (lib/client.js:48, src/client.js:33), so a caller key replaces the reserved
  value at the reserved pair's position (`Endpoints.QueryValues`,
  `Endpoints.LoginCallerOverridesInPlace`).
- `promiseJSON` on a 200 reply whose body does not parse never settles. The
  unguarded `JSON.parse` (lib/client.js:70, src/client.js:55) throws inside the
  HTTP library's callback, so neither `resolve` nor `reject` is called
  (`Http.Settled.Unsettled`).

## Model

| member | source | states |
|---|---|---|
| `Configuration.Validate` | lib/client.js:28-39 | Construction fails exactly when a required key (project, then the credentials of the scheme) is falsy. The error names the first falsy key in check order. A credential error carries the options' project. On success the configuration holds the given project and credentials. |
| `Configuration.AccountKeyAndLoginIgnoresKey` | lib/client.js:30-38 | The account-key checks never read `key`: changing it never changes the outcome. |
| `Configuration.LoginCheckedAfterAccountKey` | lib/client.js:33-38 | With a project but no account key, construction fails on `accountKey` whatever the login is. The login is checked only after the account key passed. |
| `Configuration.ApiKeyIgnoresLogin` | src/client.js:16-24 | The API-key checks never read `accountKey` or `login`: changing them never changes the outcome. |
| `Configuration.ProjectCheckedFirst` | src/client.js:16-18 | In both copies, a falsy project fails with the project error before any credential is looked at. |
| `Configuration.Message` | lib/client.js:31-37 | Each message starts by quoting the missing key. A credential message ends with the settings page `https://crowdin.com/project/<project>/settings#api` of the project it names. The texts match lib/client.js:31/34/37 and src/client.js:17/21-22, including the two copies' different wording (`contain` and `contained`). |
| `Configuration.MessageNamesKeyAndSettings` | lib/client.js:31-37 | Each error message starts by quoting the missing key. Each credential message ends with `https://crowdin.com/project/<project>/settings#api`. |
| `Client.Crowdin.New` | src/client.js:14-25 | `new Crowdin(options)` throws the error of the first failed check. Otherwise it yields a fresh client holding the checked configuration. |
| `Client.Crowdin.constructor` | lib/client.js:29 | The client stores the configuration it is given, together with its transport and decoder. The stored configuration is a snapshot; see "## Left out". |
| `InfoTree.Find` | lib/client.js:22 | `files.find`: the result is the first item whose `node_type` and `name` match, preceded only by non-null non-matching items. It is `undefined` exactly when every item is non-null and none matches. It throws when a `null` item comes before any match. |
| `InfoTree.FirstMatchIsFound` | src/client.js:8 | Conversely, the first match (with only non-null non-matching items before it) is what `find` returns. |
| `InfoTree.NullBeforeMatchThrows` | lib/client.js:22 | Conversely, a `null` item reached before any match makes `find` throw. |
| `InfoTree.GetInfoFileDefault` | lib/client.js:19 | Called without a type (as at lib/client.js:167), `getInfoFile` looks for `type = 'file'`: whatever it finds has `node_type` `file` and the requested name, and it returns `null` exactly when there is no truthy `files`. |
| `InfoTree.GetInfoFile` | lib/client.js:19-25 | `getInfoFile` returns `null` exactly when the source is falsy or its `files` is falsy. It throws when `files` is truthy but not an array. Otherwise it returns the `find` result. |
| `InfoTree.FoundIsFirstMatch` | src/client.js:5-11 | A found node is an item of the source's `files` array with the requested type and name, and nothing before it matches. It is an object, so it is truthy. |
| `Query.SearchParams.Set` | lib/client.js:44-48 | `searchParams.set(name, value)` updates the list in place to `SetParam` of the old list. |
| `Query.SetAppendsNewName` | lib/client.js:48 | Setting a name that is not yet present appends the pair at the end. |
| `Query.SetReplacesInPlace` | src/client.js:33 | In a list with unique names, setting a present name replaces its value in that pair's own position. |
| `Query.SetThenGet` | lib/client.js:44-48 | After `set`, that name reads back the new value. Every other name reads back what it read before. |
| `Query.SetNames` | src/client.js:30-33 | With unique names, `set` keeps the name sequence or appends the new name. Names stay unique. |
| `Query.SetAllNames` | lib/client.js:47-49 | A run of `set` calls keeps existing names in their positions. It appends new names in order of first occurrence, and names stay unique. |
| `Query.SetAllGet` | src/client.js:32-34 | After a run of `set` calls, a name that was set reads back its last value. Every other name keeps its old value. |
| `Client.Crowdin.GetEndpointUrl` | lib/client.js:41-51 | The URL built in place (json, then the credentials, then each caller parameter through `set`) equals `EndpointUrl`: the address `https://api.crowdin.com/api/project/<project>/<path>` with the query of `set` semantics. |
| `Endpoints.ReservedBySteps` | lib/client.js:44-46 | The separate `set` calls for `json`, `account-key` and `login` (`json` and `key` in src/client.js:30-31) on the fresh URL's empty query leave exactly the reserved pairs, in that order. Running them as one `set` sequence gives the same list. |
| `Endpoints.QueryNames` | lib/client.js:44-49 | The query names are the reserved names in fixed order, followed by the caller's other names in order of first occurrence. No name occurs twice. |
| `Endpoints.QueryValues` | src/client.js:30-34 | A name the caller passes carries the caller's last value, even a reserved name. Any other name keeps its reserved value or is absent. |
| `Endpoints.LoginQueryDefault` | lib/client.js:43-46 | With no caller parameters the URL is the project address with query `json=1`, `account-key=<accountKey>`, `login=<login>`, in that order. |
| `Endpoints.KeyQueryDefault` | src/client.js:29-31 | With no caller parameters the URL is the project address with query `json=1`, `key=<key>`. |
| `Endpoints.LoginCallerOverridesInPlace` | lib/client.js:47-49 | A caller parameter named `json`, `account-key` or `login` replaces the reserved value at that pair's original position. |
| `Endpoints.KeyCallerOverridesInPlace` | src/client.js:32-34 | A caller parameter named `json` or `key` replaces the reserved value at that pair's original position. |
| `Endpoints.QueryWithoutParams` | src/client.js:27-31 | Without caller parameters (absent or empty) the query is exactly the reserved pairs. |
| `Endpoints.PathIdentifiesEndpoint` | lib/client.js:102-155 | No two endpoints share a path, so the path of a recorded request names the method that issued it. |
| `Http.Transport.Send` | src/client.js:39-44 | One request is appended to the record. The reply is the remote end's answer given the earlier requests. |
| `Client.Crowdin.Request` | lib/client.js:53-60 | `request(...)` sends one request to the endpoint URL, with the form data unchanged. |
| `Client.Crowdin.PromiseJson` | lib/client.js:62-80 | `promiseJSON` sends one request and settles as `ClassifyJson` of the reply. |
| `Client.Crowdin.PromiseStream` | lib/client.js:82-100 | `promiseStream` sends one request and settles as `ClassifyStream` of the reply. |
| `Http.ClassifyJson` | lib/client.js:64-78 | The `promiseJSON` callback rejects exactly on a transport error or a status other than 200. The reason is the one `Explains` gives for that reply. On 200 it resolves with the parsed body, and it never settles exactly when the body does not parse. |
| `Http.ClassifyStream` | lib/client.js:84-98 | The `promiseStream` callback rejects in the same cases with a reason `Explains` gives. On 200 it resolves with the raw body. It always settles. |
| `Http.ClassifiersAgreeOnRejection` | lib/client.js:64-77 | Both callbacks reject in the same cases (a transport error or a status other than 200) and with the same reason. |
| `Http.ExplainsDetermines` | src/client.js:70-81 | A reply admits at most one rejection reason: a transport error passed on unchanged, the parsed body of a non-200 reply, or `BadStatus(status)` when that body does not parse. |
| `Http.BadStatusMessageCarriesStatus` | lib/client.js:76 | The `Bad http status code: <status>` message starts with the fixed prefix. The status code can be read back from its digits. |
| `Http.DecimalRoundTrip` | src/client.js:81 | The decimal rendering of a status code reads back as the same number. |
| `Client.Crowdin.AddFile` | lib/client.js:102-104 | One POST to `add-file` with no caller query and the given form. |
| `Client.Crowdin.CreateBranch` | lib/client.js:106-111 | One POST to `add-directory` with query `{name, is_branch: 1}` and no form. |
| `Client.Crowdin.UpdateFile` | lib/client.js:113-115 | One POST to `update-file` with the given form. |
| `Client.Crowdin.DeleteFile` | lib/client.js:117-119 | One POST to `delete-file` with the given form. |
| `Client.Crowdin.UploadFile` | lib/client.js:121-123 | One POST to `upload-translation` with the given form. |
| `Client.Crowdin.TranslationStatus` | lib/client.js:125-127 | One POST to `status` with the given form. |
| `Client.Crowdin.LanguageStatus` | lib/client.js:129-131 | One POST to `language-status` with the given form. |
| `Client.Crowdin.Info` | lib/client.js:133-135 | One POST to `info` with neither caller query nor form, classified as JSON. |
| `Client.Crowdin.ExportFile` | lib/client.js:137-139 | One GET to `export-file` with the data as caller query, classified as a stream. |
| `Client.Crowdin.ExportTranslations` | lib/client.js:141-143 | One GET to `export` with the data as caller query, classified as a stream. |
| `Client.Crowdin.PreTranslate` | src/client.js:130-132 | One POST to `pre-translate` with the given form, classified as a stream. |
| `Client.Crowdin.DownloadTranslations` | lib/client.js:149-155 | The requests sent and the outcome are exactly those of `DownloadRun`. |
| `Orchestration.DownloadCalls` | src/client.js:134-142 | Without a branch: one GET of `download/<pckg>.zip` (`pckg` defaults to `all`) whose query is exactly the reserved pairs, and the operation ends as that download does. With a branch: `export` with `{branch}` comes first. If it resolves, the branch-scoped download follows and the operation ends as the download does. Otherwise the export's rejection is the result and nothing else is sent. |
| `Client.Crowdin.CreateOrUpdateVersionedFile` | lib/client.js:157-172 | The requests sent and the outcome are exactly those of `VersionedFileRun`. |
| `Orchestration.DecideCases` | lib/client.js:159-170 | `createBranch` is chosen exactly when `getInfoFile` finds no branch. `updateFile` is chosen exactly when it finds the branch and the file in it. `addFile` is chosen when the branch is found without the file. The operation aborts when a lookup throws. |
| `Orchestration.VersionedFileCalls` | src/client.js:144-159 | `info` comes first. An `info` that does not resolve (rejected or never settled) ends the operation as `info` ends. A throwing lookup ends it with a TypeError. Otherwise, by the decision, comes exactly `updateFile`, or exactly `addFile`, or `createBranch`. `createBranch` is followed by `addFile` exactly when it resolved; otherwise the operation ends as `createBranch` ends. |
| `Orchestration.VersionedFileRequests` | lib/client.js:158-170 | The whole requests, verb, address, query and form included. `info` is a POST with only the reserved pairs and no form. `updateFile` and `addFile` are POSTs with only the reserved pairs and the versioned form. `createBranch` is a POST whose query is the reserved pairs plus `name` and `is_branch=1`, with no form. Each case of the decision sends exactly that list. |
| `Orchestration.VersionedFileExclusions` | lib/client.js:166-170 | `updateFile` is never issued when the branch is absent. `createBranch` is never issued when it is present. |
| `Orchestration.VersionedFileForms` | lib/client.js:160-164 | Every request after `info` is either the branch creation or carries the versioned form. |
| `Orchestration.VersionedFileSequencing` | src/client.js:145-157 | Each request waits for the one before it to succeed. The operation ends in a TypeError exactly when a `getInfoFile` lookup throws. Otherwise it ends as its last request settles. |
| `Orchestration.VersionedFormKeys` | src/client.js:147-151 | The form has exactly three distinct keys, `files[<fileName>]`, `export_patterns[<fileName>]` and `branch`, and `branch` is the branch name. |

## Left out

- The HTTP library: the reply to a request is given by `Transport.server`. Sockets, redirects, multipart encoding and `encoding: null` are not modelled.
- `fs.createReadStream`: a file stream is the token `FileStream(path)` in the form. Opening, reading, errors and closing are not modelled.
- Promise machinery: an operation is its ordered record of requests and its final `Settled` value.
- The `callback` arguments of `exportFile`, `exportTranslations` and `downloadTranslations`. `promiseStream` ignores the callback it is passed. `downloadTranslations` with a callback hands a rejection to it. Only calls without a callback are modelled.
- UTF-8 decoding and `JSON.parse`: they are the abstract partial function `Http.Decoder`.
- URL serialisation: percent-encoding, path normalisation and the text of the final URL are not modelled. The model keeps the address string and the query pairs, assuming `project` and `path` contain no `?` or `#`.
- `Object.keys` order: caller parameters are given as a sequence in the order `Object.keys` lists them. The rule that integer-like keys come first is not modelled.
- Value types: option values, caller parameter values and `pckg` are strings, with `None` for `undefined`. The string form of a number (`is_branch: 1`, `json=1`) is written out as `"1"`. A `null` `pckg` (which becomes the text `null`) and non-string option values are not modelled.
- `Configuration.Options`: a `null` or `undefined` `options` makes the constructor throw a TypeError when it reads `options.project`; that case is not modelled. A primitive `options` (a number or a string) has no `project` property, so it gets the ordinary missing-project Error, which the model covers through `Validate`.
- `Http.ClassifyJson`: on a 200 reply that does not parse, the SyntaxError thrown by `JSON.parse` (lib/client.js:70, src/client.js:55) escapes from the callback into the HTTP library. The model keeps only the promise's state (`Unsettled`); the escaping exception and what the library does with it are not modelled.
- JSON numbers are reals, so integer and float precision are not modelled. Object key order is not modelled, because `JSON.parse` keeps the last of duplicate keys and lookups only read values.
- `Client.Crowdin.constructor`: the source keeps a reference to the caller's `options` object (lib/client.js:29, src/client.js:15). `getEndpointUrl` re-reads it on every call (lib/client.js:42, src/client.js:28), so a caller who mutates it after construction changes later URLs without any new check. The model holds an immutable checked copy: it assumes `options` is not mutated after construction, and aliasing is not modelled.
- The module-interop lines at the top of lib/client.js (1-17) are not modelled.
