/** The requests the client sends, the transport that carries them and the
    classification of what comes back (the callbacks of `promiseJSON` and
    `promiseStream`). */
module Http {
  import opened Wrappers
  import opened Json
  import opened Query

  type Bytes = seq<bv8>

  datatype Verb = GET | POST

  /** A request target: the address up to the path, and the query pairs in order. */
  datatype Url = Url(address: string, query: seq<Pair>)

  /** A multipart form field: text, or a file opened with `fs.createReadStream(path)`. */
  datatype FormValue = Text(text: string) | FileStream(path: string)

  type Form = seq<(string, FormValue)>

  /** What the client hands to the HTTP library: `{uri, method, formData, encoding: null}`.
      `form` is `None` when `formData` is `null` or `undefined`. */
  datatype Request = Request(verb: Verb, url: Url, form: Option<Form>)

  /** What the HTTP library hands back: an error, or a status code and the raw body. */
  datatype Reply = Failed(cause: string) | Response(status: nat, body: Bytes)

  /** Why a returned promise rejects. */
  datatype Rejection =
    | TransportError(cause: string) // the HTTP library's error, unchanged
    | RemoteError(body: Json)       // a non-200 status with a body that parses
    | BadStatus(status: nat)        // a non-200 status with a body that does not parse
    | TypeError                     // a TypeError thrown inside a `then` callback

  /** How a returned promise ends. `Unsettled`: an exception escaped the HTTP
      library's callback, so the promise neither resolves nor rejects. */
  datatype Settled<+T> = Resolved(value: T) | Rejected(reason: Rejection) | Unsettled

  /** `JSON.parse(buffer.toString('utf8'))`, which either yields a value or throws. */
  type Decoder = Bytes -> Option<Json>

  /** How the remote end answers a request, given every request sent before it. */
  type Server = (seq<Request>, Request) -> Reply

  /** What each rejection reason tells the caller about the reply it came from:
      the transport's own error, the parsed body of a non-200 reply, or the status
      of a non-200 reply whose body does not parse. Neither callback throws a
      TypeError of its own. */
  predicate Explains(reason: Rejection, reply: Reply, parse: Decoder) {
    && (reason.TransportError? <==> reply.Failed?)
    && (reason.TransportError? ==> reason.cause == reply.cause)
    && (reason.RemoteError? ==>
          reply.Response? && reply.status != 200 && parse(reply.body) == Some(reason.body))
    && (reason.BadStatus? ==>
          reply.Response? && reply.status != 200 && reason.status == reply.status
          && parse(reply.body).None?)
    && !reason.TypeError?
  }

  /** The callback of `promiseJSON`. On status 200 the parse is not guarded, so an
      unparseable body throws out of the callback and the promise never settles. */
  function ClassifyJson(reply: Reply, parse: Decoder): (r: Settled<Json>)
    ensures r.Rejected? <==> reply.Failed? || reply.status != 200
    ensures r.Rejected? ==> Explains(r.reason, reply, parse)
    ensures r.Resolved? ==> reply.Response? && reply.status == 200 && parse(reply.body) == Some(r.value)
    ensures r.Unsettled? <==> reply.Response? && reply.status == 200 && parse(reply.body).None?
  {
    match reply
    case Failed(cause) => Rejected(TransportError(cause))
    case Response(status, body) =>
      if status == 200 then
        match parse(body)
        case Some(j) => Resolved(j)
        case None => Unsettled
      else
        match parse(body)
        case Some(j) => Rejected(RemoteError(j))
        case None => Rejected(BadStatus(status))
  }

  /** The callback of `promiseStream`: status 200 resolves with the raw body,
      whether or not it parses, so this promise always settles. */
  function ClassifyStream(reply: Reply, parse: Decoder): (r: Settled<Bytes>)
    ensures r.Rejected? <==> reply.Failed? || reply.status != 200
    ensures r.Rejected? ==> Explains(r.reason, reply, parse)
    ensures r.Resolved? ==> reply.Response? && reply.status == 200 && r.value == reply.body
    ensures !r.Unsettled?
  {
    match reply
    case Failed(cause) => Rejected(TransportError(cause))
    case Response(status, body) =>
      if status == 200 then Resolved(body)
      else
        match parse(body)
        case Some(j) => Rejected(RemoteError(j))
        case None => Rejected(BadStatus(status))
  }

  /** Both callbacks reject in the same cases and with the same reason: exactly
      when the transport failed or the status is not 200. */
  lemma ClassifiersAgreeOnRejection(reply: Reply, parse: Decoder)
    ensures ClassifyJson(reply, parse).Rejected? <==> ClassifyStream(reply, parse).Rejected?
    ensures ClassifyStream(reply, parse).Rejected? <==> reply.Failed? || reply.status != 200
    ensures ClassifyJson(reply, parse).Rejected? ==>
      ClassifyJson(reply, parse).reason == ClassifyStream(reply, parse).reason
  {
    var j, st := ClassifyJson(reply, parse), ClassifyStream(reply, parse);
    if j.Rejected? {
      ExplainsDetermines(j.reason, st.reason, reply, parse);
    }
  }

  /** A reply has at most one reason it can be rejected for. */
  lemma ExplainsDetermines(a: Rejection, b: Rejection, reply: Reply, parse: Decoder)
    requires Explains(a, reply, parse) && Explains(b, reply, parse)
    ensures a == b
  {
  }

  // ---- the message of a BadStatus rejection

  function DigitChar(d: nat): char
    requires d < 10
  {
    ('0' as int + d) as char
  }

  function DigitValue(c: char): nat {
    if '0' <= c <= '9' then (c as int - '0' as int) as nat else 0
  }

  /** `${n}` for a natural number: its decimal digits, without leading zeros. */
  function Decimal(n: nat): (s: string)
    ensures |s| >= 1
    ensures forall i | 0 <= i < |s| :: '0' <= s[i] <= '9'
    ensures |s| > 1 ==> s[0] != '0'
  {
    if n < 10 then [DigitChar(n)] else Decimal(n / 10) + [DigitChar(n % 10)]
  }

  /** Reads a string of decimal digits back as a number. */
  function DecimalValue(s: string): nat
    decreases |s|
  {
    if s == [] then 0 else DecimalValue(s[..|s| - 1]) * 10 + DigitValue(s[|s| - 1])
  }

  lemma {:induction false} DecimalRoundTrip(n: nat)
    ensures DecimalValue(Decimal(n)) == n
  {
    if n >= 10 {
      DecimalRoundTrip(n / 10);
      var s := Decimal(n);
      assert s[..|s| - 1] == Decimal(n / 10);
    }
  }

  const BAD_STATUS_PREFIX := "Bad http status code: "

  /** `new Error(`Bad http status code: ${httpResponse.statusCode}`).message`. */
  function BadStatusMessage(status: nat): string {
    BAD_STATUS_PREFIX + Decimal(status)
  }

  /** The message of a BadStatus rejection carries the status code, which can be
      read back from it. */
  lemma BadStatusMessageCarriesStatus(status: nat)
    ensures var m := BadStatusMessage(status);
      |BAD_STATUS_PREFIX| < |m| && m[..|BAD_STATUS_PREFIX|] == BAD_STATUS_PREFIX
      && DecimalValue(m[|BAD_STATUS_PREFIX|..]) == status
  {
    var m := BadStatusMessage(status);
    assert m[|BAD_STATUS_PREFIX|..] == Decimal(status);
    DecimalRoundTrip(status);
  }

  /** The HTTP library with a remote end behind it. `server` says how the remote
      end answers a request, given every request sent before it; `sent` records
      every request in the order it was issued. */
  class Transport {
    const server: Server
    var sent: seq<Request>

    constructor (server: Server)
      ensures this.server == server && sent == []
    {
      this.server := server;
      sent := [];
    }

    /** `request({uri, method, formData, encoding: null}, callback)`. */
    method Send(req: Request) returns (reply: Reply)
      modifies this
      ensures sent == old(sent) + [req]
      ensures reply == server(old(sent), req)
    {
      reply := server(sent, req);
      sent := sent + [req];
    }
  }
}
