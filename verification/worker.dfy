/** One forked request task: build the request, send it, and turn the
    response, or any exception on the way, into exactly one outcome. */
module Worker {
  import opened Wrappers
  import opened JavaText
  import opened StressConfig

  /** A three-digit HTTP status code (section 15 of RFC 9110), the only kind
      of status a response reaching the worker carries. */
  type HttpStatus = s: int | 100 <= s <= 999 witness 200

  /** The status recorded for a request whose send threw. */
  const FailedStatus: int := -1

  /** The record `Result(statusCode, duration)`, with the duration in whole
      nanoseconds. */
  datatype Outcome = Outcome(status: int, nanos: int)

  /** The sentinel `Result(-1, Duration.ZERO)`. */
  const Failure: Outcome := Outcome(FailedStatus, 0)

  /** The request handed to the HTTP client. `body == None` stands for
      `BodyPublishers.noBody()`. */
  datatype Request = Request(verb: string, url: string, body: Option<string>, headers: map<string, string>)

  /** What one send yields: a response status with the elapsed time measured
      around the call, or an exception. */
  datatype Reply = Replied(status: HttpStatus, nanos: int) | SendFailed

  /** The HTTP client and the clock together: the reply that request number
      `k` receives when it sends a given request. URI parsing, header
      validation and the network are all behind this function, so every
      exception they raise is a `SendFailed`. */
  type Transport = (int, Request) -> Reply

  /** The request as the worker builds it in the source. Reading `body` and
      iterating `headers` throw `NullPointerException` inside the worker's
      `try` when either is `null`; an empty body means no body. The method
      is passed on exactly as the caller spelled it. */
  function BuildRequestAsWritten(cfg: Config): (r: Option<Request>)
    ensures r.Some? <==> cfg.body.Some? && cfg.headers.Some?
    ensures r.Some? ==> r.value.verb == cfg.httpMethod
  {
    if cfg.body.None? || cfg.headers.None? then None
    else Some(Request(cfg.httpMethod, cfg.url,
                      if cfg.body.value == [] then None else cfg.body,
                      cfg.headers.value))
  }

  /** The request with the method normalised to the upper-case form the
      configuration check compared it in; everything else as in
      `BuildRequestAsWritten`. */
  function BuildRequest(cfg: Config): (r: Option<Request>)
    ensures r.Some? <==> cfg.body.Some? && cfg.headers.Some?
    ensures r.Some? ==> r.value.url == cfg.url && r.value.headers == cfg.headers.value
    ensures r.Some? ==> (r.value.body.None? <==> cfg.body.value == [])
    ensures r.Some? && r.value.body.Some? ==> r.value.body.value == cfg.body.value
    ensures r.Some? ==> r.value.verb == ToUpper(cfg.httpMethod)
    ensures r.Some? && KnownMethod(cfg.httpMethod) ==> r.value.verb in ValidMethods
  {
    match BuildRequestAsWritten(cfg)
    case None => None
    case Some(req) => Some(req.(verb := ToUpper(cfg.httpMethod)))
  }

  /** Whether request number `k` ends in the worker's `catch`. */
  predicate Fails(cfg: Config, net: Transport, k: int) {
    BuildRequestAsWritten(cfg).None? || net(k, BuildRequestAsWritten(cfg).value).SendFailed?
  }

  /** The one outcome request number `k` puts on the result queue: the
      sentinel when anything in the `try` throws, and otherwise the
      response's status with the measured duration. The sentinel status
      cannot be confused with a real one. */
  function RequestOutcome(cfg: Config, net: Transport, k: int): (o: Outcome)
    ensures o.status == FailedStatus <==> Fails(cfg, net, k)
    ensures Fails(cfg, net, k) ==> o.nanos == 0
    ensures !Fails(cfg, net, k) ==> 100 <= o.status <= 999
    ensures !Fails(cfg, net, k) ==> o.status == net(k, BuildRequestAsWritten(cfg).value).status
    ensures !Fails(cfg, net, k) ==> o.nanos == net(k, BuildRequestAsWritten(cfg).value).nanos
  {
    match BuildRequestAsWritten(cfg)
    case None => Failure
    case Some(req) =>
      match net(k, req)
      case SendFailed => Failure
      case Replied(status, nanos) => Outcome(status, nanos)
  }

  /** A configuration the constructor accepts can still make every request
      fail: a `null` body is never checked, and every worker then throws
      before sending and records the sentinel. */
  lemma NullBodyFailsEveryRequest(cfg: Config, net: Transport, k: int)
    requires cfg.body.None?
    ensures RequestOutcome(cfg, net, k) == Failure
  {
  }

  /** As written, the constructor accepts "get" but the request then carries
      the lower-case token "get", which is none of the admitted methods
      (method names are case-sensitive, section 9.1 of RFC 9110). */
  lemma LowerCaseMethodSentVerbatim()
    ensures var a := Args(Some("http://localhost"), Some("get"), 1, 1, 0, Some(""), Some(map[]));
            && Validate(a).Ok?
            && BuildRequestAsWritten(Validate(a).value).Some?
            && BuildRequestAsWritten(Validate(a).value).value.verb == "get"
            && "get" !in ValidMethods
  {
    var a := Args(Some("http://localhost"), Some("get"), 1, 1, 0, Some(""), Some(map[]));
    assert !IsWhitespace(a.url.value[0]) && !IsWhitespace(a.httpMethod.value[0]);
    UpperOf("get", "GET");
  }

  /** With the method normalised, every request built from an accepted
      configuration carries one of the admitted methods, and it is the
      method that was configured, up to case. */
  lemma AcceptedConfigSendsValidMethod(a: Args)
    requires Validate(a).Ok? && BuildRequest(Validate(a).value).Some?
    ensures BuildRequest(Validate(a).value).value.verb in ValidMethods
    ensures ToUpper(BuildRequest(Validate(a).value).value.verb) == ToUpper(a.httpMethod.value)
  {
    ToUpperIdempotent(a.httpMethod.value);
  }

  /** The correction changes nothing for a method already spelled as one of
      the admitted methods: both builders then send the same request. */
  lemma CorrectionKeepsCanonicalMethods(cfg: Config)
    requires cfg.httpMethod in ValidMethods
    ensures BuildRequest(cfg) == BuildRequestAsWritten(cfg)
  {
    UpperOf("GET", "GET");
    UpperOf("HEAD", "HEAD");
    UpperOf("PATCH", "PATCH");
    UpperOf("POST", "POST");
    UpperOf("PUT", "PUT");
    UpperOf("DELETE", "DELETE");
  }
}
