/** The `HttpStressInput` record and the checks of its compact constructor. */
module StressConfig {
  import opened Wrappers
  import opened JavaText

  /** A Java `int`. */
  type Int32 = x: int | -0x8000_0000 <= x <= 0x7FFF_FFFF

  /** The methods the constructor admits, compared after upper-casing. */
  const ValidMethods: seq<string> := ["GET", "HEAD", "PATCH", "POST", "PUT", "DELETE"]

  /** The constructor's arguments as a caller passes them; `None` is `null`. */
  datatype Args = Args(
    url: Option<string>,
    httpMethod: Option<string>,
    totalRequest: Int32,
    concurrentRequest: Int32,
    intervalSec: Int32,
    body: Option<string>,
    headers: Option<map<string, string>>)

  /** A constructed record. The constructor stores every argument unchanged;
      `body` and `headers` are not checked and may still be `null`. */
  datatype Config = Config(
    url: string,
    httpMethod: string,
    totalRequest: Int32,
    concurrentRequest: Int32,
    intervalSec: Int32,
    body: Option<string>,
    headers: Option<map<string, string>>)

  /** Which check raised `IllegalArgumentException`. */
  datatype ConfigError =
    | BlankUrl
    | BlankMethod
    | NonPositiveTotalRequest
    | NonPositiveConcurrentRequest
    | NegativeInterval
    | UnknownMethod(httpMethod: string)

  /** Neither `null` nor blank. */
  predicate Present(s: Option<string>) {
    s.Some? && !IsBlank(s.value)
  }

  /** Membership of the upper-cased method in the fixed list. */
  predicate KnownMethod(m: string) {
    ToUpper(m) in ValidMethods
  }

  /** What a well-formed configuration is, irrespective of the order in
      which the constructor looks at it. */
  ghost predicate WellFormed(a: Args) {
    && Present(a.url)
    && Present(a.httpMethod)
    && KnownMethod(a.httpMethod.value)
    && a.totalRequest > 0
    && a.concurrentRequest > 0
    && a.intervalSec >= 0
  }

  /** One check of the constructor: whether it passes, and what it raises if not. */
  datatype Check = Check(passes: bool, raises: ConfigError)

  /** The constructor's checks in the order it runs them. */
  function Checks(a: Args): seq<Check> {
    [ Check(Present(a.url), BlankUrl),
      Check(Present(a.httpMethod), BlankMethod),
      Check(a.totalRequest > 0, NonPositiveTotalRequest),
      Check(a.concurrentRequest > 0, NonPositiveConcurrentRequest),
      Check(a.intervalSec >= 0, NegativeInterval),
      Check(a.httpMethod.Some? && KnownMethod(a.httpMethod.value),
            UnknownMethod(if a.httpMethod.Some? then a.httpMethod.value else "")) ]
  }

  /** The error of the first check in `cs` that does not pass, if any. */
  function FirstFailure(cs: seq<Check>): Option<ConfigError> {
    if |cs| == 0 then None
    else if !cs[0].passes then Some(cs[0].raises)
    else FirstFailure(cs[1..])
  }

  /** The compact constructor of `HttpStressInput`. It accepts exactly the
      well-formed arguments and then stores them unchanged. */
  function Validate(a: Args): (r: Result<Config, ConfigError>)
    ensures r.Ok? <==> WellFormed(a)
    ensures r.Ok? ==> r.value == Config(a.url.value, a.httpMethod.value, a.totalRequest,
                                        a.concurrentRequest, a.intervalSec, a.body, a.headers)
  {
    if !Present(a.url) then Err(BlankUrl)
    else if !Present(a.httpMethod) then Err(BlankMethod)
    else if a.totalRequest <= 0 then Err(NonPositiveTotalRequest)
    else if a.concurrentRequest <= 0 then Err(NonPositiveConcurrentRequest)
    else if a.intervalSec < 0 then Err(NegativeInterval)
    else if !KnownMethod(a.httpMethod.value) then Err(UnknownMethod(a.httpMethod.value))
    else Ok(Config(a.url.value, a.httpMethod.value, a.totalRequest,
                   a.concurrentRequest, a.intervalSec, a.body, a.headers))
  }

  /** The error the constructor raises is the one of the first check, in
      source order, that fails; when no check fails it raises nothing. */
  lemma ValidateReportsFirstFailure(a: Args)
    ensures Validate(a).Err? ==> FirstFailure(Checks(a)) == Some(Validate(a).error)
    ensures Validate(a).Ok? <==> FirstFailure(Checks(a)) == None
  {
    var cs := Checks(a);
    assert FirstFailure(cs[6..]) == None;
    assert FirstFailure(cs[5..]) == if cs[5].passes then None else Some(cs[5].raises);
    assert FirstFailure(cs[4..]) == if cs[4].passes then FirstFailure(cs[5..]) else Some(cs[4].raises);
    assert FirstFailure(cs[3..]) == if cs[3].passes then FirstFailure(cs[4..]) else Some(cs[3].raises);
    assert FirstFailure(cs[2..]) == if cs[2].passes then FirstFailure(cs[3..]) else Some(cs[2].raises);
    assert FirstFailure(cs[1..]) == if cs[1].passes then FirstFailure(cs[2..]) else Some(cs[1].raises);
  }

  /** A rejected `url` wins over every other fault, and a rejected `method`
      wins over all but the `url`; in particular a `null` method is reported
      as blank and is never upper-cased. */
  lemma BlankChecksComeFirst(a: Args)
    ensures !Present(a.url) ==> Validate(a) == Err(BlankUrl)
    ensures Present(a.url) && !Present(a.httpMethod) ==> Validate(a) == Err(BlankMethod)
    ensures a.httpMethod.None? ==> Validate(a).Err? && Validate(a).error in {BlankUrl, BlankMethod}
  {
  }

  /** The numeric bounds: the counts must be positive, the interval must not
      be negative, and a zero interval passes. */
  lemma NumericBounds(a: Args)
    requires Present(a.url) && Present(a.httpMethod)
    ensures a.totalRequest <= 0 ==> Validate(a) == Err(NonPositiveTotalRequest)
    ensures a.totalRequest > 0 && a.concurrentRequest <= 0 ==> Validate(a) == Err(NonPositiveConcurrentRequest)
    ensures a.totalRequest > 0 && a.concurrentRequest > 0 && a.intervalSec < 0 ==> Validate(a) == Err(NegativeInterval)
    ensures a.intervalSec == 0 && a.totalRequest > 0 && a.concurrentRequest > 0 && KnownMethod(a.httpMethod.value)
            ==> Validate(a).Ok?
  {
  }

  /** Once everything else passes, the method decides: it is accepted
      exactly when its upper-cased form is admitted, and otherwise reported as
      unknown. So "get" and "Delete" pass like "GET", while "FOO" and
      "CONNECT" do not. */
  lemma MethodCaseInsensitive(a: Args)
    requires Present(a.url) && Present(a.httpMethod)
    requires a.totalRequest > 0 && a.concurrentRequest > 0 && a.intervalSec >= 0
    ensures Validate(a).Ok? <==> ToUpper(a.httpMethod.value) in ValidMethods
    ensures Validate(a).Err? ==> Validate(a).error == UnknownMethod(a.httpMethod.value)
    ensures KnownMethod("get") && KnownMethod("Delete")
    ensures !KnownMethod("FOO") && !KnownMethod("CONNECT")
  {
    UpperOf("get", "GET");
    UpperOf("Delete", "DELETE");
    UpperOf("FOO", "FOO");
    UpperOf("CONNECT", "CONNECT");
  }

  /** Helper: `ToUpper(s)` is `u` when it agrees with it character by character. */
  lemma UpperOf(s: string, u: string)
    requires |s| == |u| && forall i :: 0 <= i < |s| ==> UpperAscii(s[i]) == u[i]
    ensures ToUpper(s) == u
  {
  }
}
