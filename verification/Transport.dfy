/** The request interceptors of transport/interceptor.go and their wiring in transport/transport.go. */
module Transport {
  import opened Options
  import Decimal

  const SIGN_DATA := "sd"
  const ACCESS_KEY := "ak"
  const SIGN_KEY := "sn"
  const TIMESTAMP_KEY := "ts"
  const REQUEST_ID := "rid"

  const INVALID_TIMESTAMP := 401
  const FORBIDDEN := 403
  const TOKEN_NOT_FOUND := 405

  datatype Verdict = Passed | Rejected(code: int)

  datatype Message = Message(headers: map<string, string>, params: map<string, string>)

  /** The stored key pair, and the signature and JSON encoding as deterministic functions. */
  datatype Context = Context(
    accessKey: string, secretKey: string,
    sign: (string, string) -> string, encode: map<string, string> -> string)

  /** A chain of interceptors; next is the chain field. */
  datatype Interceptor = Auth(next: Option<Interceptor>) | Timestamp(next: Option<Interceptor>)

  /** Reading a missing key of a Go map gives the empty string. */
  function Get(m: map<string, string>, key: string): string {
    if key in m then m[key] else ""
  }

  function SignedData(m: Message, c: Context): string {
    if Get(m.headers, SIGN_DATA) == "" then c.encode(m.params) else Get(m.headers, SIGN_DATA)
  }

  function AuthHandler(m: Message, c: Context): Verdict {
    var sign, accessKey := Get(m.headers, SIGN_KEY), Get(m.headers, ACCESS_KEY);
    if sign == "" then Rejected(FORBIDDEN)
    else if accessKey != "" && accessKey != c.accessKey then Rejected(FORBIDDEN)
    else if c.sign(SignedData(m, c), c.secretKey) != sign then Rejected(FORBIDDEN)
    else Passed
  }

  function TimestampHandler(m: Message): Verdict {
    var requestTime := Get(m.params, TIMESTAMP_KEY);
    if requestTime == "" then Rejected(INVALID_TIMESTAMP)
    else if Decimal.ParseInt64(requestTime).None? then Rejected(INVALID_TIMESTAMP)
    else Passed
  }

  /** requestInterceptorChain.Handle: this interceptor's check, then the rest of the chain. */
  function Handle(i: Interceptor, m: Message, c: Context): Verdict {
    var verdict := if i.Auth? then AuthHandler(m, c) else TimestampHandler(m);
    if verdict.Rejected? then verdict
    else
      match i.next
      case None => Passed
      case Some(next) => Handle(next, m, c)
  }

  class Request {
    var headers: map<string, string>
    var params: map<string, string>

    constructor (headers: map<string, string>, params: map<string, string>)
      ensures this.headers == headers && this.params == params
    {
      this.headers, this.params := headers, params;
    }

    function AsMessage(): Message
      reads this
    {
      Message(headers, params)
    }

    method AddHeader(key: string, value: string)
      modifies this`headers
      ensures headers == if key == "" then old(headers) else old(headers)[key := value]
    {
      if key != "" {
        headers := headers[key := value];
      }
    }

    method AddParam(key: string, value: string)
      modifies this`params
      ensures params == if key == "" then old(params) else old(params)[key := value]
    {
      if key != "" {
        params := params[key := value];
      }
    }
  }

  function Stamped(m: Message, now: int): Message {
    m.(params := m.params[TIMESTAMP_KEY := Decimal.FormatInt(now)])
  }

  function Signed(m: Message, c: Context): Message {
    var keyed := m.(headers := m.headers[ACCESS_KEY := c.accessKey]);
    keyed.(headers := keyed.headers[SIGN_KEY := c.sign(SignedData(keyed, c), c.secretKey)])
  }

  /** What a chain makes of a request, and whether it lets it go out. */
  function Invoked(i: Interceptor, m: Message, c: Context, now: int): (Message, Verdict) {
    if i.Auth? && (c.accessKey == "" || c.secretKey == "") then (m, Rejected(TOKEN_NOT_FOUND))
    else
      var done := if i.Auth? then Signed(m, c) else Stamped(m, now);
      match i.next
      case None => (done, Passed)
      case Some(next) => Invoked(next, done, c, now)
  }

  lemma HeaderNamesDiffer()
    ensures SIGN_DATA != ACCESS_KEY && SIGN_DATA != SIGN_KEY && SIGN_DATA != REQUEST_ID
    ensures ACCESS_KEY != SIGN_KEY && ACCESS_KEY != REQUEST_ID && SIGN_KEY != REQUEST_ID
  {
  }

  method AuthInvoker(request: Request, c: Context) returns (verdict: Verdict)
    modifies request
    ensures verdict == if c.accessKey == "" || c.secretKey == "" then Rejected(TOKEN_NOT_FOUND) else Passed
    ensures request.AsMessage()
            == if verdict.Passed? then Signed(old(request.AsMessage()), c) else old(request.AsMessage())
    ensures request.params == old(request.params)
    ensures verdict.Passed? ==>
              var headers := old(request.headers);
              var data := if SIGN_DATA in headers && headers[SIGN_DATA] != "" then headers[SIGN_DATA]
                          else c.encode(request.params);
              request.headers == headers[ACCESS_KEY := c.accessKey][SIGN_KEY := c.sign(data, c.secretKey)]
  {
    HeaderNamesDiffer();
    if c.accessKey == "" || c.secretKey == "" {
      return Rejected(TOKEN_NOT_FOUND);
    }
    request.AddHeader(ACCESS_KEY, c.accessKey);
    var signData := Get(request.headers, SIGN_DATA);
    if signData == "" {
      signData := c.encode(request.params);
    }
    var sign := c.sign(signData, c.secretKey);
    request.AddHeader(SIGN_KEY, sign);
    return Passed;
  }

  method TimestampInvoker(request: Request, now: int) returns (verdict: Verdict)
    modifies request`params
    ensures verdict == Passed && request.AsMessage() == Stamped(old(request.AsMessage()), now)
    ensures request.headers == old(request.headers)
    ensures request.params == old(request.params)[TIMESTAMP_KEY := Decimal.FormatInt(now)]
  {
    request.AddParam(TIMESTAMP_KEY, Decimal.FormatInt(now));
    return Passed;
  }

  /** requestInterceptorChain.Invoke: this interceptor's additions, then the rest of the chain. */
  method Invoke(i: Interceptor, request: Request, c: Context, now: int) returns (verdict: Verdict)
    modifies request
    ensures (request.AsMessage(), verdict) == Invoked(i, old(request.AsMessage()), c, now)
    decreases i
  {
    match i {
      case Auth(_) => verdict := AuthInvoker(request, c);
      case Timestamp(_) => verdict := TimestampInvoker(request, now);
    }
    if verdict.Passed? && i.next.Some? {
      verdict := Invoke(i.next.value, request, c, now);
    }
  }

  predicate HasAuth(i: Interceptor) {
    i.Auth? || (i.next.Some? && HasAuth(i.next.value))
  }

  predicate HasTimestamp(i: Interceptor) {
    i.Timestamp? || (i.next.Some? && HasTimestamp(i.next.value))
  }

  /** A chain of any shape accepts exactly what every interceptor in it accepts. */
  lemma {:induction false} ChainAcceptsIff(i: Interceptor, m: Message, c: Context)
    ensures Handle(i, m, c).Passed?
            <==> (HasAuth(i) ==> AuthHandler(m, c).Passed?) && (HasTimestamp(i) ==> TimestampHandler(m).Passed?)
  {
    if i.next.Some? {
      ChainAcceptsIff(i.next.value, m, c);
    }
  }

  /** A chain of any shape lets a request out exactly if it has no auth or both keys are stored. */
  lemma {:induction false} ChainLetsOutIff(i: Interceptor, m: Message, c: Context, now: int)
    ensures var (out, verdict) := Invoked(i, m, c, now);
            && (verdict.Passed? <==> (HasAuth(i) ==> c.accessKey != "" && c.secretKey != ""))
            && (verdict.Rejected? ==> verdict.code == TOKEN_NOT_FOUND)
            && (verdict.Passed? ==>
                  && (HasTimestamp(i) || Get(m.params, TIMESTAMP_KEY) == Decimal.FormatInt(now)
                      ==> Get(out.params, TIMESTAMP_KEY) == Decimal.FormatInt(now))
                  && (HasAuth(i) || Get(m.headers, ACCESS_KEY) == c.accessKey
                      ==> Get(out.headers, ACCESS_KEY) == c.accessKey))
    decreases i
  {
    HeaderNamesDiffer();
    var done := if i.Auth? then Signed(m, c) else Stamped(m, now);
    if i.next.Some? {
      ChainLetsOutIff(i.next.value, done, c, now);
    }
  }

  /** BuildInterceptor: timestamp first, then auth. */
  method BuildInterceptor() returns (chain: Interceptor)
    ensures chain == Timestamp(Some(Auth(None)))
  {
    var auth := Auth(None);
    chain := Timestamp(Some(auth));
  }

  const BUILT := Timestamp(Some(Auth(None)))

  /** What the built chain adds: the time, and under both keys the access key and a signature that covers the time. */
  lemma BuiltChainAdds(m: Message, c: Context, now: int)
    ensures var (out, verdict) := Invoked(BUILT, m, c, now);
            var params := m.params[TIMESTAMP_KEY := Decimal.FormatInt(now)];
            var data := if SIGN_DATA in m.headers && m.headers[SIGN_DATA] != "" then m.headers[SIGN_DATA]
                        else c.encode(params);
            if c.accessKey == "" || c.secretKey == "" then
              verdict == Rejected(TOKEN_NOT_FOUND) && out == Message(m.headers, params)
            else
              && verdict == Passed
              && out == Message(m.headers[ACCESS_KEY := c.accessKey][SIGN_KEY := c.sign(data, c.secretKey)], params)
  {
    HeaderNamesDiffer();
    var stamped := Stamped(m, now);
    assert Invoked(BUILT, m, c, now) == Invoked(Auth(None), stamped, c, now);
  }

  function WithRequestId(m: Message, rid: string): Message {
    m.(headers := m.headers[REQUEST_ID := rid])
  }

  /** The request as the caller finds it afterwards, and whether it is sent. */
  function Prepared(chain: Interceptor, m: Message, needInterceptor: bool, c: Context, now: int, requestId: string)
    : (Message, Verdict)
  {
    var (out, verdict) := if needInterceptor then Invoked(chain, m, c, now) else (m, Passed);
    (if verdict.Passed? then WithRequestId(out, requestId) else out, verdict)
  }

  /** TransportClient.Invoke up to its encoding; requestId is tools.GetUUID(). */
  method PrepareRequest(chain: Interceptor, request: Request, needInterceptor: bool, c: Context, now: int,
                        requestId: string)
    returns (verdict: Verdict)
    modifies request
    ensures verdict == Prepared(chain, old(request.AsMessage()), needInterceptor, c, now, requestId).1
    ensures request.AsMessage() == Prepared(chain, old(request.AsMessage()), needInterceptor, c, now, requestId).0
    ensures !needInterceptor ==>
              && verdict.Passed? && request.params == old(request.params)
              && request.headers == old(request.headers)[REQUEST_ID := requestId]
  {
    verdict := Passed;
    if needInterceptor {
      verdict := Invoke(chain, request, c, now);
      if verdict.Rejected? {
        return;
      }
    }
    request.AddHeader(REQUEST_ID, requestId);
  }

  datatype Response = Response(code: int, success: bool, error: string, result: string)

  /** Encoding of requests, decoding of responses, and the server in between, which also sees the request id. */
  datatype Channel = Channel(
    marshal: Message -> Result<string, string>,
    doInvoker: (string, string) -> Result<string, string>,
    unmarshal: string -> Result<Response, string>)

  datatype Failure = Refusal(code: int) | Broken(error: string)

  /** What is sent under which request id, and what comes of it. */
  function Sent(m: Message, requestId: string, channel: Channel): Result<Response, Failure> {
    match channel.marshal(m)
    case Err(error) => Err(Broken(error))
    case Ok(text) =>
      match channel.doInvoker(requestId, text)
      case Err(error) => Err(Broken(error))
      case Ok(answer) =>
        match channel.unmarshal(answer)
        case Err(error) => Err(Broken(error))
        case Ok(response) => Ok(response)
  }

  /** TransportClient.Invoke; calls holds what reached the channel, as request id and text. */
  method SendRequest(chain: Interceptor, request: Request, needInterceptor: bool, c: Context, now: int,
                     requestId: string, channel: Channel)
    returns (result: Result<Response, Failure>, calls: seq<(string, string)>)
    modifies request
    ensures var (m, verdict) := Prepared(chain, old(request.AsMessage()), needInterceptor, c, now, requestId);
            && request.AsMessage() == m
            && result == (if verdict.Rejected? then Err(Refusal(verdict.code)) else Sent(m, requestId, channel))
            && calls == if verdict.Rejected? || channel.marshal(m).Err? then []
                        else [(requestId, channel.marshal(m).value)]
    // Without the interceptors the request goes out whatever keys are stored, with nothing added but its id.
    ensures !needInterceptor ==>
              && request.params == old(request.params)
              && request.headers == old(request.headers)[REQUEST_ID := requestId]
              && (result.Err? ==> result.error.Broken?)
              && var text := channel.marshal(Message(request.headers, request.params));
                 calls == if text.Ok? then [(requestId, text.value)] else []
    // What comes back is the answer to the one text that reached the channel.
    ensures calls == [] ==> result.Err?
    ensures calls != [] ==>
              && |calls| == 1 && calls[0].0 == requestId
              && var answer := channel.doInvoker(calls[0].0, calls[0].1);
                 if answer.Err? then result == Err(Broken(answer.error))
                 else
                   match channel.unmarshal(answer.value)
                   case Err(error) => result == Err(Broken(error))
                   case Ok(response) => result == Ok(response)
  {
    var verdict := PrepareRequest(chain, request, needInterceptor, c, now, requestId);
    if verdict.Rejected? {
      return Err(Refusal(verdict.code)), [];
    }
    var bytes := channel.marshal(request.AsMessage());
    if bytes.Err? {
      return Err(Broken(bytes.error)), [];
    }
    calls := [(requestId, bytes.value)];
    var answer := channel.doInvoker(requestId, bytes.value);
    if answer.Err? {
      return Err(Broken(answer.error)), calls;
    }
    var response := channel.unmarshal(answer.value);
    if response.Err? {
      return Err(Broken(response.error)), calls;
    }
    return Ok(response.value), calls;
  }

  ghost predicate SignaturesVisible(c: Context) {
    forall data, key :: c.sign(data, key) != ""
  }

  /** A signed request passes the auth check under the same keys, with or without a request id. */
  lemma SignedPassesAuth(m: Message, c: Context, rid: Option<string>)
    requires SignaturesVisible(c)
    ensures var signed := Signed(m, c);
            AuthHandler(if rid.Some? then WithRequestId(signed, rid.value) else signed, c).Passed?
  {
    HeaderNamesDiffer();
    var keyed := m.(headers := m.headers[ACCESS_KEY := c.accessKey]);
    var signed := Signed(m, c);
    var sent := if rid.Some? then WithRequestId(signed, rid.value) else signed;
    assert Get(sent.headers, SIGN_DATA) == Get(keyed.headers, SIGN_DATA);
    assert SignedData(sent, c) == SignedData(keyed, c);
    assert Get(sent.headers, SIGN_KEY) == c.sign(SignedData(keyed, c), c.secretKey);
    assert Get(sent.headers, ACCESS_KEY) == c.accessKey;
  }

  lemma StampedPasses(m: Message, now: int)
    requires Decimal.IsInt64(now) && TIMESTAMP_KEY in m.params && m.params[TIMESTAMP_KEY] == Decimal.FormatInt(now)
    ensures TimestampHandler(m).Passed?
  {
    Decimal.ParseOfFormat(now);
    if now >= 0 {
      assert Decimal.FormatNat(now) != "";
    }
  }

  /** What the built chain accepts, and with which code it refuses the rest: the timestamp is looked at first. */
  lemma HandleAcceptsIff(m: Message, c: Context)
    ensures var timed := Decimal.ParseInt64(Get(m.params, TIMESTAMP_KEY)).Some?;
            var data := if SIGN_DATA in m.headers && m.headers[SIGN_DATA] != "" then m.headers[SIGN_DATA]
                        else c.encode(m.params);
            var signed := && Get(m.headers, SIGN_KEY) != ""
                          && Get(m.headers, ACCESS_KEY) in {"", c.accessKey}
                          && Get(m.headers, SIGN_KEY) == c.sign(data, c.secretKey);
            Handle(BUILT, m, c)
            == if !timed then Rejected(INVALID_TIMESTAMP) else if !signed then Rejected(FORBIDDEN) else Passed
  {
    assert Handle(Auth(None), m, c) == AuthHandler(m, c);
  }

  /** The built chain lets a request out exactly when both keys are stored; what it lets out, it accepts back. */
  lemma InvokeThenHandle(m: Message, c: Context, now: int, rid: Option<string>)
    requires SignaturesVisible(c) && Decimal.IsInt64(now)
    ensures var (out, verdict) := Invoked(BUILT, m, c, now);
            && (verdict.Passed? <==> c.accessKey != "" && c.secretKey != "")
            && (verdict.Passed? ==> Handle(BUILT, if rid.Some? then WithRequestId(out, rid.value) else out, c).Passed?)
  {
    var stamped := Stamped(m, now);
    if c.accessKey != "" && c.secretKey != "" {
      var out := Signed(stamped, c);
      var sent := if rid.Some? then WithRequestId(out, rid.value) else out;
      assert Invoked(BUILT, m, c, now) == (out, Passed);
      StampedPasses(sent, now);
      SignedPassesAuth(stamped, c, rid);
      HandleAcceptsIff(sent, c);
    }
  }

  /** Without a signed-data header the timestamp is signed: other parameters pass only with an equal signature. */
  lemma ParametersAreSigned(m: Message, params: map<string, string>, c: Context, now: int)
    requires c.accessKey != "" && c.secretKey != "" && Get(m.headers, SIGN_DATA) == ""
    ensures var out := Invoked(BUILT, m, c, now).0;
            Handle(BUILT, out.(params := params), c).Passed?
            ==> c.sign(c.encode(params), c.secretKey)
                == c.sign(c.encode(m.params[TIMESTAMP_KEY := Decimal.FormatInt(now)]), c.secretKey)
  {
    HeaderNamesDiffer();
    var stamped := Stamped(m, now);
    var out := Signed(stamped, c);
    assert Invoked(BUILT, m, c, now) == (out, Passed);
    var altered := out.(params := params);
    assert Get(altered.headers, SIGN_DATA) == "";
    HandleAcceptsIff(altered, c);
  }

  /** The receiver's decoder undoes the sender's encoder. */
  ghost predicate Faithful(channel: Channel, decode: string -> Option<Message>) {
    forall m: Message :: channel.marshal(m).Ok? ==> decode(channel.marshal(m).value) == Some(m)
  }

  /** Whatever the built chain lets reach the channel, a receiver with the same keys accepts, request id included. */
  lemma SentIsAccepted(m: Message, c: Context, now: int, requestId: string, channel: Channel,
                       decode: string -> Option<Message>)
    requires SignaturesVisible(c) && Decimal.IsInt64(now) && Faithful(channel, decode)
    ensures var (out, verdict) := Prepared(BUILT, m, true, c, now, requestId);
            && (verdict.Passed? <==> c.accessKey != "" && c.secretKey != "")
            && (verdict.Passed? && channel.marshal(out).Ok? ==>
                  var received := decode(channel.marshal(out).value);
                  received.Some? && Handle(BUILT, received.value, c).Passed?
                  && Get(received.value.headers, REQUEST_ID) == requestId)
  {
    InvokeThenHandle(m, c, now, Some(requestId));
  }
}
