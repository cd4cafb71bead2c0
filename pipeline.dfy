/** The verification pipeline of functions.go: `signalVerification` (lines 31-164) runs the
    stages in order, pushes the error of the first failing stage into a buffered channel of
    capacity 3 and returns; the deferred closes then run in LIFO order, each pushing a
    further error when it fails, and `close(ch)` runs last.  `Verify` (lines 15-29) takes
    the first value received from that channel, or a timeout when the context is done and
    the select takes that case.

    Every network and library call is an input: the fields of `Env` give the outcome of
    mail.ParseAddress, net.LookupNS, http.NewRequestWithContext, http.DefaultClient.Do,
    reading the body, json.Unmarshal, net.LookupMX, smtp.Dial, MAIL FROM, RCPT TO and the
    two Close calls.  The calls that take an argument are functions of it, so the model
    shows which domain, host and address each one is asked about. */
module Pipeline {
  import opened Wrappers
  import opened Errors
  import opened Channel
  import opened Domain
  import opened Disposable
  import opened Mx

  /** The outcomes of the calls the pipeline makes. */
  datatype Env = Env(
    parseAddress: string -> Option<string>,   // mail.ParseAddress: the parsed e.Address, or an error
    lookupNS: string -> bool,                 // net.LookupNS(domain) succeeded
    newRequestOk: bool,                       // http.NewRequestWithContext succeeded
    fetchOk: bool,                            // http.DefaultClient.Do succeeded (the body is now open)
    readOk: bool,                             // ioutil.ReadAll(resp.Body) succeeded
    unmarshal: Option<seq<string>>,           // json.Unmarshal of the body into a list of domains
    lookupMX: string -> Option<seq<MX>>,      // net.LookupMX(domain): the records, or an error
    dial: string -> bool,                     // smtp.Dial(host:port) succeeded (the client is now open)
    mailOk: bool,                             // client.Mail(fromEmail) succeeded
    rcpt: string -> bool,                     // client.Rcpt(email) succeeded
    bodyCloseOk: bool,                        // resp.Body.Close() succeeded
    clientCloseOk: bool)                      // client.Close() succeeded

  /** A context.Context, reduced to whether its Done channel is ready.  A nil context is
      replaced by context.TODO(), which is never done. */
  datatype Context = Context(done: bool)

  predicate Done(ctx: Option<Context>)
  {
    ctx.Some? && ctx.value.done
  }

  /** The steps of signalVerification, in the order they run. */
  datatype Stage =
    | Parse | Extract | LookupNS | NewRequest | Fetch | ReadBody | Decode
    | CheckDisposable | LookupMX | CheckMXPresent | Dial(host: string) | Mail | Rcpt

  /** The position of a stage in the pipeline. */
  function StageIndex(s: Stage): nat
  {
    match s
    case Parse => 0
    case Extract => 1
    case LookupNS => 2
    case NewRequest => 3
    case Fetch => 4
    case ReadBody => 5
    case Decode => 6
    case CheckDisposable => 7
    case LookupMX => 8
    case CheckMXPresent => 9
    case Dial(_) => 10
    case Mail => 11
    case Rcpt => 12
  }

  const StageCount: nat := 13

  /** The error kind a failing stage reports. */
  function StageFailure(s: Stage): (f: Failure)
    ensures f !in {Timeout, BodyCloseError, ClientCloseError}
  {
    match s
    case Parse => ParseError
    case Extract => InvalidEmail
    case LookupNS => NSLookupError
    case NewRequest => RequestError
    case Fetch => FetchError
    case ReadBody => ReadError
    case Decode => DecodeError
    case CheckDisposable => DisposableEmail
    case LookupMX => MXLookupError
    case CheckMXPresent => NoMXRecords
    case Dial(_) => DialError
    case Mail => MailError
    case Rcpt => RcptError
  }

  /** Resources that a deferred close releases: the HTTP response body and the SMTP client. */
  datatype Resource = HttpBody | SmtpClient

  function ReleaseFailure(r: Resource): Failure
  {
    match r
    case HttpBody => BodyCloseError
    case SmtpClient => ClientCloseError
  }

  predicate ReleaseOk(env: Env, r: Resource)
  {
    match r
    case HttpBody => env.bodyCloseOk
    case SmtpClient => env.clientCloseOk
  }

  /** What one run of the stages did: the stages attempted, the failure of the last one if it
      failed, and the resources acquired, in the order they were acquired. */
  datatype Outcome = Outcome(trace: seq<Stage>, failure: Option<Failure>, acquired: seq<Resource>)

  /** A run that stopped because the last stage of `trace` failed. */
  function Stop(trace: seq<Stage>, acquired: seq<Resource>): Outcome
    requires |trace| > 0
  {
    Outcome(trace, Some(StageFailure(trace[|trace| - 1])), acquired)
  }

  /** The reference definition of the stages: each runs only if every earlier one succeeded. */
  function Run(env: Env, email: string): (r: Outcome)
    ensures |r.trace| > 0 && |r.acquired| <= 2
    ensures r.failure.Some? ==> r.failure.value == StageFailure(r.trace[|r.trace| - 1])
    ensures r.failure.None? ==> |r.trace| == StageCount && r.acquired == [HttpBody, SmtpClient]
    ensures r.acquired != [] ==>
              env.parseAddress(email).Some? && ExtractDomain(env.parseAddress(email).value, email).Some?
  {
    match env.parseAddress(email)
    case None => Stop([Parse], [])
    case Some(parsed) =>
      match ExtractDomain(parsed, email)
      case None => Stop([Parse, Extract], [])
      case Some(domain) => RunFromDomain(env, email, domain)
  }

  /** The stages that find the domain, both successful. */
  const SyntaxStages: seq<Stage> := [Parse, Extract]

  /** The stages after the domain is known, up to the fetch of the disposable list. */
  function RunFromDomain(env: Env, email: string, domain: string): (r: Outcome)
    ensures |r.trace| > 0 && |r.acquired| <= 2
    ensures r.failure.Some? ==> r.failure.value == StageFailure(r.trace[|r.trace| - 1])
    ensures r.failure.None? ==> |r.trace| == StageCount && r.acquired == [HttpBody, SmtpClient]
    ensures HttpBody in r.acquired <==> env.lookupNS(domain) && env.newRequestOk && env.fetchOk
  {
    var t := SyntaxStages + [LookupNS];
    if !env.lookupNS(domain) then Stop(t, [])
    else
      var t := t + [NewRequest];
      if !env.newRequestOk then Stop(t, [])
      else
        var t := t + [Fetch];
        if !env.fetchOk then Stop(t, [])
        else RunWithBody(env, email, domain, t)
  }

  /** The stages run while the HTTP body is open, after the stages `t`: reading and
      decoding the list and checking the domain against it, then the mail server. */
  function RunWithBody(env: Env, email: string, domain: string, t: seq<Stage>): (r: Outcome)
    ensures |r.trace| > 0 && |r.acquired| <= 2
    ensures r.failure.Some? ==> r.failure.value == StageFailure(r.trace[|r.trace| - 1])
    ensures r.failure.None? ==> |r.trace| == StageCount && r.acquired == [HttpBody, SmtpClient]
    ensures HttpBody in r.acquired
  {
    var t := t + [ReadBody];
    if !env.readOk then Stop(t, [HttpBody])
    else
      var t := t + [Decode];
      if env.unmarshal.None? then Stop(t, [HttpBody])
      else
        var t := t + [CheckDisposable];
        if IsDisposable(domain, env.unmarshal.value) then Stop(t, [HttpBody])
        else RunMailServer(env, email, domain)
  }

  /** The stages run before the mail server is looked up, all of them successful. */
  const ListStages: seq<Stage> :=
    SyntaxStages + [LookupNS] + [NewRequest] + [Fetch] + [ReadBody] + [Decode] + [CheckDisposable]

  /** The MX lookup and the SMTP probe, with the HTTP body still open. */
  function RunMailServer(env: Env, email: string, domain: string): (r: Outcome)
    ensures |r.trace| > 0 && |r.acquired| <= 2
    ensures r.failure.Some? ==> r.failure.value == StageFailure(r.trace[|r.trace| - 1])
    ensures r.failure.None? ==> |r.trace| == StageCount && r.acquired == [HttpBody, SmtpClient]
    ensures HttpBody in r.acquired
  {
    var t := ListStages + [LookupMX];
    if env.lookupMX(domain).None? then Stop(t, [HttpBody])
    else
      var records := env.lookupMX(domain).value;
      var t := t + [CheckMXPresent];
      if |records| == 0 then Stop(t, [HttpBody])
      else RunSmtp(env, email, records[MinIndex(records)].host)
  }

  /** The stages run before the SMTP probe, all of them successful. */
  const MxStages: seq<Stage> := ListStages + [LookupMX] + [CheckMXPresent]

  /** The SMTP probe of the chosen exchanger `host`. */
  function RunSmtp(env: Env, email: string, host: string): (r: Outcome)
    ensures |r.trace| > 0 && |r.acquired| <= 2
    ensures r.failure.Some? ==> r.failure.value == StageFailure(r.trace[|r.trace| - 1])
    ensures r.failure.None? ==> |r.trace| == StageCount && r.acquired == [HttpBody, SmtpClient]
    ensures |r.trace| > |MxStages| && r.trace[|MxStages|] == Dial(host)
    ensures SmtpClient in r.acquired <==> env.dial(host)
  {
    var t := MxStages + [Dial(host)];
    if !env.dial(host) then Stop(t, [HttpBody])
    else
      var t := t + [Mail];
      if !env.mailOk then Stop(t, [HttpBody, SmtpClient])
      else
        var t := t + [Rcpt];
        if !env.rcpt(email) then Stop(t, [HttpBody, SmtpClient])
        else Outcome(t, None, [HttpBody, SmtpClient])
  }

  /** The error a deferred close pushes for `r`, if its close fails. */
  function ReleaseErrors(env: Env, email: string, r: Resource): seq<Error>
  {
    if ReleaseOk(env, r) then [] else [Error(email, ReleaseFailure(r))]
  }

  /** The errors the deferred closes of `acquired` push: the last acquired is closed first. */
  function CloseErrors(env: Env, email: string, acquired: seq<Resource>): (r: seq<Error>)
    ensures |r| <= |acquired|
    ensures forall k :: 0 <= k < |r| ==>
              r[k].address == email && r[k].kind in {BodyCloseError, ClientCloseError}
  {
    if acquired == [] then []
    else CloseErrors(env, email, acquired[1..]) + ReleaseErrors(env, email, acquired[0])
  }

  /** The stage error an outcome pushes into the channel, if any. */
  function StageErrorsOf(email: string, o: Outcome): seq<Error>
  {
    if o.failure.Some? then [Error(email, o.failure.value)] else []
  }

  /** The stage error pushed into the channel, if any. */
  function StageErrors(env: Env, email: string): seq<Error>
  {
    StageErrorsOf(email, Run(env, email))
  }

  /** What the channel holds after the run `o`: its stage error, then its close errors. */
  function BufferedOf(env: Env, email: string, o: Outcome): seq<Error>
  {
    StageErrorsOf(email, o) + CloseErrors(env, email, o.acquired)
  }

  /** Everything in the channel when signalVerification returns it. */
  function Buffered(env: Env, email: string): (r: seq<Error>)
    ensures |r| <= 3
    ensures forall k :: 0 <= k < |r| ==> r[k].address == email && r[k].kind != Timeout
  {
    BufferedOf(env, email, Run(env, email))
  }

  /** The value `Verify` reports: the timeout when the context is done and the select takes
      that case (`takeDone`), otherwise the first buffered error, or nil. */
  function VerifyResult(env: Env, ctx: Option<Context>, email: string, takeDone: bool): (r: Option<Error>)
    ensures r.Some? ==> r.value.address == email
    ensures r.Some? && r.value.kind == Timeout <==> Done(ctx) && takeDone
    ensures r.Some? && r.value.kind != Timeout ==> r.value in Buffered(env, email)
    ensures r.None? ==> Run(env, email).failure.None?
  {
    if Done(ctx) && takeDone then Some(Error(email, Timeout))
    else
      var b := Buffered(env, email);
      if b == [] then None else Some(b[0])
  }

  /** Go's defer stack: `defer close(ch)` is pushed first, each release as its resource is
      acquired. */
  datatype Deferred = CloseChannel | Release(resource: Resource)

  /** The releases deferred for `acquired`, in the order they were deferred. */
  function Releases(acquired: seq<Resource>): (s: seq<Deferred>)
    ensures |s| == |acquired|
    ensures forall k :: 0 <= k < |acquired| ==> s[k] == Release(acquired[k])
  {
    if acquired == [] then [] else [Release(acquired[0])] + Releases(acquired[1..])
  }

  /** The defer stack after acquiring `acquired`: `close(ch)` at the bottom. */
  function DeferStack(acquired: seq<Resource>): seq<Deferred>
  {
    [CloseChannel] + Releases(acquired)
  }

  /** The three defer stacks the pipeline can build: nothing acquired, the HTTP body, or
      the body and then the SMTP client. */
  lemma DeferStacksOfPipeline()
    ensures DeferStack([]) == [CloseChannel]
    ensures DeferStack([HttpBody]) == [CloseChannel, Release(HttpBody)]
    ensures DeferStack([HttpBody, SmtpClient]) == [CloseChannel, Release(HttpBody), Release(SmtpClient)]
  {
    assert Releases([HttpBody, SmtpClient]) == [Release(HttpBody), Release(SmtpClient)];
  }

  /** The body of signalVerification up to its `return`: runs the stages, pushes the first
      failure into `ch`, and hands back the stages attempted and the defer stack. */
  method RunStages(env: Env, email: string, ch: Chan) returns (trace: seq<Stage>, deferred: seq<Deferred>)
    requires ch.Valid() && !ch.closed && ch.buf == [] && ch.capacity == 3
    modifies ch
    ensures ch.Valid() && !ch.closed
    ensures ch.buf == StageErrors(env, email)
    ensures trace == Run(env, email).trace
    ensures deferred == DeferStack(Run(env, email).acquired)
  {
    DeferStacksOfPipeline();
    deferred := [CloseChannel];
    trace := [Parse];
    var e := env.parseAddress(email);
    if e.None? {
      ch.Send(Error(email, ParseError));
      return;
    }
    trace := trace + [Extract];
    var i := LastIndex(e.value, '@');
    if i < 0 || i >= |email| - 1 {
      ch.Send(Error(email, InvalidEmail));
      return;
    }
    var domain := email[i + 1..];
    assert ExtractDomain(e.value, email) == Some(domain);
    trace, deferred := CheckDomain(env, email, domain, ch);
  }

  /** functions.go lines 56-109: the NS lookup, the fetch and decoding of the list of
      disposable domains, and the scan of that list. */
  method CheckDomain(env: Env, email: string, domain: string, ch: Chan)
    returns (trace: seq<Stage>, deferred: seq<Deferred>)
    requires ch.Valid() && !ch.closed && ch.buf == [] && ch.capacity == 3
    modifies ch
    ensures ch.Valid() && !ch.closed
    ensures ch.buf == StageErrorsOf(email, RunFromDomain(env, email, domain))
    ensures trace == RunFromDomain(env, email, domain).trace
    ensures deferred == DeferStack(RunFromDomain(env, email, domain).acquired)
  {
    DeferStacksOfPipeline();
    deferred := [CloseChannel];
    trace := SyntaxStages + [LookupNS];
    if !env.lookupNS(domain) {
      ch.Send(Error(email, NSLookupError));
      return;
    }
    trace := trace + [NewRequest];
    if !env.newRequestOk {
      ch.Send(Error(email, RequestError));
      return;
    }
    trace := trace + [Fetch];
    if !env.fetchOk {
      ch.Send(Error(email, FetchError));
      return;
    }
    deferred := deferred + [Release(HttpBody)];
    trace := trace + [ReadBody];
    if !env.readOk {
      ch.Send(Error(email, ReadError));
      return;
    }
    trace := trace + [Decode];
    if env.unmarshal.None? {
      ch.Send(Error(email, DecodeError));
      return;
    }
    trace := trace + [CheckDisposable];
    var disposable := ScanDisposable(domain, env.unmarshal.value);
    if disposable {
      ch.Send(Error(email, DisposableEmail));
      return;
    }
    trace, deferred := ProbeMailServer(env, email, domain, ch);
  }

  /** functions.go lines 113-135: the MX lookup and the choice of exchanger, followed by
      the SMTP probe of that exchanger. */
  method ProbeMailServer(env: Env, email: string, domain: string, ch: Chan)
    returns (trace: seq<Stage>, deferred: seq<Deferred>)
    requires ch.Valid() && !ch.closed && ch.buf == [] && ch.capacity == 3
    modifies ch
    ensures ch.Valid() && !ch.closed
    ensures ch.buf == StageErrorsOf(email, RunMailServer(env, email, domain))
    ensures trace == RunMailServer(env, email, domain).trace
    ensures deferred == DeferStack(RunMailServer(env, email, domain).acquired)
  {
    DeferStacksOfPipeline();
    deferred := [CloseChannel, Release(HttpBody)];
    trace := ListStages + [LookupMX];
    var records := env.lookupMX(domain);
    if records.None? {
      ch.Send(Error(email, MXLookupError));
      return;
    }
    trace := trace + [CheckMXPresent];
    if |records.value| < 1 {
      ch.Send(Error(email, NoMXRecords));
      return;
    }
    var host, pref := SelectMX(records.value);
    trace, deferred := ProbeSmtp(env, email, host, ch);
  }

  /** functions.go lines 136-162: dial the exchanger, then MAIL FROM and RCPT TO; the
      client's close is deferred once the dial succeeds. */
  method ProbeSmtp(env: Env, email: string, host: string, ch: Chan)
    returns (trace: seq<Stage>, deferred: seq<Deferred>)
    requires ch.Valid() && !ch.closed && ch.buf == [] && ch.capacity == 3
    modifies ch
    ensures ch.Valid() && !ch.closed
    ensures ch.buf == StageErrorsOf(email, RunSmtp(env, email, host))
    ensures trace == RunSmtp(env, email, host).trace
    ensures deferred == DeferStack(RunSmtp(env, email, host).acquired)
  {
    DeferStacksOfPipeline();
    deferred := [CloseChannel, Release(HttpBody)];
    trace := MxStages + [Dial(host)];
    if !env.dial(host) {
      ch.Send(Error(email, DialError));
      return;
    }
    deferred := deferred + [Release(SmtpClient)];
    trace := trace + [Mail];
    if !env.mailOk {
      ch.Send(Error(email, MailError));
      return;
    }
    trace := trace + [Rcpt];
    if !env.rcpt(email) {
      ch.Send(Error(email, RcptError));
      return;
    }
  }

  /** The deferred calls of signalVerification, run last-in first-out: each release whose
      close fails pushes an error, and `close(ch)`, deferred first, runs last. */
  method RunDeferred(env: Env, email: string, ch: Chan, stack: seq<Deferred>, ghost acquired: seq<Resource>)
    requires stack == DeferStack(acquired)
    requires ch.Valid() && !ch.closed && |ch.buf| + |acquired| <= ch.capacity
    modifies ch
    ensures ch.Valid() && ch.closed
    ensures ch.buf == old(ch.buf) + CloseErrors(env, email, acquired)
  {
    var i := |stack|;
    while i > 0
      invariant 0 <= i <= |stack|
      invariant ch.Valid() && (ch.closed <==> i == 0)
      invariant i > 0 ==> ch.buf == old(ch.buf) + CloseErrors(env, email, acquired[i - 1..])
      invariant i == 0 ==> ch.buf == old(ch.buf) + CloseErrors(env, email, acquired)
    {
      i := i - 1;
      match stack[i]
      case CloseChannel =>
        assert i == 0 && acquired[0..] == acquired;
        ch.Close();
      case Release(r) =>
        assert i > 0 && r == acquired[i - 1];
        assert acquired[i - 1..][1..] == acquired[i..];
        if !ReleaseOk(env, r) {
          ch.Send(Error(email, ReleaseFailure(r)));
        }
    }
  }

  /** signalVerification: the channel it returns is closed and holds the first stage error,
      if any, followed by the errors of the failing closes. */
  method SignalVerification(env: Env, email: string) returns (ch: Chan, trace: seq<Stage>)
    ensures fresh(ch) && ch.Valid() && ch.closed && ch.capacity == 3
    ensures ch.buf == Buffered(env, email)
    ensures trace == Run(env, email).trace
  {
    ch := new Chan(3);
    var deferred;
    trace, deferred := RunStages(env, email, ch);
    AcquiredAtMostTwo(env, email);
    RunDeferred(env, email, ch, deferred, Run(env, email).acquired);
  }

  /** At most the HTTP body and the SMTP client are held, so the stage error and the close
      errors fit in the channel's three slots. */
  lemma AcquiredAtMostTwo(env: Env, email: string)
    ensures |StageErrors(env, email)| + |Run(env, email).acquired| <= 3
  {
  }

  /** Verify: valid exactly when the value it reads is nil. */
  method Verify(env: Env, ctx: Option<Context>, email: string, takeDone: bool) returns (valid: bool, err: Option<Error>)
    ensures err == VerifyResult(env, ctx, email, takeDone)
    ensures valid <==> err == None
  {
    valid := false;
    var ch, _ := SignalVerification(env, email);
    if Done(ctx) && takeDone {
      err := Some(Error(email, Timeout));
    } else {
      err := ch.Receive();
    }
    if err != None {
      return;
    }
    valid := true;
  }
}
