/** What the pipeline promises, stated over its reference definition `Run` and the channel
    contents `Buffered`; `SignalVerification` and `Verify` are proved equal to these. */
module PipelineProperties {
  import opened Wrappers
  import opened Errors
  import opened Domain
  import opened Disposable
  import opened Mx
  import opened Pipeline

  /** The address parses, its domain is `domain`, and every step up to and including the
      decoding of the disposable list succeeds, giving `list`. */
  predicate ReachesListCheck(env: Env, email: string, domain: string, list: seq<string>)
  {
    env.parseAddress(email).Some? &&
    ExtractDomain(env.parseAddress(email).value, email) == Some(domain) &&
    env.lookupNS(domain) && env.newRequestOk && env.fetchOk && env.readOk &&
    env.unmarshal == Some(list)
  }

  /** The stages of `t` sit at their own positions of the pipeline order. */
  predicate InOrder(t: seq<Stage>)
  {
    forall k :: 0 <= k < |t| ==> StageIndex(t[k]) == k
  }

  /** The resources held once the stage at position `last` has run: the HTTP body after a
      successful fetch, the SMTP client after a successful dial, in that order. */
  function HeldAfter(last: nat): seq<Resource>
  {
    if last <= StageIndex(Fetch) then []
    else if last <= StageIndex(Dial("")) then [HttpBody]
    else [HttpBody, SmtpClient]
  }

  /** A run is well formed when its stages are in pipeline order with none skipped, the
      failure is that of its last stage (so nothing after a failure was attempted), a run
      without failure attempted every stage, and the resources acquired are those its last
      stage implies. */
  predicate WellFormed(o: Outcome)
  {
    0 < |o.trace| <= StageCount && InOrder(o.trace) &&
    (o.failure.Some? ==> o.failure.value == StageFailure(o.trace[|o.trace| - 1])) &&
    (o.failure.None? ==> |o.trace| == StageCount) &&
    o.acquired == HeldAfter(|o.trace| - 1)
  }

  /** Attempting the next stage `s` after the stages `t` keeps the order, and stopping there
      with `acquired` held gives a well-formed run. */
  lemma StopAfter(t: seq<Stage>, s: Stage, acquired: seq<Resource>)
    requires InOrder(t) && StageIndex(s) == |t| < StageCount
    requires acquired == HeldAfter(|t|)
    ensures InOrder(t + [s]) && WellFormed(Stop(t + [s], acquired))
  {
    assert forall k :: 0 <= k < |t| ==> (t + [s])[k] == t[k];
  }

  lemma AppendInOrder(t: seq<Stage>, s: Stage)
    requires InOrder(t) && StageIndex(s) == |t|
    ensures InOrder(t + [s])
  {
    assert forall k :: 0 <= k < |t| ==> (t + [s])[k] == t[k];
  }

  /** The fixed stage prefixes are in pipeline order. */
  lemma PrefixesInOrder()
    ensures InOrder(SyntaxStages) && InOrder(ListStages) && InOrder(MxStages)
    ensures |ListStages| == StageIndex(LookupMX) && |MxStages| == StageIndex(Dial(""))
  {
    assert InOrder(SyntaxStages);
    var t := SyntaxStages;
    AppendInOrder(t, LookupNS);
    t := t + [LookupNS];
    AppendInOrder(t, NewRequest);
    t := t + [NewRequest];
    AppendInOrder(t, Fetch);
    t := t + [Fetch];
    AppendInOrder(t, ReadBody);
    t := t + [ReadBody];
    AppendInOrder(t, Decode);
    t := t + [Decode];
    AppendInOrder(t, CheckDisposable);
    t := t + [CheckDisposable];
    AppendInOrder(t, LookupMX);
    AppendInOrder(t + [LookupMX], CheckMXPresent);
  }

  lemma RunSmtpWellFormed(env: Env, email: string, host: string)
    ensures WellFormed(RunSmtp(env, email, host))
  {
    PrefixesInOrder();
    var t := MxStages + [Dial(host)];
    StopAfter(MxStages, Dial(host), [HttpBody]);
    if !env.dial(host) { return; }
    StopAfter(t, Mail, [HttpBody, SmtpClient]);
    if !env.mailOk { return; }
    StopAfter(t + [Mail], Rcpt, [HttpBody, SmtpClient]);
  }

  lemma RunMailServerWellFormed(env: Env, email: string, domain: string)
    ensures WellFormed(RunMailServer(env, email, domain))
  {
    PrefixesInOrder();
    StopAfter(ListStages, LookupMX, [HttpBody]);
    if env.lookupMX(domain).None? { return; }
    StopAfter(ListStages + [LookupMX], CheckMXPresent, [HttpBody]);
    var records := env.lookupMX(domain).value;
    if |records| == 0 { return; }
    RunSmtpWellFormed(env, email, records[MinIndex(records)].host);
  }

  lemma RunWithBodyWellFormed(env: Env, email: string, domain: string, t: seq<Stage>)
    requires InOrder(t) && |t| == StageIndex(ReadBody)
    ensures WellFormed(RunWithBody(env, email, domain, t))
  {
    StopAfter(t, ReadBody, [HttpBody]);
    if !env.readOk { return; }
    StopAfter(t + [ReadBody], Decode, [HttpBody]);
    if env.unmarshal.None? { return; }
    StopAfter(t + [ReadBody] + [Decode], CheckDisposable, [HttpBody]);
    if IsDisposable(domain, env.unmarshal.value) { return; }
    RunMailServerWellFormed(env, email, domain);
  }

  lemma RunFromDomainWellFormed(env: Env, email: string, domain: string)
    ensures WellFormed(RunFromDomain(env, email, domain))
  {
    PrefixesInOrder();
    var t := SyntaxStages + [LookupNS];
    StopAfter(SyntaxStages, LookupNS, []);
    if !env.lookupNS(domain) { return; }
    StopAfter(t, NewRequest, []);
    if !env.newRequestOk { return; }
    StopAfter(t + [NewRequest], Fetch, []);
    if !env.fetchOk { return; }
    RunWithBodyWellFormed(env, email, domain, t + [NewRequest] + [Fetch]);
  }

  /** Every run of the pipeline is well formed: stages run in order, the first failure
      ends the run, and the body and client are held exactly after their acquiring stage. */
  lemma RunWellFormed(env: Env, email: string)
    ensures WellFormed(Run(env, email))
  {
    var p := env.parseAddress(email);
    if p.Some? && ExtractDomain(p.value, email).Some? {
      RunFromDomainWellFormed(env, email, ExtractDomain(p.value, email).value);
    }
  }

  /** The domain the pipeline works on, once parsing and extraction succeed. */
  function DomainOf(env: Env, email: string): Option<string>
  {
    if env.parseAddress(email).None? then None
    else ExtractDomain(env.parseAddress(email).value, email)
  }

  /** Every call the pipeline makes succeeds: the address parses and has a usable domain,
      the NS lookup, the request, the fetch, the read and the decoding succeed, the domain is
      not on the list, the MX answer is non-empty, and the dial of the first exchanger of
      least preference, MAIL FROM and RCPT TO succeed. */
  predicate AllCallsSucceed(env: Env, email: string)
  {
    var d := DomainOf(env, email);
    d.Some? &&
    env.lookupNS(d.value) && env.newRequestOk && env.fetchOk && env.readOk &&
    env.unmarshal.Some? && !IsDisposable(d.value, env.unmarshal.value) &&
    env.lookupMX(d.value).Some? && |env.lookupMX(d.value).value| > 0 &&
    var records := env.lookupMX(d.value).value;
    env.dial(records[MinIndex(records)].host) && env.mailOk && env.rcpt(email)
  }

  /** No stage fails exactly when every call the pipeline makes succeeds. */
  lemma RunSucceedsIff(env: Env, email: string)
    ensures Run(env, email).failure.None? <==> AllCallsSucceed(env, email)
  {
  }

  /** Whether the call behind stage `s` succeeds in `env`. */
  predicate StageOk(env: Env, email: string, s: Stage)
  {
    var d := DomainOf(env, email);
    match s
    case Parse => env.parseAddress(email).Some?
    case Extract => d.Some?
    case LookupNS => d.Some? && env.lookupNS(d.value)
    case NewRequest => env.newRequestOk
    case Fetch => env.fetchOk
    case ReadBody => env.readOk
    case Decode => env.unmarshal.Some?
    case CheckDisposable => d.Some? && env.unmarshal.Some? && !IsDisposable(d.value, env.unmarshal.value)
    case LookupMX => d.Some? && env.lookupMX(d.value).Some?
    case CheckMXPresent => d.Some? && env.lookupMX(d.value).Some? && |env.lookupMX(d.value).value| > 0
    case Dial(h) => env.dial(h)
    case Mail => env.mailOk
    case Rcpt => env.rcpt(email)
  }

  /** Every stage of `t` succeeded in `env`. */
  predicate AllOk(env: Env, email: string, t: seq<Stage>)
  {
    forall k :: 0 <= k < |t| ==> StageOk(env, email, t[k])
  }

  /** First failure wins: every stage attempted before the last one succeeded, and the
      last one failed exactly when the run reports a failure. */
  predicate FailsFirstAtLast(env: Env, email: string, o: Outcome)
  {
    |o.trace| > 0 && AllOk(env, email, o.trace[..|o.trace| - 1]) &&
    (o.failure.Some? <==> !StageOk(env, email, o.trace[|o.trace| - 1]))
  }

  lemma AllOkAppend(env: Env, email: string, t: seq<Stage>, s: Stage)
    requires AllOk(env, email, t) && StageOk(env, email, s)
    ensures AllOk(env, email, t + [s])
  {
    assert forall k :: 0 <= k < |t| ==> (t + [s])[k] == t[k];
  }

  /** Stopping at a failing stage `s` after the successful stages `t`. */
  lemma StopFailsFirst(env: Env, email: string, t: seq<Stage>, s: Stage, acquired: seq<Resource>)
    requires AllOk(env, email, t) && !StageOk(env, email, s)
    ensures FailsFirstAtLast(env, email, Stop(t + [s], acquired))
  {
    assert (t + [s])[..|t|] == t;
  }

  /** A run that ends after the successful stages `t` and `s` without failure. */
  lemma SuccessFailsFirst(env: Env, email: string, t: seq<Stage>, s: Stage, acquired: seq<Resource>)
    requires AllOk(env, email, t) && StageOk(env, email, s)
    ensures FailsFirstAtLast(env, email, Outcome(t + [s], None, acquired))
  {
    assert (t + [s])[..|t|] == t;
  }

  lemma RunSmtpFailsFirst(env: Env, email: string, host: string)
    requires AllOk(env, email, MxStages)
    ensures FailsFirstAtLast(env, email, RunSmtp(env, email, host))
  {
    var t := MxStages;
    if !env.dial(host) {
      StopFailsFirst(env, email, t, Dial(host), [HttpBody]);
    } else {
      AllOkAppend(env, email, t, Dial(host));
      t := t + [Dial(host)];
      if !env.mailOk {
        StopFailsFirst(env, email, t, Mail, [HttpBody, SmtpClient]);
      } else {
        AllOkAppend(env, email, t, Mail);
        t := t + [Mail];
        if !env.rcpt(email) {
          StopFailsFirst(env, email, t, Rcpt, [HttpBody, SmtpClient]);
        } else {
          SuccessFailsFirst(env, email, t, Rcpt, [HttpBody, SmtpClient]);
        }
      }
    }
  }

  lemma RunMailServerFailsFirst(env: Env, email: string, domain: string)
    requires DomainOf(env, email) == Some(domain) && AllOk(env, email, ListStages)
    ensures FailsFirstAtLast(env, email, RunMailServer(env, email, domain))
  {
    var t := ListStages;
    if env.lookupMX(domain).None? {
      StopFailsFirst(env, email, t, LookupMX, [HttpBody]);
    } else {
      var records := env.lookupMX(domain).value;
      AllOkAppend(env, email, t, LookupMX);
      t := t + [LookupMX];
      if |records| == 0 {
        StopFailsFirst(env, email, t, CheckMXPresent, [HttpBody]);
      } else {
        AllOkAppend(env, email, t, CheckMXPresent);
        RunSmtpFailsFirst(env, email, records[MinIndex(records)].host);
      }
    }
  }

  lemma RunWithBodyFailsFirst(env: Env, email: string, domain: string, t: seq<Stage>)
    requires DomainOf(env, email) == Some(domain)
    requires t == SyntaxStages + [LookupNS] + [NewRequest] + [Fetch] && AllOk(env, email, t)
    ensures FailsFirstAtLast(env, email, RunWithBody(env, email, domain, t))
  {
    var t := t;
    if !env.readOk {
      StopFailsFirst(env, email, t, ReadBody, [HttpBody]);
    } else {
      AllOkAppend(env, email, t, ReadBody);
      t := t + [ReadBody];
      if env.unmarshal.None? {
        StopFailsFirst(env, email, t, Decode, [HttpBody]);
      } else {
        AllOkAppend(env, email, t, Decode);
        t := t + [Decode];
        if IsDisposable(domain, env.unmarshal.value) {
          StopFailsFirst(env, email, t, CheckDisposable, [HttpBody]);
        } else {
          AllOkAppend(env, email, t, CheckDisposable);
          RunMailServerFailsFirst(env, email, domain);
        }
      }
    }
  }

  lemma RunFromDomainFailsFirst(env: Env, email: string, domain: string)
    requires DomainOf(env, email) == Some(domain)
    ensures FailsFirstAtLast(env, email, RunFromDomain(env, email, domain))
  {
    var t := SyntaxStages;
    assert AllOk(env, email, t);
    if !env.lookupNS(domain) {
      StopFailsFirst(env, email, t, LookupNS, []);
    } else {
      AllOkAppend(env, email, t, LookupNS);
      t := t + [LookupNS];
      if !env.newRequestOk {
        StopFailsFirst(env, email, t, NewRequest, []);
      } else {
        AllOkAppend(env, email, t, NewRequest);
        t := t + [NewRequest];
        if !env.fetchOk {
          StopFailsFirst(env, email, t, Fetch, []);
        } else {
          AllOkAppend(env, email, t, Fetch);
          RunWithBodyFailsFirst(env, email, domain, t + [Fetch]);
        }
      }
    }
  }

  /** A run that stops at parsing or extraction. */
  lemma SyntaxFailsFirst(env: Env, email: string)
    requires DomainOf(env, email).None?
    ensures FailsFirstAtLast(env, email, Run(env, email))
  {
    if env.parseAddress(email).None? {
      assert Run(env, email) == Stop([] + [Parse], []);
      StopFailsFirst(env, email, [], Parse, []);
    } else {
      assert Run(env, email) == Stop([Parse] + [Extract], []);
      StopFailsFirst(env, email, [Parse], Extract, []);
    }
  }

  /** First failure wins: in every run, each stage attempted before the last succeeded in
      `env`, and the last one failed exactly when the run reports a failure. */
  lemma FirstFailureWins(env: Env, email: string)
    ensures FailsFirstAtLast(env, email, Run(env, email))
  {
    if DomainOf(env, email).None? {
      SyntaxFailsFirst(env, email);
    } else {
      RunFromDomainFailsFirst(env, email, DomainOf(env, email).value);
    }
  }

  /** A failing NS lookup ends the run at that stage with its own error: neither the list
      nor the mail server is consulted, and nothing is held, so nothing else is buffered. */
  lemma NSFailureStops(env: Env, email: string, domain: string)
    requires DomainOf(env, email) == Some(domain) && !env.lookupNS(domain)
    ensures Run(env, email).failure == Some(NSLookupError)
    ensures Run(env, email).trace == [Parse, Extract, LookupNS]
    ensures Buffered(env, email) == [Error(email, NSLookupError)]
  {
  }

  /** A parse failure is reported at once and nothing else is attempted. */
  lemma ParseFailureStopsAtOnce(env: Env, email: string)
    requires env.parseAddress(email).None?
    ensures Run(env, email).trace == [Parse]
    ensures Buffered(env, email) == [Error(email, ParseError)]
  {
  }

  /** A parsed address without '@', or whose last '@' is at or past the last character of
      the raw input, is an InvalidEmail and nothing after the extraction is attempted. */
  lemma UnusableAtIsInvalidEmail(env: Env, email: string, parsed: string)
    requires env.parseAddress(email) == Some(parsed)
    requires '@' !in parsed || LastIndex(parsed, '@') >= |email| - 1
    ensures Run(env, email).trace == [Parse, Extract]
    ensures Buffered(env, email) == [Error(email, InvalidEmail)]
  {
  }

  /** Once the list is decoded, the run fails with DisposableEmail exactly when some entry
      equals the domain up to case; then the MX lookup is never attempted and only the
      body's close can add an error. */
  lemma DisposableVerdict(env: Env, email: string, domain: string, list: seq<string>)
    requires ReachesListCheck(env, email, domain, list)
    ensures Run(env, email).failure == Some(DisposableEmail) <==> IsDisposable(domain, list)
    ensures IsDisposable(domain, list) ==>
              LookupMX !in Run(env, email).trace &&
              Buffered(env, email) == [Error(email, DisposableEmail)] + ReleaseErrors(env, email, HttpBody)
  {
  }

  /** An empty MX answer fails with NoMXRecords and no dial is attempted. */
  lemma NoMXRecordsNeverDials(env: Env, email: string, domain: string, list: seq<string>)
    requires ReachesListCheck(env, email, domain, list) && !IsDisposable(domain, list)
    requires env.lookupMX(domain) == Some([])
    ensures Run(env, email).failure == Some(NoMXRecords)
    ensures forall s :: s in Run(env, email).trace ==> !s.Dial?
    ensures Buffered(env, email) == [Error(email, NoMXRecords)] + ReleaseErrors(env, email, HttpBody)
  {
  }

  /** Past a non-empty MX answer the run is the SMTP probe of the chosen exchanger. */
  lemma ReachesSmtp(env: Env, email: string, domain: string, list: seq<string>, records: seq<MX>)
    requires ReachesListCheck(env, email, domain, list) && !IsDisposable(domain, list)
    requires env.lookupMX(domain) == Some(records) && |records| > 0
    ensures Run(env, email) == RunSmtp(env, email, records[MinIndex(records)].host)
  {
  }

  /** The SMTP probe dials `host` and nothing else. */
  lemma SmtpDialsOnlyHost(env: Env, email: string, host: string)
    ensures forall h :: Dial(h) in RunSmtp(env, email, host).trace <==> h == host
  {
    var o := RunSmtp(env, email, host);
    RunSmtpWellFormed(env, email, host);
    assert o.trace[|MxStages|] == Dial(host);
    forall h | Dial(h) in o.trace ensures h == host {
      var k :| 0 <= k < |o.trace| && o.trace[k] == Dial(h);
      assert StageIndex(o.trace[k]) == |MxStages|;
    }
  }

  /** With a non-empty MX answer the one dial attempted is to the first record of least
      preference. */
  lemma DialsPreferredExchanger(env: Env, email: string, domain: string, list: seq<string>, records: seq<MX>)
    requires ReachesListCheck(env, email, domain, list) && !IsDisposable(domain, list)
    requires env.lookupMX(domain) == Some(records) && |records| > 0
    ensures var chosen := records[MinIndex(records)];
            (forall j :: 0 <= j < |records| ==> chosen.pref <= records[j].pref) &&
            (forall j :: 0 <= j < MinIndex(records) ==> records[j].pref > chosen.pref) &&
            (forall h :: Dial(h) in Run(env, email).trace <==> h == chosen.host)
  {
    ReachesSmtp(env, email, domain, list, records);
    SmtpDialsOnlyHost(env, email, records[MinIndex(records)].host);
  }

  /** The channel contents of any well-formed run: at most three errors, all annotated
      with the address, the failing stage's error first if a stage failed, and after it only
      errors of closes; none of them is a timeout. */
  lemma BufferShapeOf(env: Env, email: string, o: Outcome)
    requires WellFormed(o)
    ensures var b := BufferedOf(env, email, o);
            |b| <= 3 &&
            (forall k :: 0 <= k < |b| ==> b[k].address == email && b[k].kind != Timeout) &&
            (o.failure.Some? ==> b[0] == Error(email, o.failure.value)) &&
            (forall k :: (if o.failure.Some? then 1 else 0) <= k < |b| ==>
                           b[k].kind in {BodyCloseError, ClientCloseError})
  {
    var b := BufferedOf(env, email, o);
    var c := CloseErrors(env, email, o.acquired);
    assert b == StageErrorsOf(email, o) + c;
    if o.failure.Some? {
      assert StageFailure(o.trace[|o.trace| - 1]) != Timeout;
      assert forall k :: 1 <= k < |b| ==> b[k] == c[k - 1];
    }
  }

  /** The channel holds at most three errors, all annotated with the address: the failing
      stage's error first, if a stage failed, and after it only errors of closes. */
  lemma BufferShape(env: Env, email: string)
    ensures var b := Buffered(env, email);
            var o := Run(env, email);
            |b| <= 3 &&
            (forall k :: 0 <= k < |b| ==> b[k].address == email && b[k].kind != Timeout) &&
            (o.failure.Some? ==> b[0] == Error(email, o.failure.value)) &&
            (forall k :: (if o.failure.Some? then 1 else 0) <= k < |b| ==>
                           b[k].kind in {BodyCloseError, ClientCloseError})
  {
    RunWellFormed(env, email);
    BufferShapeOf(env, email, Run(env, email));
  }

  /** Both resources are held once MAIL FROM has been attempted. */
  lemma HeldAfterMail(o: Outcome)
    requires WellFormed(o) && Mail in o.trace
    ensures o.acquired == [HttpBody, SmtpClient]
  {
    var k :| 0 <= k < |o.trace| && o.trace[k] == Mail;
    assert StageIndex(o.trace[k]) == k;
  }

  /** With both resources held, the client (acquired last) is closed first. */
  lemma CloseErrorsBothHeld(env: Env, email: string)
    ensures CloseErrors(env, email, [HttpBody, SmtpClient]) ==
              ReleaseErrors(env, email, SmtpClient) + ReleaseErrors(env, email, HttpBody)
  {
    assert [HttpBody, SmtpClient][1..] == [SmtpClient] && [SmtpClient][1..] == [];
    assert CloseErrors(env, email, [SmtpClient]) == ReleaseErrors(env, email, SmtpClient);
  }

  /** When both resources are held, the client is closed before the body, so a failing
      client close is reported before a failing body close. */
  lemma ClientClosedBeforeBody(env: Env, email: string)
    requires Mail in Run(env, email).trace
    ensures Buffered(env, email) ==
              StageErrors(env, email) + ReleaseErrors(env, email, SmtpClient) + ReleaseErrors(env, email, HttpBody)
  {
    RunWellFormed(env, email);
    HeldAfterMail(Run(env, email));
    CloseErrorsBothHeld(env, email);
  }

  /** The first value in the channel of a well-formed run: the failing stage's error, else a
      failing client close, else a failing body close, else nil. */
  lemma FirstBufferedOf(env: Env, email: string, o: Outcome)
    requires WellFormed(o)
    ensures var b := BufferedOf(env, email, o);
            (if b == [] then None else Some(b[0])) ==
              if o.failure.Some? then Some(Error(email, o.failure.value))
              else if !env.clientCloseOk then Some(Error(email, ClientCloseError))
              else if !env.bodyCloseOk then Some(Error(email, BodyCloseError))
              else None
  {
    if o.failure.None? {
      assert Mail in o.trace by {
        assert StageIndex(o.trace[StageIndex(Mail)]) == StageIndex(Mail);
      }
      HeldAfterMail(o);
      CloseErrorsBothHeld(env, email);
    }
  }

  /** The value Verify reports when the select takes the channel: the failing stage's
      error, else a failing client close, else a failing body close, else nil. */
  lemma VerifyReportsFirstFailure(env: Env, ctx: Option<Context>, email: string, takeDone: bool)
    requires !(Done(ctx) && takeDone)
    ensures var o := Run(env, email);
            VerifyResult(env, ctx, email, takeDone) ==
              if o.failure.Some? then Some(Error(email, o.failure.value))
              else if !env.clientCloseOk then Some(Error(email, ClientCloseError))
              else if !env.bodyCloseOk then Some(Error(email, BodyCloseError))
              else None
  {
    RunWellFormed(env, email);
    FirstBufferedOf(env, email, Run(env, email));
  }

  /** Verify reports nil (valid) exactly when the select takes the channel, every stage
      succeeds and both closes succeed; a failing close alone makes the address invalid. */
  lemma ValidIff(env: Env, ctx: Option<Context>, email: string, takeDone: bool)
    ensures VerifyResult(env, ctx, email, takeDone).None? <==>
              !(Done(ctx) && takeDone) && Run(env, email).failure.None? &&
              env.clientCloseOk && env.bodyCloseOk
  {
    if !(Done(ctx) && takeDone) {
      VerifyReportsFirstFailure(env, ctx, email, takeDone);
    }
  }

  /** Verify reports nil (valid) exactly when the select takes the channel, every call the
      pipeline makes succeeds, and both closes succeed. */
  lemma ValidIffCallsSucceed(env: Env, ctx: Option<Context>, email: string, takeDone: bool)
    ensures VerifyResult(env, ctx, email, takeDone).None? <==>
              !(Done(ctx) && takeDone) && AllCallsSucceed(env, email) &&
              env.clientCloseOk && env.bodyCloseOk
  {
    ValidIff(env, ctx, email, takeDone);
    RunSucceedsIff(env, email);
  }

  /** A timeout is reported only when the context is done and the select takes that case;
      a nil context, replaced by one that is never done, never times out. */
  lemma TimeoutOnlyWhenDone(env: Env, ctx: Option<Context>, email: string, takeDone: bool)
    ensures VerifyResult(env, ctx, email, takeDone) == Some(Error(email, Timeout)) <==> Done(ctx) && takeDone
    ensures VerifyResult(env, None, email, takeDone) == VerifyResult(env, Some(Context(false)), email, !takeDone)
  {
    BufferShape(env, email);
  }
}
