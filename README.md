# Email address verification pipeline, modelled in Dafny

This project models the core of the `email` Go package: `signalVerification` and `Verify`
in `functions.go`. The pipeline decides whether an address is deliverable. It parses the
address and extracts its domain. It resolves the domain's NS records, fetches a JSON list
of disposable domains and checks the domain against it. It resolves the MX records, picks
the exchanger with the lowest preference, and probes it over SMTP with `MAIL FROM` and
`RCPT TO`.

Every network and library call is an input, held in the datatype `Pipeline.Env`. These
calls are `mail.ParseAddress`, `net.LookupNS`, `http.NewRequestWithContext`,
`http.DefaultClient.Do`, the body read, `json.Unmarshal`, `net.LookupMX`, `smtp.Dial`,
`MAIL FROM`, `RCPT TO` and the two `Close` calls. Calls that take an argument are
functions of it. So the model shows which domain is looked up, which host is dialled and
which address is offered to `RCPT TO`. What remains is the package's own logic:

- `Domain`: `strings.LastIndex` and the domain extraction (functions.go lines 46-52).
- `Disposable`: the case-insensitive scan of the disposable list (lines 98-109).
- `Mx`: the choice of mail exchanger, the first record of least preference (lines 127-135).
- `Channel`: the buffered Go channel `ch` of capacity 3 (`make`, send, `close`, receive),
  as a class with a `seq` buffer.
- `Pipeline`: the stages and the deferred closes.
  - `Run` is a reference definition of the run. It gives the stages attempted, the failure
    and the resources acquired.
  - The imperative methods `RunStages`, `CheckDomain`, `ProbeMailServer` and `ProbeSmtp`
    run the stages step by step. They push the first failure into the channel and keep
    Go's defer stack as a sequence.
  - `RunDeferred` unwinds that stack last-in first-out, so `close(ch)` runs last.
  - `SignalVerification` and `Verify` are proved equal to the reference definition.
- `PipelineProperties`: what the pipeline promises, proved over `Run`. Stages run in
  order, the first failure ends the run and is the first value read, at most three errors
  are buffered, the client is closed before the body, and `valid` holds iff the value read
  is nil.
- `Errors`: the kinds of error. The sentinels of `errors.go` are constructors here, next
  to one kind for each failing library or network call.

Behaviour as the code is written, which the model follows:

- The index of the last `@` is taken in the parsed address, but the domain is cut from
  the raw input. When the parser drops a display name the two differ.
  `Domain.ExtractDomainDisplayName` shows that for the parsed address `a@b` of the input
  `N <a@b>` the "domain" is `<a@b>`. When the parser returns the input unchanged, the
  domain is the part after the last `@` (`Domain.ExtractDomainOfPlainAddress`).
- A parse failure reports the parser's own error, not `ErrInvalidEmail`. `ErrInvalidEmail`
  is reported only by the `@` guard.
- The HTTP status code is never checked. Any response whose body reads and decodes is used.
- The stage error is pushed before the deferred closes run. A failing close pushes a
  further error even when every stage succeeded, and then the address is invalid.
- `select` evaluates `signalVerification(ctx, email)` before choosing a case. So the whole
  pipeline has run by the time the context is consulted, and a done context cannot
  preempt it. When the context is done, both cases are ready and Go picks either. The
  model takes that choice as the input `takeDone`.
- The match against the disposable list is exact up to case. A parent domain or a
  subdomain of a listed entry never matches.

Calling `Verify` twice with the same inputs gives the same result, because the model is a
function of its inputs.

## Model

| member | source | states |
|---|---|---|
| Channel.Chan.constructor | functions.go:35 | `make(chan error, 3)`: an open, empty channel of the given capacity |
| Channel.Chan.Send | functions.go:43 | `ch <- err` on an open channel with room appends the error and leaves it open |
| Channel.Chan.Close | functions.go:36 | `close(ch)` closes the channel and keeps what is buffered |
| Channel.Chan.Receive | functions.go:20 | `<-ch` returns the oldest buffered error and removes it, or nil from a closed, drained channel |
| Domain.LastIndex | functions.go:46 | the result is -1 exactly when the character is absent; otherwise the character is at that index and nowhere after it |
| Domain.ExtractDomain | functions.go:46-52 | no domain exactly when the parsed address has no `@` or its last `@` is at index `>= len(raw)-1`; otherwise the domain is `raw[i+1:]` for the last `@` at index `i` of the parsed address, and it is a non-empty suffix of the raw input |
| Domain.ExtractDomainOfPlainAddress | functions.go:46-52 | when the parsed address equals the input, the domain is non-empty, holds no `@`, and the input is `local + "@" + domain` |
| Domain.ExtractDomainDisplayName | functions.go:46-52 | the index from the parsed address is applied to the raw input: for `a@b` parsed from `N <a@b>`, the domain is `<a@b>` |
| Domain.ExtractDomainRejects | functions.go:47-51 | examples the guard rejects: a parsed address without `@`, an empty input, or a parsed address that is the input with `@` as its last character; the general case, a last `@` at index `>= len(email)-1`, is `Domain.ExtractDomain`'s own contract |
| Disposable.ScanDisposable | functions.go:98-104 | the scan reports a hit exactly when some list entry equals the domain up to case |
| Disposable.EqualFold | functions.go:99 | `strings.EqualFold`: two strings are equal up to case exactly when they have the same length and agree character by character after folding |
| Disposable.EqualFoldSameLength | functions.go:99 | strings equal up to case have the same length |
| Disposable.NoPartialMatch | functions.go:98-104 | a list whose entries all differ in length from the domain (its parents, subdomains, superstrings) never makes it disposable |
| Disposable.DisposableIgnoresCase | functions.go:98-104 | two domains equal up to case get the same verdict |
| Disposable.DisposableIgnoresOrder | functions.go:98-104 | two lists holding the same entries, in any order or multiplicity, give the same verdict |
| Disposable.DisposableWhenListed | functions.go:98-104 | a list holding the domain in any mix of case makes it disposable |
| Disposable.DisposableWhenListedLowerCase | functions.go:98-104 | a domain whose lower-cased form is a list entry is disposable, whatever case it is written in |
| Mx.MinIndex | functions.go:127-135 | the index is that of a record whose preference is at most every record's, and every earlier record has a strictly greater preference |
| Mx.FirstMinimalUnique | functions.go:127-135 | the first record of least preference is unique, so it is the one `MinIndex` gives |
| Mx.SelectMX | functions.go:127-135 | the loop returns a preference at most every record's, and the host and preference of the first record of least preference |
| Mx.SelectionExample | functions.go:127-135 | for preferences 20, 10, 10 the second record is chosen |
| Pipeline.CloseErrors | functions.go:143-150 | the deferred closes push no more errors than there are acquired resources, each a close error annotated with the address (their order is `PipelineProperties.CloseErrorsBothHeld`) |
| Pipeline.StageFailure | functions.go:40-162 | the error a failing stage pushes is never a timeout and never a close error |
| Pipeline.Run | functions.go:40-163 | the reference run: at least one stage is attempted and at most two resources are held; a failure is that of the last stage attempted; a run without failure attempts all 13 stages and holds the body and the client; a resource is held only once parsing and extraction succeeded |
| Pipeline.RunFromDomain | functions.go:56-84 | the same for the run after the domain is known; the body is held exactly when the NS lookup, the request and the fetch succeeded |
| Pipeline.RunWithBody | functions.go:85-109 | the same for the run after the fetch; the body is held whatever happens |
| Pipeline.RunMailServer | functions.go:113-135 | the same for the MX lookup and the probe; the body is held whatever happens |
| Pipeline.RunSmtp | functions.go:136-162 | the same for the SMTP probe; its first stage is the dial of the chosen host, and the client is held exactly when that dial succeeded |
| Pipeline.Buffered | functions.go:35-163 | the channel's contents when `signalVerification` returns: at most 3 errors, each annotated with the address and none a timeout |
| Pipeline.VerifyResult | functions.go:15-29 | the value `Verify` reports: annotated with the address; a timeout exactly when the context is done and the select takes that case; otherwise an error from the buffer; nil only when no stage failed |
| Pipeline.RunStages | functions.go:40-52 | the stage part of `signalVerification` leaves the channel open, holding exactly the error of the first failing stage, if any; it also returns the stages attempted and the defer stack the reference run implies |
| Pipeline.CheckDomain | functions.go:56-109 | the same for the NS lookup, the list fetch, read and decode, and the disposable scan, relative to the known domain |
| Pipeline.ProbeMailServer | functions.go:113-135 | the same for the MX lookup, the empty-answer check and the choice of exchanger |
| Pipeline.ProbeSmtp | functions.go:136-162 | the same for the dial, `MAIL FROM` and `RCPT TO`; the client's close is deferred only after a successful dial |
| Pipeline.RunDeferred | functions.go:143-150 | the deferred calls run last-in first-out: each failing release pushes its close error (the client's before the body's), then the channel is closed |
| Pipeline.DeferStacksOfPipeline | functions.go:77-84 | the defer stack is `close(ch)` alone, then the body's close, then the client's close |
| Pipeline.AcquiredAtMostTwo | functions.go:35 | the stage error and the close errors together fit the channel's three slots |
| Pipeline.SignalVerification | functions.go:31-164 | the returned channel is closed, has capacity 3, and holds the stage error followed by the close errors |
| Pipeline.Verify | functions.go:15-29 | the reported error is the timeout when the context is done and the select takes it, else the first buffered error or nil; `valid` holds exactly when that error is nil |
| PipelineProperties.RunSmtpWellFormed | functions.go:136-162 | the SMTP part of a run is well formed |
| PipelineProperties.RunMailServerWellFormed | functions.go:113-135 | the MX part of a run is well formed |
| PipelineProperties.RunWithBodyWellFormed | functions.go:85-109 | the part of a run with the HTTP body open is well formed |
| PipelineProperties.RunFromDomainWellFormed | functions.go:56-84 | the part of a run after the domain is known is well formed |
| PipelineProperties.RunWellFormed | functions.go:40-163 | every run attempts stages in pipeline order with none skipped. A failure is the last stage's own, so nothing after it runs. A run without failure attempts all 13 stages. The body is held exactly after a successful fetch, the client exactly after a successful dial |
| PipelineProperties.RunSucceedsIff | functions.go:40-162 | no stage fails exactly when every call succeeds: parse, a usable `@`, the NS lookup, the request, the fetch, the read and the decoding, a domain not on the list, a non-empty MX answer, and the dial of the first exchanger of least preference, `MAIL FROM` and `RCPT TO` |
| PipelineProperties.FirstFailureWins | functions.go:40-162 | in every run each stage attempted before the last succeeded in the given outcomes of the calls, and the last one failed exactly when the run reports a failure |
| PipelineProperties.NSFailureStops | functions.go:56-61 | a failing NS lookup ends the run after parse, extraction and the lookup with `NSLookupError`; the list and the mail server are never consulted, and that error is the only one buffered |
| PipelineProperties.ParseFailureStopsAtOnce | functions.go:40-45 | a parse failure is the only stage attempted and the only error buffered |
| PipelineProperties.UnusableAtIsInvalidEmail | functions.go:46-51 | no `@` in the parsed address, or the last `@` at index `>= len(email)-1`, gives exactly `InvalidEmail` after parse and extraction, with nothing after them |
| PipelineProperties.DisposableVerdict | functions.go:98-109 | once the list is decoded, the run fails with `DisposableEmail` iff some entry equals the domain up to case; then no MX lookup happens and only the body's close can add an error |
| PipelineProperties.NoMXRecordsNeverDials | functions.go:119-123 | an empty MX answer fails with `NoMXRecords`, no dial is attempted, and only the body's close can add an error |
| PipelineProperties.ReachesSmtp | functions.go:113-135 | past a non-empty MX answer the run is the SMTP probe of the chosen exchanger |
| PipelineProperties.SmtpDialsOnlyHost | functions.go:136-142 | the SMTP probe dials the chosen host and no other |
| PipelineProperties.DialsPreferredExchanger | functions.go:127-142 | with a non-empty MX answer, the one host dialled is that of the first record of least preference |
| PipelineProperties.BufferShapeOf | functions.go:35-163 | for any well-formed run the buffer holds at most 3 errors, all annotated with the address and none a timeout; the failing stage's error is first, followed only by close errors |
| PipelineProperties.BufferShape | functions.go:35-163 | the same for the buffer `signalVerification` returns |
| PipelineProperties.HeldAfterMail | functions.go:137-151 | once `MAIL FROM` is attempted both the body and the client are held |
| PipelineProperties.CloseErrorsBothHeld | functions.go:143-150 | with both resources held, the client's close error comes before the body's |
| PipelineProperties.ClientClosedBeforeBody | functions.go:143-150 | when the client was acquired, the buffer is the stage error, then the client's close error, then the body's |
| PipelineProperties.FirstBufferedOf | functions.go:20 | the first value read from a well-formed run's buffer: the stage error, else the client's close error, else the body's, else nil |
| PipelineProperties.VerifyReportsFirstFailure | functions.go:19-28 | when the select takes the channel, `Verify` reports the first failing stage's error, else a failing client close, else a failing body close, else nil |
| PipelineProperties.ValidIff | functions.go:24-28 | the result is valid iff the select takes the channel, every stage succeeds and both closes succeed; a failing close alone makes the address invalid |
| PipelineProperties.ValidIffCallsSucceed | functions.go:15-162 | `Verify` reports nil exactly when the select takes the channel, every call the pipeline makes succeeds, and both closes succeed |
| PipelineProperties.TimeoutOnlyWhenDone | functions.go:16-23 | a timeout is reported iff the context is done and the select takes that case; a nil context behaves as one that is never done |

## Left out

- Network and library calls (DNS NS and MX lookups, the HTTP request, the body read, the
  JSON decoding, SMTP dial, `MAIL FROM`, `RCPT TO` and the closes) are inputs of the model,
  given by `Pipeline.Env`. Their own behaviour, and the bytes they exchange, are not
  modelled.
- `mail.ParseAddress` is an input giving the parsed address or an error. The RFC 5322
  grammar it implements is not modelled.
- `json.Unmarshal` is an input giving the list or an error. Its result does not depend on
  the bytes read.
- Domain.ExtractDomain counts the `@` index and the input's length in characters, where
  Go's `strings.LastIndex`, `len(email)` and `email[i+1:]` count UTF-8 bytes. The model
  agrees with Go when the input is ASCII or when the parsed address equals the input. When
  the parser drops non-ASCII text before the cut, Go cuts at another offset, possibly
  inside a character, and the model's domain differs.
- Domain.ExtractDomainRejects states the guard in characters. With a non-ASCII input, such
  as raw `aé` parsed to `a@`, Go's guard in bytes can accept where the lemma rejects.
- PipelineProperties.UnusableAtIsInvalidEmail inherits the same character count. It
  agrees with Go on ASCII input and when the parsed address equals the input.
- Disposable.EqualFold folds ASCII letters only. `strings.EqualFold` uses Unicode simple
  case folding, so the model does not match non-ASCII letters that differ only in case.
- Pipeline.Verify models the `select` race as the input `takeDone`. It does not model
  timing, goroutines or how `ctx` cancels the HTTP request. A cancelled context makes
  `http.DefaultClient.Do` fail, or `ioutil.ReadAll(resp.Body)` fail when it comes during
  the read. Those effects are folded into the `fetchOk` and `readOk` inputs. `ErrTimeout` is not defined in the package's files, so it is the kind
  `Timeout` here.
- Error messages are not modelled. Each error is a kind plus the address it is prefixed
  with, and the double wrapping of the disposable error is not shown.
- `disposableEmailsURL`, `smtpPort` and `fromEmail` are not defined in the package's files.
  The URL and the sender appear only through the outcome of the request and of
  `MAIL FROM`. The port is not part of the dialled host.
- `email_test.go` is not modelled. Its cases depend on live DNS, HTTP and SMTP, and it
  calls `Verify` with one argument where the function takes two.
