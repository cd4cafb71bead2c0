/** Error kinds of the verification pipeline.  The three sentinels of errors.go are
    `InvalidEmail`, `DisposableEmail` and `NoMXRecords`; every other kind stands for an
    error produced by a library or network call, told apart by the step that produced it.
    Formatted message text is not modelled, only the kind and the address it is annotated with. */
module Errors {
  datatype Failure =
    | ParseError          // mail.ParseAddress rejected the input
    | InvalidEmail        // ErrInvalidEmail: no usable '@' in the parsed address
    | NSLookupError       // net.LookupNS failed
    | RequestError        // http.NewRequestWithContext failed
    | FetchError          // http.DefaultClient.Do failed
    | ReadError           // reading the response body failed
    | DecodeError         // json.Unmarshal failed
    | DisposableEmail     // ErrDisposableEmail
    | MXLookupError       // net.LookupMX failed
    | NoMXRecords         // ErrNoMXRecords
    | DialError           // smtp.Dial failed
    | MailError           // MAIL FROM rejected
    | RcptError           // RCPT TO rejected
    | BodyCloseError      // closing the HTTP response body failed
    | ClientCloseError    // closing the SMTP client failed
    | Timeout             // the context was done and the select took that case

  /** Every error the pipeline reports is prefixed with the address under verification. */
  datatype Error = Error(address: string, kind: Failure)
}
