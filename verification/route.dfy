/**
 The outcome classification of the `POST` handler: given how the delegated `handleRequest`
 call ended, choose the response sent to the client. The request itself (and the body the
 handler parses for logging only) is not an input: no classification depends on it.
 */
module Route {
  import opened Wrappers
  import opened Strings
  import opened Abort

  /** How the delegated call ended: it returned a response with a status, or it threw. */
  datatype Outcome = Returned(status: int) | Threw(error: ErrorShape)

  /** The three localized explanations the handler can put in a `message` field. */
  datatype Notice =
    | BackendUnavailable   // the delegate answered 500
    | BackendUnreachable   // the delegate threw a network-shaped error
    | RequestFailed        // the delegate threw anything else

  /** JSON body `{error, message}` of a synthesized response. */
  datatype ErrorBody = ErrorBody(error: string, message: Notice)

  /** Either the delegate's own response, unchanged, or a response the handler builds. */
  datatype Reply = Relay | Synth(status: int, body: Option<ErrorBody>)

  const ClientClosedRequest: int := 499
  const ServiceUnavailable: int := 503
  const InternalServerError: int := 500

  const ServiceUnavailableText: string := "Service Unavailable"
  const InternalServerErrorText: string := "Internal Server Error"

  /** Reference form of the network test: the message is present and contains one of the words. */
  ghost predicate NetworkShaped(m: Option<string>) {
    m.Some? && (Contains(m.value, "fetch") || Contains(m.value, "network"))
  }

  /**
   `message && (message.includes('fetch') || message.includes('network'))`: holds exactly when
   the message is present and contains `fetch` or `network`.
   */
  function MentionsNetwork(m: Option<string>): (b: bool)
    ensures b <==> NetworkShaped(m)
  {
    MessageIncludes(m, "fetch") || MessageIncludes(m, "network")
  }

  /** The decision table of the handler, checks taken in the order the handler makes them. */
  function Classify(o: Outcome): (r: Reply)
    ensures o.Returned? ==> (r.Relay? <==> o.status != InternalServerError)
    ensures o.Threw? ==> r.Synth? && r.status in {ClientClosedRequest, ServiceUnavailable, InternalServerError}
    ensures r.Synth? ==> (r.body.None? <==> r.status == ClientClosedRequest)
    ensures r.Synth? && r.body.Some? ==>
      r.body.value.error == (if r.status == ServiceUnavailable then ServiceUnavailableText else InternalServerErrorText)
  {
    match o
    case Returned(status) =>
      if status == InternalServerError then
        Synth(ServiceUnavailable, Some(ErrorBody(ServiceUnavailableText, BackendUnavailable)))
      else
        Relay
    case Threw(e) =>
      if IsAbortShaped(e) then
        Synth(ClientClosedRequest, None)
      else if MentionsNetwork(e.message) then
        Synth(ServiceUnavailable, Some(ErrorBody(ServiceUnavailableText, BackendUnreachable)))
      else
        Synth(InternalServerError, Some(ErrorBody(InternalServerErrorText, RequestFailed)))
  }

  /** The status the client receives. */
  function ResponseStatus(o: Outcome): (s: int)
    ensures o.Returned? && o.status != InternalServerError ==> s == o.status
    ensures o.Returned? ==> s != InternalServerError
    ensures o.Threw? ==> s in {ClientClosedRequest, ServiceUnavailable, InternalServerError}
  {
    match Classify(o)
    case Relay => o.status
    case Synth(status, _) => status
  }

  /** A thrown error gets the empty 499 response exactly when it is abort-shaped. */
  lemma ThrownAbortIff(e: ErrorShape)
    ensures Classify(Threw(e)) == Synth(499, None) <==>
      || e.name == Some("AbortError")
      || e.code == Some(20)
      || (e.message.Some? && Contains(e.message.value, "aborted"))
  {
  }

  /** A name or code match gives 499 whatever the message says, or if there is none. */
  lemma AbortIgnoresMessage(e: ErrorShape, m: Option<string>)
    requires e.name == Some("AbortError") || e.code == Some(20)
    ensures Classify(Threw(e.(message := m))) == Synth(499, None)
  {
  }

  /** The abort check comes first: `aborted` next to `network` or `fetch` still gives 499, not 503. */
  lemma AbortTakesPrecedence(e: ErrorShape)
    requires e.message.Some? && Contains(e.message.value, "aborted")
    requires NetworkShaped(e.message)
    ensures Classify(Threw(e)) == Synth(499, None)
    ensures ResponseStatus(Threw(e)) != 503
  {
  }

  /** 503 for a thrown error exactly when it is not abort-shaped and mentions `fetch` or `network`. */
  lemma NetworkFailureIff(e: ErrorShape)
    ensures Classify(Threw(e)) == Synth(503, Some(ErrorBody("Service Unavailable", BackendUnreachable))) <==>
      !IsAbortShaped(e) && NetworkShaped(e.message)
    ensures ResponseStatus(Threw(e)) == 503 <==> !IsAbortShaped(e) && NetworkShaped(e.message)
  {
  }

  /** 500 for a thrown error exactly when it is neither abort-shaped nor network-shaped. */
  lemma UnclassifiedFailureIff(e: ErrorShape)
    ensures Classify(Threw(e)) == Synth(500, Some(ErrorBody("Internal Server Error", RequestFailed))) <==>
      !IsAbortShaped(e) && !NetworkShaped(e.message)
    ensures ResponseStatus(Threw(e)) == 500 <==> !IsAbortShaped(e) && !NetworkShaped(e.message)
  {
  }

  /** An error without a message that is neither named `AbortError` nor coded 20 gets 500. */
  lemma MissingMessageYields500(name: Option<string>, code: Option<int>)
    requires name != Some("AbortError") && code != Some(20)
    ensures Classify(Threw(ErrorShape(name, code, None))) ==
      Synth(500, Some(ErrorBody("Internal Server Error", RequestFailed)))
  {
  }

  /** The 503 and 500 bodies carry both fields; only the 499 reply is empty. */
  lemma ThrownBodies(e: ErrorShape)
    ensures var r := Classify(Threw(e));
      && (r.status == 499 ==> r.body.None?)
      && (r.status != 499 ==> r.body.Some? && r.body.value.error in {"Service Unavailable", "Internal Server Error"})
  {
  }

  /** A delegate 500 becomes a 503 with a body; every other returned status is relayed unchanged. */
  lemma ReturnedRemap(status: int)
    ensures status == 500 ==>
      Classify(Returned(status)) == Synth(503, Some(ErrorBody("Service Unavailable", BackendUnavailable)))
    ensures status != 500 ==> Classify(Returned(status)).Relay? && ResponseStatus(Returned(status)) == status
  {
  }

  /** A client sees 500 only when the delegate threw an unclassified error, never from a delegate 500. */
  lemma Status500Origin(o: Outcome)
    ensures ResponseStatus(o) == 500 <==> o.Threw? && !IsAbortShaped(o.error) && !NetworkShaped(o.error.message)
  {
  }

  /** A client sees 499 when the delegate answered 499 itself, or threw an abort-shaped error. */
  lemma Status499Origin(o: Outcome)
    ensures ResponseStatus(o) == 499 <==>
      || (o.Returned? && o.status == 499)
      || (o.Threw? && IsAbortShaped(o.error))
  {
  }

  /** A client sees 503 when the delegate answered 500 or 503, or threw a network-shaped error. */
  lemma Status503Origin(o: Outcome)
    ensures ResponseStatus(o) == 503 <==>
      || (o.Returned? && o.status in {500, 503})
      || (o.Threw? && !IsAbortShaped(o.error) && NetworkShaped(o.error.message))
  {
  }

  /** Example: `{name: "AbortError"}` thrown gives an empty 499. */
  lemma ExampleAbortError()
    ensures Classify(Threw(ErrorShape(Some("AbortError"), None, None))) == Synth(499, None)
  {
  }

  /** Example: a `fetch failed` error gives 503. */
  lemma ExampleFetchFailed()
    ensures ResponseStatus(Threw(ErrorShape(None, None, Some("fetch failed")))) == 503
  {
    var m := "fetch failed";
    assert OccursAt(m, "fetch", 0);
    NotContainsByFirstChar(m, "aborted");
  }

  /** Example: a lone message `Aborted` (capital A) gives 500. */
  lemma ExampleCapitalisedAborted()
    ensures ResponseStatus(Threw(ErrorShape(None, None, Some("Aborted")))) == 500
  {
    var m := "Aborted";
    CapitalisedAbortedIsNotAbort();
    assert !MentionsNetwork(Some(m)) by {
      assert !("fetch" <= m);
      assert !("fetch" <= m[1..]);
      assert !("network" <= m);
    }
  }
}
