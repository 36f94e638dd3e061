/**
 The process-wide `unhandledRejection` listener: it stays silent for cancellation-shaped
 rejections and logs every other one. Only that decision is modelled.
 */
module RejectionFilter {
  import opened Wrappers
  import opened Strings
  import opened Abort
  import Route

  /**
   The listener reads `reason?.name`, `reason?.code` and `reason?.message`. `None` is a reason
   that is `null`, `undefined` or a primitive: every optional-chained read of it is `undefined`.
   */
  type Reason = Option<ErrorShape>

  /**
   The listener returns early, printing nothing, exactly for an object reason named `AbortError`,
   coded 20, or whose message contains `aborted`; every other reason is logged.
   */
  function GlobalSilences(reason: Reason): (b: bool)
    ensures b <==>
      && reason.Some?
      && ( || reason.value.name == Some("AbortError")
           || reason.value.code == Some(20)
           || (reason.value.message.Some? && Contains(reason.value.message.value, "aborted")))
  {
    match reason
    case None => false
    case Some(e) => IsAbortShaped(e)
  }

  /** Example: a `null`, `undefined` or primitive reason is logged. */
  lemma NonObjectReasonLogged()
    ensures !GlobalSilences(None)
  {
  }

  /** The filter and the handler agree: silent for a reason exactly when the handler answers it 499. */
  lemma FilterAgreesWithHandler(e: ErrorShape)
    ensures GlobalSilences(Some(e)) <==> Route.ResponseStatus(Route.Threw(e)) == 499
    ensures !GlobalSilences(Some(e)) <==> Route.ResponseStatus(Route.Threw(e)) in {503, 500}
  {
  }
}
