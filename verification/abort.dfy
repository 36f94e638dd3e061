/**
 The shape of a thrown error or rejection reason, and the "abort-shaped" test that both the
 request handler and the process-wide rejection filter apply to it.
 */
module Abort {
  import opened Wrappers
  import opened Strings

  /**
   The three properties of a thrown value that the route inspects. Only string messages are
   modelled; `None` is a message that is absent. A `name` that is not a string, and a `code`
   that is not an integral number, is `None` too: no `===` test against the constants below
   can succeed on it.
   */
  datatype ErrorShape = ErrorShape(name: Option<string>, code: Option<int>, message: Option<string>)

  /** `name` of the error a cancelled fetch raises. */
  const AbortErrorName: string := "AbortError"
  /** Legacy DOMException code `ABORT_ERR`. */
  const AbortCode: int := 20
  /** Word whose presence in the message marks a cancellation. */
  const AbortedWord: string := "aborted"

  /** JavaScript truthiness of a string-or-undefined property: present and non-empty. */
  predicate Truthy(m: Option<string>) {
    m.Some? && m.value != ""
  }

  /** `x.message && x.message.includes(word)`. */
  predicate MessageIncludes(m: Option<string>, word: string) {
    Truthy(m) && Includes(m.value, word)
  }

  /** The truthiness guard only matters for the empty word: otherwise it is "present and contains". */
  lemma MessageIncludesIff(m: Option<string>, word: string)
    requires word != ""
    ensures MessageIncludes(m, word) <==> m.Some? && Contains(m.value, word)
  {
  }

  /**
   The abort test written the way the route writes it, with `===`, `&&` and `includes`; it holds
   exactly for an error named `AbortError`, or coded 20, or whose message contains `aborted`.
   */
  function IsAbortShaped(e: ErrorShape): (b: bool)
    ensures b <==>
      || e.name == Some("AbortError")
      || e.code == Some(20)
      || (e.message.Some? && Contains(e.message.value, "aborted"))
  {
    || e.name == Some(AbortErrorName)
    || e.code == Some(AbortCode)
    || MessageIncludes(e.message, AbortedWord)
  }

  /** Example: a lone message `Aborted` (capital A) is not abort-shaped. */
  lemma CapitalisedAbortedIsNotAbort()
    ensures !IsAbortShaped(ErrorShape(None, None, Some("Aborted")))
  {
    assert "Aborted"[0] != "aborted"[0];
  }
}
