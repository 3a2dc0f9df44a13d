/** Exceptions as values. The platform's `PluginException` (with its subclass
    `ConnectionTestException`) carries a cause, an assistance text and data;
    every other Python exception is kept with its type name and message. */
module Errors {
  import opened PyValue

  datatype Error =
    | Plugin(cause: string, assistance: string, data: string)
    | ConnectionTest(cause: string, assistance: string, data: string)
    | Other(typeName: string, message: string)
  {
    /** `isinstance(e, PluginException)`: a ConnectionTestException is one. */
    predicate IsPluginException() {
      Plugin? || ConnectionTest?
    }
  }

  datatype Result<T> = Ok(value: T) | Err(error: Error)

  /** `str(e)`. For platform exceptions the runtime's exact rendering is not
      modelled; the model joins cause and assistance. */
  function Text(e: Error): string {
    match e
    case Plugin(c, a, _) => c + " " + a
    case ConnectionTest(c, a, _) => c + " " + a
    case Other(_, m) => m
  }

  /** `type(e).__name__`. */
  function TypeName(e: Error): string {
    match e
    case Plugin(_, _, _) => "PluginException"
    case ConnectionTest(_, _, _) => "ConnectionTestException"
    case Other(t, _) => t
  }

  /** The newer actions' handler pair: `except PluginException: raise` then
      `except Exception as e: raise PluginException(cause, f"{type(e).__name__}: {str(e)[:200]}")`. */
  function Rethrow(e: Error, cause: string): (r: Error)
    ensures e.IsPluginException() ==> r == e
    ensures !e.IsPluginException() ==>
      r.Plugin? && r.cause == cause && r.data == ""
      && r.assistance == TypeName(e) + ": " + Take(Text(e), 200)
      && |r.assistance| <= |TypeName(e)| + 2 + 200
  {
    if e.IsPluginException() then e else Plugin(cause, TypeName(e) + ": " + Take(Text(e), 200), "")
  }

  /** The agent and user lookups' handler pair: `except PluginException:
      raise` then `except Exception as e: raise PluginException(cause=...,
      assistance=str(e))`. */
  function RethrowText(e: Error, cause: string): (r: Error)
    // whatever was raised, a PluginException leaves the action
    ensures r.IsPluginException()
    ensures e.IsPluginException() ==> r == e
    // a foreign exception keeps its message, but not its type, as assistance
    ensures !e.IsPluginException() ==> r.Plugin? && r.cause == cause && Text(r) == cause + " " + Text(e)
    ensures !e.IsPluginException() ==> r.assistance == Text(e) && r.data == ""
  {
    if e.IsPluginException() then e else Plugin(cause, Text(e), "")
  }

  /** An outer handler of the same shape changes nothing: the innermost
      cause is the one reported. */
  lemma RethrowTextStable(e: Error, inner: string, outer: string)
    ensures RethrowText(RethrowText(e, inner), outer) == RethrowText(e, inner)
    ensures Rethrow(RethrowText(e, inner), outer) == RethrowText(e, inner)
  {
  }

  /** The older actions' single handler: `except Exception as e: raise
      PluginException(cause=..., assistance=str(e))`, which also rewraps the
      action's own PluginExceptions. */
  function Rewrap(e: Error, cause: string): (r: Error)
    // always a plain PluginException with the action's cause
    ensures r.Plugin? && r.cause == cause
    // the original message follows the cause in the new one's text
    ensures Text(r) == cause + " " + Text(e)
    ensures r.assistance == Text(e) && r.data == ""
  {
    Plugin(cause, Text(e), "")
  }

  /** Only the message of what was raised survives the rewrap: its type and,
      for a PluginException, the split into cause and assistance are lost. */
  lemma RewrapKeepsOnlyText(e1: Error, e2: Error, cause: string)
    requires Text(e1) == Text(e2)
    ensures Rewrap(e1, cause) == Rewrap(e2, cause)
  {
  }

  /** The error Python raises when an attribute is looked up on a value that
      does not have it (`None.get`, `"x".get`, `5.rstrip`). */
  function NoAttribute(v: Value, attr: string): Error {
    Other(AttributeError, "object " + PyStr(v) + HasNoAttribute + attr + "'")
  }

  const AttributeError := "AttributeError"
  const HasNoAttribute := " has no attribute '"
}
