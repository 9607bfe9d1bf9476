/** Values exchanged with the JavaScript side of the plugin bridge: optional
    call arguments and the way a plugin call is settled. */
module PluginCall {

  /** An argument or host object that may be absent (Swift `nil`, Java `null`). */
  datatype Option<+T> = None | Some(value: T) {

    /** The value, or `default` when absent: the `?? default` of Swift and
        the two-argument `getBoolean`/`getString` of Java. */
    function GetOr(default: T): T {
      match this
      case Some(v) => v
      case None => default
    }
  }

  /** How a plugin call ends: `call.resolve()` or `call.reject(message)`. */
  datatype Outcome = Resolved | Rejected(message: string)
}
