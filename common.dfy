/** Option, result and error values shared by the plugin runtime model. */
module Common {

  datatype Option<+T> = None | Some(value: T) {
    function GetOr(default: T): T {
      match this
      case Some(v) => v
      case None => default
    }
  }

  /** The error kinds the runtime raises. */
  datatype Error =
    /** `SystemError('no such plugin ...')`: neither a plugin nor a matching id was given. */
    | NoSuchPlugin(id: Option<string>)
    /** An exception raised by plugin code (a hook or a contributor's initialiser), passed on verbatim. */
    | Raised(exception: string)
    /** `ValueError`: one plugin has several attributes feeding the same extension point. */
    | AmbiguousContribution(point: string)
    /** `SystemError`: a service attribute was assigned to. */
    | ServiceNotAssignable(attribute: string)
    /** Removing a plugin that is not registered: taken to raise, as `list.remove` does. */
    | NotRegistered(pluginId: string)

  datatype Result<+T> = Ok(value: T) | Err(error: Error)

  /** What a call that returns nothing in the source ends with: normally, or by raising. */
  datatype Outcome = Pass | Fail(error: Error)
}
