/**
 * Failure-carrying values shared by the whole rule engine: optional values,
 * results, the exceptions the engine raises, and the drained form of a
 * Python generator.
 */
module Base {

  datatype Option<+T> = None | Some(value: T)

  datatype Result<+T> = Ok(value: T) | Err(error: Error)

  /** The exceptions the rule engine raises or lets through, one constructor per cause. */
  datatype Error =
    | UnknownOption(optionId: string)            // Cleaner.get_commands / get_deep_scan
    | UnknownRunningTest(test: string)           // Cleaner.is_running
    | UnknownOperatingSystem(platform: string)   // CleanerML.os_match
    | InvalidCommand(command: string)            // CleanerML.handle_cleaner_option_action
    | MissingElement(tag: string)                // IndexError of getElementsByTagName(tag)[0]
    | NotAPath(repr: string)                     // create_simple_cleaner given a non-string
    | Fault(detail: string)                      // raised inside a collaborator (provider, plugin, parser)

  /**
   * A generator drained by a `for` loop: the items it yielded, in order, and
   * the exception that ended it, if one did.  A generator that raises after
   * yielding k items is `Yield(<those k items>, Some(e))`.
   */
  datatype Yield<+T> = Yield(items: seq<T>, raised: Option<Error>)
}
