/** What every part of the controller uses: values that may be missing, and the outcome of
    one atomic save of a private file. */
module Shared {
  datatype Option<+T> = None | Some(value: T)

  /** A save can report failure after the rename already replaced the file, so both contents
      are possible after a failure. */
  datatype SaveOutcome = Saved | FailedKeptOld | FailedReplaced
}
