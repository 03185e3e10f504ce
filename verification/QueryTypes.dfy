/** Enumerations and small wrappers shared by every part of the model. */
module QueryTypes {

  datatype Option<+T> = None | Some(value: T)

  /** `QueryStatus` of a query data object. */
  datatype QueryStatus = NotRunning | Running | Complete | Aborted | Waiting

  /** `QueryResultStatus` of a query data object. */
  datatype QueryResultStatus = NoResult | Error | Success
}
