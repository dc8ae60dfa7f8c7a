/** What several components share: optional values, and the result codes of the service. */
module Common {

  datatype Option<+T> = None | Some(value: T)

  const SUCCESS := 0
  const GENERAL_ERROR := 2
  const CANCELED := 3
  const TIMEOUT := 4
  const INVALID_PARAMETERS := 8
  const LOCKED := 9
  const NOT_ENROLLED := 10
  const COMPLEXITY_CHECK_FAILED := 14
  const REMOTE_DEVICE_CONNECTION_FAIL := 1008
  const DEVICE_CAPABILITY_NOT_SUPPORT := 1009

  const INVALID_USER_ID := -1
}
