/** Return codes shared by every component, and the optional value. */
module Status {
  const PENDING: int := 1
  const SUCCESS: int := 0
  const E_PARAM: int := -1
  const E_ALIGN: int := -2
  const E_HANDLER: int := -4
  const E_ACCESS: int := -5
  const E_RANGE: int := -6
  const E_NOMEM: int := -8
  const E_SUPPORT: int := -10
  const E_BUSY: int := -12
  const E_STATE: int := -15
  const E_INIT: int := -16
  const E_PANIC: int := -18

  datatype Option<+T> = None | Some(value: T)
}
