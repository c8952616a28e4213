module Lifecycles {
  /** The authentication state of a session. */
  datatype Lifecycle = NONE | INIT | ESTABLISHED | CLOSED
}
