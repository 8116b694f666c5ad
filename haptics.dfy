/** The app's haptic wrapper: two fire-and-forget notifications, one per kind.
    The device call itself is outside the model; a call is recorded as an event
    of the kind it requests. */
module Haptics {
  datatype NotificationType = Success | Error
}
