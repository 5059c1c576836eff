/** The expiry test `/auth-status` applies to the stored token set. */
module Expiry {
  import opened Wrappers
  import opened Model

  /** JavaScript truthiness of the numeric `expires_at`: a missing field and 0 are false. */
  predicate ExpiresAtTruthy(expiresAt: Option<int>)
  {
    expiresAt.Some? && expiresAt.value != 0
  }

  /**
    Whether a token set with this `expires_at` (seconds) is expired at clock
    reading `nowMs` (milliseconds). Fails closed: a missing or zero expiry is
    expired.
   */
  function IsExpired(expiresAt: Option<int>, nowMs: int): (expired: bool)
    ensures expiresAt == None ==> expired
    ensures expiresAt == Some(0) ==> expired
    ensures expiresAt.Some? && expiresAt.value != 0 ==> (expired <==> nowMs >= expiresAt.value * 1000)
  {
    if ExpiresAtTruthy(expiresAt) then nowMs >= expiresAt.value * 1000 else true
  }

  /** A token set is usable exactly when its expiry is present, non-zero and still ahead of the clock. */
  lemma NotExpiredIff(expiresAt: Option<int>, nowMs: int)
    ensures !IsExpired(expiresAt, nowMs) <==>
            expiresAt.Some? && expiresAt.value != 0 && nowMs < expiresAt.value * 1000
  {
  }

  /** Once expired, a token set stays expired as the clock moves forward. */
  lemma ExpiredStaysExpired(expiresAt: Option<int>, nowMs: int, laterMs: int)
    requires nowMs <= laterMs
    requires IsExpired(expiresAt, nowMs)
    ensures IsExpired(expiresAt, laterMs)
  {
  }

  /** For a positive expiry the switch happens exactly at `expires_at * 1000` milliseconds. */
  lemma ExpiryBoundary(seconds: int)
    requires seconds > 0
    ensures !IsExpired(Some(seconds), seconds * 1000 - 1)
    ensures IsExpired(Some(seconds), seconds * 1000)
  {
  }
}
