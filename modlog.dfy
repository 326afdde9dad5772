/**
 * core/modlog.py: one moderation case as read from or written to the store.
 * The record is frozen, so a datatype value; times are integers in one fixed
 * unit (UTC), and `duration` is a signed span in the same unit.
 */
module Modlogs {

  /** The `bot` back-reference of the source is not data and is left out. */
  datatype Modlog = Modlog(
    caseId: int,
    userId: int,
    modId: int,
    channelId: int,
    caseType: string,
    reason: string,
    created: int,
    duration: int,
    received: bool,
    deleted: bool,
    active: bool)

  /** The `until` property: the end of the sanction window. */
  function Until(m: Modlog): int {
    m.created + m.duration
  }

  /** The `is_expired` property, with the bot's clock reading passed in as `now`. */
  predicate IsExpired(m: Modlog, now: int) {
    Until(m) < now
  }

  /** Expired exactly when the window ended strictly before `now`; not at the instant it ends. */
  lemma ExpiredIffStrictlyPast(m: Modlog, now: int)
    ensures IsExpired(m, now) <==> m.created + m.duration < now
    ensures !IsExpired(m, Until(m))
  {
  }

  /** Once expired, a case stays expired at every later time. */
  lemma ExpiryMonotone(m: Modlog, t: int, later: int)
    requires IsExpired(m, t) && t <= later
    ensures IsExpired(m, later)
  {
  }

  /** The window ends exactly `duration` after the case was created; a zero-length one ends at creation. */
  lemma UntilIsCreatedPlusDuration(m: Modlog)
    ensures Until(m) - m.created == m.duration
    ensures m.duration == 0 ==> Until(m) == m.created
  {
  }

  /** Expiry looks only at `created`, `duration` and the clock: status flags, type and ids play no part. */
  lemma ExpiryIgnoresOtherFields(m: Modlog, n: Modlog, now: int)
    requires m.created == n.created && m.duration == n.duration
    ensures IsExpired(m, now) == IsExpired(n, now)
  {
  }
}
