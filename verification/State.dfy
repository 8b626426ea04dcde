/** Session admission and the release predicate (`src/state.rs`), and the
    contract names of local states (`src/wire.rs`). */
module State {
  import opened Basics
  import opened Wire

  datatype EnrollmentStatus = EAccepted | ESuperseded | ERevoked | EClosed

  datatype SessionStatus = SCoolingDown | SReleased | SFinalized | SCancelled | SVetoed | SRefused

  datatype EnrollmentState = EnrollmentState(status: EnrollmentStatus, sequence: nat, expiresAt: int)

  datatype SessionState = SessionState(
    status: SessionStatus,
    sequence: nat,
    cooldownEndsAt: int,
    expiresAt: int)

  datatype Admission = Admission(cooldownEndsAt: int, expiresAt: int)

  datatype Release = Emit | Resend

  function Usable(enrollment: EnrollmentState, now: int): Reply<()> {
    match enrollment.status
    case ERevoked | EClosed => Err(EnrollmentRevoked)
    case ESuperseded => Err(StaleEnrollmentSequence)
    case EAccepted => if now >= enrollment.expiresAt then Err(EnrollmentExpired) else Ok(())
  }

  function Distance(a: int, b: int): nat {
    if a < b then b - a else a - b
  }

  function Admit(
    enrollment: EnrollmentState, policy: TrusteePolicy, attemptsUsed: nat, requestedAt: int, expiresAt: int,
    now: int, skew: int): Reply<Admission>
  {
    var _ :- Usable(enrollment, now);
    if attemptsUsed >= policy.maximumAttempts then Err(RecoveryRateLimited)
    else if Distance(requestedAt, now) > skew then Err(InvalidRequest)
    else if expiresAt <= now then Err(RecoveryExpired)
    else
      var cooldownEndsAt := now + policy.cooldownSecs;
      if expiresAt > cooldownEndsAt
         && expiresAt <= now + policy.sessionLifetimeSecs
         && expiresAt <= enrollment.expiresAt
      then Ok(Admission(cooldownEndsAt, expiresAt))
      else Err(RecoveryRefused)
  }

  function MayRelease(enrollment: EnrollmentState, session: SessionState, now: int, clockFloor: int): Reply<Release> {
    if now < clockFloor then Err(TemporarilyUnavailable)
    else
      var _ :- Usable(enrollment, now);
      if session.sequence != enrollment.sequence then Err(StaleEnrollmentSequence)
      else match session.status
        case SVetoed => Err(RecoveryVetoed)
        case SCancelled | SRefused | SFinalized => Err(RecoveryRefused)
        case SCoolingDown | SReleased =>
          if now >= session.expiresAt then Err(RecoveryExpired)
          else if now < session.cooldownEndsAt then Err(RecoveryCoolingDown)
          else if session.status == SReleased then Ok(Resend)
          else Ok(Emit)
  }

  function EnrollmentName(status: EnrollmentStatus, expiresAt: int, now: int): StateName {
    match status
    case EAccepted => if now >= expiresAt then Expired else Active
    case ESuperseded => Superseded
    case ERevoked => Revoked
    case EClosed => Closed
  }

  function SessionName(status: SessionStatus, cooldownEndsAt: int, expiresAt: int, now: int): StateName {
    match status
    case SCoolingDown =>
      if now >= expiresAt then Expired else if now < cooldownEndsAt then CoolingDown else Collecting
    case SReleased => if now >= expiresAt then Expired else Collecting
    case SFinalized => Finalized
    case SCancelled | SVetoed => Cancelled
    case SRefused => Refused
  }

  function SessionReason(status: SessionStatus): Option<Code> {
    match status
    case SVetoed => Some(RecoveryVetoed)
    case SRefused => Some(InvalidCandidateFactor)
    case _ => None
  }

  /** What an admission promises, whatever the candidate asked for: the
      cooldown runs from the trustee's own clock, and the session outlives it
      inside both the policy's lifetime and the enrollment's term. */
  lemma AdmissionBounds(
    enrollment: EnrollmentState, policy: TrusteePolicy, attemptsUsed: nat, requestedAt: int, expiresAt: int,
    now: int, skew: int)
    ensures
      var admitted := Admit(enrollment, policy, attemptsUsed, requestedAt, expiresAt, now, skew);
      && (admitted.Ok? <==>
            && enrollment.status == EAccepted
            && attemptsUsed < policy.maximumAttempts
            && requestedAt - skew <= now <= requestedAt + skew
            && now + policy.cooldownSecs < expiresAt <= now + policy.sessionLifetimeSecs
            && expiresAt <= enrollment.expiresAt)
      && (admitted.Ok? ==> admitted.value == Admission(now + policy.cooldownSecs, expiresAt))
  {
  }

  /** The release predicate: a release needs live custody of the same
      sequence, an undisturbed session, the whole cooldown served and no
      deadline passed; and it is an emission exactly the first time. */
  lemma ReleaseConditions(enrollment: EnrollmentState, session: SessionState, now: int, clockFloor: int)
    ensures
      var released := MayRelease(enrollment, session, now, clockFloor);
      && (released.Ok? <==>
            && clockFloor <= now
            && enrollment.status == EAccepted
            && now < enrollment.expiresAt
            && session.sequence == enrollment.sequence
            && session.status in {SCoolingDown, SReleased}
            && session.cooldownEndsAt <= now < session.expiresAt)
      && (released.Ok? ==> (released.value == Emit <==> session.status == SCoolingDown))
  {
  }
}
