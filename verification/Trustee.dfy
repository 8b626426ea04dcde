/** The trustee's protocol core (`src/lib.rs`): taking custody, verifying
    sessions and factors, and building a contribution. */
module Trustee {
  import opened Basics
  import opened Crypto
  import opened Wire
  import Slip39
  import Duration

  datatype Limits = Limits(
    skewSecs: int,
    minCooldownSecs: int,
    maxCooldownSecs: int,
    maxSessionLifetimeSecs: int,
    maxAttempts: nat,
    maxEnrollmentTermSecs: int,
    maxArtifactBytes: nat)

  datatype Trustee = Trustee(
    componentId: string,
    hpkeKey: SecretKey,
    signingKey: SecretKey,
    limits: Limits,
    wordlist: seq<string>)
  {
    function KeyId(): Digest<PublicKey> {
      Sha256(PublicOf(hpkeKey))
    }
  }

  /** What a trustee keeps about an accepted enrollment. */
  datatype Enrollment = Enrollment(
    context: EnrollmentContext,
    identityBinding: string,
    memberIndex: nat,
    memberThreshold: nat,
    memberCount: nat,
    policy: TrusteePolicy,
    createdAt: int,
    expiresAt: int,
    authorizationKey: PublicKey)

  /** A recovery request whose candidate proof and destination verified. */
  datatype Session = Session(
    sessionId: string,
    enrollmentId: string,
    sequence: nat,
    policyDigest: string,
    artifactId: string,
    artifactDigest: Digest<ArtifactCore>,
    destinationKey: PublicKey,
    destinationKeysDigest: Digest<Destination>,
    proofKey: PublicKey,
    commitment: Digest<SessionCore>,
    requestedAt: int,
    expiresAt: int,
    evidence: seq<Evidence>,
    canonical: SessionDocument)
  {
    /** The session names exactly this enrollment sequence. */
    predicate Binds(context: EnrollmentContext) {
      && enrollmentId == context.enrollmentId
      && sequence == context.sequence
      && policyDigest == context.policyDigest
      && artifactId == context.artifactId
      && artifactDigest == context.artifactDigest
    }
  }

  // -------------------------------------------------------------------------
  // Taking custody

  /** Verify `holderAuthorization` and require the envelope to repeat every
      binding of `context`. */
  function VerifiedEnvelope(document: Document, context: EnrollmentContext): Reply<ShareEnvelope> {
    if !document.SignedEnvelope? || document.authorization.None? then Err(InvalidEnrollment)
    else
      var envelope := document.envelope;
      if envelope.authorizationKey.None? then Err(InvalidEnrollment)
      else if !Verify(envelope.authorizationKey.value, envelope, document.authorization.value)
      then Err(InvalidEnrollment)
      else if !envelope.Repeats(context) then Err(InvalidEnrollment)
      else Ok(envelope)
  }

  function Policy(limits: Limits, fields: PolicyFields): Reply<TrusteePolicy> {
    if |fields.candidateFactors| != 1 || !fields.candidateFactors[0].Ed25519Session?
       || !fields.candidateFactors[0].key.PublicKey?
    then Err(InvalidPolicy)
    else
      var cooldown := Duration.Parsed(fields.cooldown);
      var lifetime := Duration.Parsed(fields.sessionLifetime);
      if cooldown.None? || lifetime.None? then Err(InvalidPolicy)
      else if fields.notifications == [HolderPoll]
              && fields.holderVeto == AuthorizationKeyVeto
              && fields.lapsePolicy == NoLapse
              && limits.minCooldownSecs <= cooldown.value <= limits.maxCooldownSecs
              && cooldown.value < lifetime.value
              && lifetime.value <= limits.maxSessionLifetimeSecs
              && 1 <= fields.maximumAttempts <= limits.maxAttempts
      then Ok(TrusteePolicy(fields.candidateFactors[0].key, cooldown.value, lifetime.value, fields.maximumAttempts))
      else Err(InvalidPolicy)
  }

  /** Acceptance-time checks on a verified envelope, given what share
      validation says of its mnemonic. */
  function AdmitEnvelope(
    t: Trustee, envelope: ShareEnvelope, share: Result<Slip39.Share, Slip39.ShareError>,
    context: EnrollmentContext, now: int): Reply<Enrollment>
  {
    if envelope.version != 1 || envelope.mode != SecretRestoration then Err(UnsupportedProfile)
    else if !(2 <= envelope.memberThreshold <= envelope.memberCount <= 16
              && envelope.memberIndex < envelope.memberCount
              && IsDigestText(envelope.identityBinding))
    then Err(InvalidEnrollment)
    else match share
      case Err(Malformed) => Err(InvalidEnrollment)
      case Err(Unsupported) => Err(UnsupportedProfile)
      case Ok(s) =>
        var createdAt := Timestamp(envelope.createdAt);
        var expiresAt := Timestamp(envelope.expiresAt);
        if s.memberIndex != envelope.memberIndex || s.memberThreshold != envelope.memberThreshold
           || createdAt.None? || expiresAt.None?
           || createdAt.value > now + t.limits.skewSecs
        then Err(InvalidEnrollment)
        else if expiresAt.value <= now then Err(EnrollmentExpired)
        else if expiresAt.value > now + t.limits.maxEnrollmentTermSecs then Err(InvalidEnrollment)
        else
          var policy :- Policy(t.limits, envelope.policy);
          if envelope.authorizationKey.None? then Err(InvalidEnrollment)
          else Ok(Enrollment(context, envelope.identityBinding, s.memberIndex, s.memberThreshold,
                             envelope.memberCount, policy, createdAt.value, expiresAt.value,
                             envelope.authorizationKey.value))
  }

  /** Open one sealed envelope, as far as its verified fields. */
  function OpenEnvelope(t: Trustee, context: EnrollmentContext, sealed: SealedEnvelope): Reply<ShareEnvelope> {
    if context.profile != ShamirTrusteesSlip39V1 then Err(UnsupportedProfile)
    else if !context.IsWellFormed() || context.componentId != t.componentId then Err(InvalidEnrollment)
    else match Open(t.hpkeKey, EnrollmentInfo(context), sealed)
      case None => Err(InvalidEnrollment)
      case Some(document) => VerifiedEnvelope(document, context)
  }

  /** The decision to take custody. */
  ghost function Accepted(t: Trustee, context: EnrollmentContext, sealed: SealedEnvelope, now: int): Reply<Enrollment> {
    var envelope :- OpenEnvelope(t, context, sealed);
    AdmitEnvelope(t, envelope, ShareOf(t, envelope), context, now)
  }

  ghost function ShareOf(t: Trustee, envelope: ShareEnvelope): Result<Slip39.Share, Slip39.ShareError> {
    if |t.wordlist| == 1024 then Slip39.Validated(t.wordlist, envelope.share) else Err(Slip39.Malformed)
  }

  method AcceptEnrollment(t: Trustee, context: EnrollmentContext, sealed: SealedEnvelope, now: int)
    returns (r: Reply<Enrollment>)
    requires Slip39.IsWordlist(t.wordlist)
    ensures r == Accepted(t, context, sealed, now)
  {
    hide AdmitEnvelope, OpenEnvelope, Slip39.Validated;
    var envelope :- OpenEnvelope(t, context, sealed);
    var share := Slip39.Validate(t.wordlist, envelope.share);
    r := AdmitEnvelope(t, envelope, share, context, now);
  }

  function CheckArtifact(t: Trustee, enrollment: Enrollment, artifact: Artifact): Reply<()> {
    if !artifact.Artifact? || artifact.claimed.None? then Err(InvalidEnrollment)
    else
      var core := artifact.core;
      var context := enrollment.context;
      if core.version != 1 || core.aead != Aes256Gcm || !IsHex(core.nonce, 12) || core.ciphertext.None?
         || !(16 <= core.ciphertext.value.length <= t.limits.maxArtifactBytes)
      then Err(InvalidEnrollment)
      else if artifact.claimed.value == Sha256(core)
              && Sha256(core) == context.artifactDigest
              && core.profile == context.profile
              && core.enrollmentId == context.enrollmentId
              && core.sequence == context.sequence
              && core.policyDigest == context.policyDigest
              && core.identityBinding == enrollment.identityBinding
              && core.mode == SecretRestoration
              && core.artifactId == context.artifactId
      then Ok(())
      else Err(ArtifactMismatch)
  }

  // -------------------------------------------------------------------------
  // Sessions and contributions

  /** Every presentation's signature is readable. */
  function ReadEvidence(items: seq<EvidenceFields>): Option<seq<Evidence>> {
    if items == [] then Some([])
    else
      var rest := ReadEvidence(items[1..]);
      if items[0].signature.None? || rest.None? then None
      else Some([Evidence(items[0].factor, items[0].signature.value)] + rest.value)
  }

  /** Verify a recovery request on its own, before any lookup. */
  function VerifySession(document: SessionDocument): Reply<Session> {
    if !document.SessionDocument? || document.proof.None? then Err(InvalidRequest)
    else
      var core := document.body.core;
      var destination := core.destination;
      var evidence := ReadEvidence(document.body.evidence);
      var requestedAt := Timestamp(core.requestedAt);
      var expiresAt := Timestamp(core.expiresAt);
      if evidence.None? || requestedAt.None? || expiresAt.None?
         || core.version != 1 || !IsHex32(core.sessionId) || !IsHex32(core.enrollmentId)
         || !IsSequence(core.sequence) || !IsDigestText(core.policyDigest) || !IsHex32(core.artifactId)
         || !IsDigest(core.artifactDigest) || destination.proofKey.None?
         || !Verify(destination.proofKey.value, document.body, document.proof.value)
      then Err(InvalidRequest)
      else if destination.encryptionKey.None?
              || destination.encryptionSuite != HpkeX25519Aes256Gcm || destination.proofSuite != Ed25519
              // A trial seal is the exact check a release will make.
              || !destination.encryptionKey.value.PublicKey?
      then Err(InvalidDestination)
      else Ok(Session(core.sessionId, core.enrollmentId, core.sequence, core.policyDigest, core.artifactId,
                      core.artifactDigest, destination.encryptionKey.value, Sha256(destination),
                      destination.proofKey.value, Sha256(core), requestedAt.value, expiresAt.value,
                      evidence.value, document))
  }

  /** Exactly one presentation of the enrolled factor, over this session and
      this slot. */
  predicate FactorHolds(enrollment: Enrollment, session: Session) {
    && |session.evidence| == 1
    && session.evidence[0].factor == Ed25519Session(enrollment.policy.factorKey)
    && Verify(enrollment.policy.factorKey,
              FactorMessage(session.commitment, enrollment.context.componentId, enrollment.context.slot),
              session.evidence[0].signature)
  }

  /** Build this slot's contribution: re-open the stored envelope, confirm it,
      and seal its exact bytes to the session's destination. */
  function Contribute(
    t: Trustee, enrollment: Enrollment, sealed: SealedEnvelope, session: Session, now: int, randomness: nat)
    : Reply<Contribution>
  {
    var context := enrollment.context;
    if !session.Binds(context) then Err(InvalidRequest)
    else match Open(t.hpkeKey, EnrollmentInfo(context), sealed)
      case None => Err(TemporarilyUnavailable)
      case Some(plaintext) =>
        if VerifiedEnvelope(plaintext, context).Err? then Err(TemporarilyUnavailable)
        else if !Formattable(session.expiresAt) || !Formattable(now) then Err(TemporarilyUnavailable)
        else
          var info := RecoveryInfoFor(session.sessionId, context, session.destinationKeysDigest, session.expiresAt);
          match Seal(session.destinationKey, info, plaintext, randomness)
          case None => Err(InvalidDestination)
          case Some(resealed) =>
            Ok(SignObject(
              Approval(session.sessionId, context.enrollmentId, context.sequence, context.policyDigest,
                       context.artifactId, context.artifactDigest, context.componentId, context.slot,
                       session.destinationKeysDigest, resealed, now, session.expiresAt),
              t.signingKey))
  }

  // -------------------------------------------------------------------------
  // What the core promises

  /** The plaintext a sealed envelope opens to under its bindings, if that is
      a holder-signed envelope repeating them. */
  ghost predicate Holds(t: Trustee, context: EnrollmentContext, sealed: SealedEnvelope, plaintext: Document) {
    && Open(t.hpkeKey, EnrollmentInfo(context), sealed) == Some(plaintext)
    && VerifiedEnvelope(plaintext, context).Ok?
  }

  /** Everything acceptance establishes about what is then stored. */
  lemma AcceptedFacts(t: Trustee, context: EnrollmentContext, sealed: SealedEnvelope, now: int)
    requires Accepted(t, context, sealed, now).Ok?
    ensures
      var e := Accepted(t, context, sealed, now).value;
      && e.context == context && context.componentId == t.componentId && context.IsWellFormed()
      && (exists plaintext :: Holds(t, context, sealed, plaintext))
      && now < e.expiresAt <= now + t.limits.maxEnrollmentTermSecs && Formattable(e.expiresAt)
      && e.authorizationKey.PublicKey? && context.authorizationKeyDigest == Sha256(e.authorizationKey)
      && PolicyInLimits(t.limits, e.policy)
      && e.memberIndex < e.memberCount <= 16 && 2 <= e.memberThreshold <= e.memberCount
    ensures
      var e, read := Accepted(t, context, sealed, now).value, OpenEnvelope(t, context, sealed);
      && read.Ok?
      && read.value.policy.candidateFactors == [Ed25519Session(e.policy.factorKey)]
      && e.policy.maximumAttempts == read.value.policy.maximumAttempts
      && Duration.Parsed(read.value.policy.cooldown) == Some(e.policy.cooldownSecs)
      && Duration.Parsed(read.value.policy.sessionLifetime) == Some(e.policy.sessionLifetimeSecs)
  {
    hide Slip39.Validated, Duration.Parsed, EnrollmentContext.IsWellFormed;
    var plaintext := Open(t.hpkeKey, EnrollmentInfo(context), sealed).value;
    assert Holds(t, context, sealed, plaintext);
  }

  predicate PolicyInLimits(limits: Limits, policy: TrusteePolicy) {
    && limits.minCooldownSecs <= policy.cooldownSecs <= limits.maxCooldownSecs
    && policy.cooldownSecs < policy.sessionLifetimeSecs <= limits.maxSessionLifetimeSecs
    && 1 <= policy.maximumAttempts <= limits.maxAttempts
    && policy.factorKey.PublicKey?
  }

  /** A contribution delivers exactly the accepted envelope: for a verified
      session that binds and custody that opens, building it succeeds whatever
      randomness sealing draws, and the destination's secret key opens it,
      under the recovery tuple, to the very plaintext accepted. */
  lemma ContributionDelivers(
    t: Trustee, enrollment: Enrollment, sealed: SealedEnvelope, document: SessionDocument, plaintext: Document,
    destination: SecretKey, now: int, randomness: nat)
    requires VerifySession(document).Ok?
    requires Holds(t, enrollment.context, sealed, plaintext) && Formattable(now)
    requires VerifySession(document).value.Binds(enrollment.context)
    ensures
      var session := VerifySession(document).value;
      var built := Contribute(t, enrollment, sealed, session, now, randomness);
      && built.Ok?
      && built.value.signature == Sign(t.signingKey, built.value.content)
      && (session.destinationKey == PublicOf(destination) ==>
            Open(destination,
                 RecoveryInfoFor(session.sessionId, enrollment.context, session.destinationKeysDigest,
                                 session.expiresAt),
                 built.value.content.sealedContribution) == Some(plaintext))
  {
  }
}
