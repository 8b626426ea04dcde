/** The wire objects (`src/wire.rs`) as parsed values. Canonical bytes and the
    value they spell determine each other, so a digest or signature over
    bytes is one over the value. Closed sets of text (profiles, modes, suites)
    are enumerations with a case for any other text. */
module Wire {
  import opened Basics
  import opened Crypto

  datatype Code =
    | UnsupportedProfile
    | InvalidManifest
    | InvalidPolicy
    | InvalidEnrollment
    | EnrollmentPending
    | EnrollmentExpired
    | EnrollmentRevoked
    | StaleEnrollmentSequence
    | ArtifactMismatch
    | InvalidDestination
    | BootstrapUnavailable
    | InvalidCandidateFactor
    | RecoveryCoolingDown
    | RecoveryRateLimited
    | RecoveryVetoed
    | RecoveryRefused
    | RecoveryExpired
    | InsufficientContributions
    | InvalidContribution
    | PaymentRequired
    | ServiceLapsed
    | ExportUnavailable
    | TemporarilyUnavailable
    | InvalidRequest
    | RequestConflict

  type Reply<+T> = Result<T, Code>

  // -------------------------------------------------------------------------
  // Field encodings

  const MAX_SAFE_INTEGER: nat := 0x1F_FFFF_FFFF_FFFF

  predicate IsHexDigit(c: char) {
    '0' <= c <= '9' || 'a' <= c <= 'f'
  }

  predicate IsHex(text: string, bytes: nat) {
    |text| == 2 * bytes && forall i :: 0 <= i < |text| ==> IsHexDigit(text[i])
  }

  predicate IsHex32(text: string) {
    IsHex(text, 32)
  }

  predicate IsDigestText(text: string) {
    "sha256:" <= text && IsHex32(text[7..])
  }

  predicate IsDigest<T>(digest: Digest<T>) {
    digest.OtherDigest? ==> IsDigestText(digest.text)
  }

  predicate IsComponentId(text: string) {
    && "onym:component:" <= text
    && 1 <= |text| - 15 <= 64
    && forall i :: 15 <= i < |text| ==> 'a' <= text[i] <= 'z' || '0' <= text[i] <= '9' || text[i] == '-'
  }

  predicate IsSequence(value: nat) {
    1 <= value <= MAX_SAFE_INTEGER
  }

  /** 0000-01-01T00:00:00Z and 9999-12-31T23:59:59Z. */
  const MIN_TIME: int := -62_167_219_200
  const MAX_TIME: int := 253_402_300_799

  /** `format_timestamp` has a result. */
  predicate Formattable(seconds: int) {
    MIN_TIME <= seconds <= MAX_TIME
  }

  /** Timestamp text: the one spelling of a time, or anything else. */
  datatype Stamp = At(seconds: int) | BadStamp(text: string)

  function Timestamp(stamp: Stamp): Option<int> {
    if stamp.At? && Formattable(stamp.seconds) then Some(stamp.seconds) else None
  }

  // -------------------------------------------------------------------------
  // Closed sets of text

  datatype Profile = ShamirTrusteesSlip39V1 | OtherProfile(text: string)
  datatype Mode = SecretRestoration | OtherMode(text: string)
  datatype Suite = HpkeX25519Aes256Gcm | Ed25519 | Aes256Gcm | OtherSuite(text: string)
  datatype Factor = Ed25519Session(key: PublicKey) | OtherFactor(text: string)
  datatype Notification = HolderPoll | OtherNotification(text: string)
  datatype Veto = AuthorizationKeyVeto | OtherVeto(text: string)
  datatype Lapse = NoLapse | OtherLapse(text: string)

  // -------------------------------------------------------------------------
  // Enrollment objects

  datatype Blob = Blob(length: nat, content: nat)

  /** The protected artifact without its digest. */
  datatype ArtifactCore = ArtifactCore(
    version: nat,
    profile: Profile,
    enrollmentId: string,
    sequence: nat,
    policyDigest: string,
    identityBinding: string,
    mode: Mode,
    artifactId: string,
    aead: Suite,
    nonce: string,
    ciphertext: Option<Blob>)

  datatype Artifact =
    | Artifact(claimed: Option<Digest<ArtifactCore>>, core: ArtifactCore)
    | UnreadableArtifact(n: nat)

  /** The bindings that travel in clear next to a sealed envelope. */
  datatype EnrollmentContext = EnrollmentContext(
    profile: Profile,
    enrollmentId: string,
    sequence: nat,
    policyDigest: string,
    artifactId: string,
    artifactDigest: Digest<ArtifactCore>,
    componentId: string,
    slot: string,
    challenge: string,
    authorizationKeyDigest: Digest<PublicKey>)
  {
    predicate IsWellFormed() {
      && IsHex32(enrollmentId)
      && IsSequence(sequence)
      && IsDigestText(policyDigest)
      && IsHex32(artifactId)
      && IsDigest(artifactDigest)
      && IsComponentId(componentId)
      && IsHex32(slot)
      && IsHex32(challenge)
      && IsDigest(authorizationKeyDigest)
    }
  }

  /** A trustee policy as the envelope spells it. */
  datatype PolicyFields = PolicyFields(
    candidateFactors: seq<Factor>,
    cooldown: string,
    sessionLifetime: string,
    maximumAttempts: nat,
    notifications: seq<Notification>,
    holderVeto: Veto,
    lapsePolicy: Lapse)

  /** The enforceable part of an accepted policy. */
  datatype TrusteePolicy = TrusteePolicy(
    factorKey: PublicKey,
    cooldownSecs: nat,
    sessionLifetimeSecs: nat,
    maximumAttempts: nat)

  /** The share envelope without the holder's authorization. */
  datatype ShareEnvelope = ShareEnvelope(
    version: nat,
    profile: Profile,
    enrollmentId: string,
    sequence: nat,
    policyDigest: string,
    identityBinding: string,
    artifactDigest: Digest<ArtifactCore>,
    artifactId: string,
    mode: Mode,
    componentId: string,
    slot: string,
    challenge: string,
    memberIndex: nat,
    memberThreshold: nat,
    memberCount: nat,
    policy: PolicyFields,
    share: string,
    createdAt: Stamp,
    expiresAt: Stamp,
    authorizationKey: Option<PublicKey>)
  {
    /** The envelope repeats every binding of `context`. */
    predicate Repeats(context: EnrollmentContext) {
      && profile == context.profile
      && enrollmentId == context.enrollmentId
      && sequence == context.sequence
      && policyDigest == context.policyDigest
      && artifactId == context.artifactId
      && artifactDigest == context.artifactDigest
      && componentId == context.componentId
      && slot == context.slot
      && challenge == context.challenge
      && authorizationKey.Some?
      && Sha256(authorizationKey.value) == context.authorizationKeyDigest
    }
  }

  /** What an envelope's plaintext bytes are; `spelling` tells apart byte
      strings that spell one object. */
  datatype Document =
    | SignedEnvelope(envelope: ShareEnvelope, authorization: Option<Signature<ShareEnvelope>>, spelling: nat)
    | OtherDocument(n: nat)

  /** The canonical tuples HPKE binds a sealed value to. */
  datatype Info =
    | EnrollmentInfo(context: EnrollmentContext)
    | RecoveryInfo(
        sessionId: string,
        enrollmentId: string,
        sequence: nat,
        policyDigest: string,
        artifactId: string,
        artifactDigest: Digest<ArtifactCore>,
        componentId: string,
        slot: string,
        destinationKeysDigest: Digest<Destination>,
        expiresAt: int)

  type SealedEnvelope = Ciphertext<Info, Document>

  function RecoveryInfoFor(
    sessionId: string, context: EnrollmentContext, keys: Digest<Destination>, expiresAt: int): Info
  {
    RecoveryInfo(sessionId, context.enrollmentId, context.sequence, context.policyDigest, context.artifactId,
                 context.artifactDigest, context.componentId, context.slot, keys, expiresAt)
  }

  // -------------------------------------------------------------------------
  // Recovery objects

  datatype Destination = Destination(
    encryptionSuite: Suite,
    encryptionKey: Option<PublicKey>,
    proofSuite: Suite,
    proofKey: Option<PublicKey>)

  /** The part of a session every trustee sees identically. */
  datatype SessionCore = SessionCore(
    version: nat,
    sessionId: string,
    enrollmentId: string,
    sequence: nat,
    policyDigest: string,
    artifactId: string,
    artifactDigest: Digest<ArtifactCore>,
    destination: Destination,
    requestedAt: Stamp,
    expiresAt: Stamp)

  datatype FactorMessage = FactorMessage(commitment: Digest<SessionCore>, componentId: string, slot: string)

  datatype EvidenceFields = EvidenceFields(factor: Factor, signature: Option<Signature<FactorMessage>>)

  /** What `candidateProof` signs. */
  datatype SessionBody = SessionBody(core: SessionCore, evidence: seq<EvidenceFields>)

  datatype SessionDocument =
    | SessionDocument(body: SessionBody, proof: Option<Signature<SessionBody>>)
    | UnreadableSession(n: nat)

  datatype Evidence = Evidence(factor: Factor, signature: Signature<FactorMessage>)

  /** A contribution before signing. */
  datatype Approval = Approval(
    sessionId: string,
    enrollmentId: string,
    sequence: nat,
    policyDigest: string,
    artifactId: string,
    artifactDigest: Digest<ArtifactCore>,
    componentId: string,
    slot: string,
    destinationKeysDigest: Digest<Destination>,
    sealedContribution: SealedEnvelope,
    decidedAt: int,
    expiresAt: int)

  /** `sign_object`: an object with its signature embedded. */
  datatype SignedObject<T> = SignedObject(content: T, signature: Signature<T>)

  function SignObject<T>(content: T, key: SecretKey): SignedObject<T> {
    SignedObject(content, Sign(key, content))
  }

  type Contribution = SignedObject<Approval>

  // -------------------------------------------------------------------------
  // Requests

  datatype Operation =
    | IssueChallenge
    | Enroll
    | ReadEnrollment
    | BeginRecovery
    | ReadRecovery
    | CancelRecovery
    | RevokeEnrollment
    | CloseEnrollment
    | BootstrapRecovery
    | ExportEnrollment
    | FinalizeRecovery
    | RotateEnrollment
    | OtherOperation(text: string)

  datatype Party = Holder | Candidate | OtherParty(text: string)

  datatype EnrollRequest = EnrollRequest(
    version: nat,
    context: EnrollmentContext,
    trusteeKeyId: Digest<PublicKey>,
    sealedEnvelope: Option<SealedEnvelope>,
    protectedArtifact: Artifact)

  /** A signed request without its signature. */
  datatype SignedFields = SignedFields(
    version: nat,
    operation: Operation,
    requestId: string,
    componentId: string,
    issuedAt: Stamp,
    enrollmentId: Option<string>,
    sessionId: Option<string>,
    party: Option<Party>)

  datatype SignedRequest = SignedRequest(fields: SignedFields, signature: Option<Signature<SignedFields>>)

  datatype Request =
    | ChallengeCall(version: nat, componentId: string, invitation: string)
    | EnrollCall(enroll: EnrollRequest)
    | BeginCall(version: nat, session: SessionDocument)
    | SignedCall(signed: SignedRequest)
    | OtherCall(operation: Operation)
    | UnreadableCall(n: nat)

  /** A parsed signed request naming one target. */
  datatype Signed = Signed(
    operation: Operation,
    requestId: string,
    target: string,
    party: Option<Party>,
    issuedAt: int,
    message: SignedFields,
    signature: Signature<SignedFields>,
    digest: Digest<SignedRequest>)

  /** The one target the operation acts on, when the fields name exactly it. */
  function Target(fields: SignedFields): Option<string> {
    match fields.operation
    case ReadEnrollment | RevokeEnrollment | CloseEnrollment =>
      if fields.sessionId.None? && fields.party.None? then fields.enrollmentId else None
    case ReadRecovery =>
      if fields.enrollmentId.None? && fields.party.None? then fields.sessionId else None
    case CancelRecovery =>
      if fields.enrollmentId.None? && fields.party.Some? then fields.sessionId else None
    case _ => None
  }

  function ParseSigned(request: SignedRequest, componentId: string): Option<Signed> {
    var fields := request.fields;
    var target := Target(fields);
    var issuedAt := Timestamp(fields.issuedAt);
    if request.signature.None? || target.None? || issuedAt.None?
       || fields.version != 1 || fields.componentId != componentId
       || !IsHex32(fields.requestId) || !IsHex32(target.value)
    then None
    else Some(Signed(fields.operation, fields.requestId, target.value, fields.party, issuedAt.value, fields,
                     request.signature.value, Sha256(request)))
  }

  // -------------------------------------------------------------------------
  // Receipts

  /** The contract names of enrollment and session states. */
  datatype StateName =
    | NoneYet
    | Active
    | Superseded
    | Revoked
    | Closed
    | CoolingDown
    | Collecting
    | Finalized
    | Cancelled
    | Refused
    | Expired

  datatype Notice = Notice(
    state: StateName,
    reason: Option<Code>,
    released: bool,
    cooldownEndsAt: int,
    expiresAt: int)

  /** `notices` are keyed by session ID. */
  datatype Receipt = Receipt(
    operation: Operation,
    requestId: string,
    componentId: string,
    profile: Profile,
    enrollmentId: string,
    sequence: nat,
    policyDigest: string,
    oldState: StateName,
    newState: StateName,
    recordedAt: int,
    expiresAt: int,
    sessionId: Option<string>,
    reason: Option<Code>,
    artifactId: Option<string>,
    artifactDigest: Option<Digest<ArtifactCore>>,
    slot: Option<string>,
    sealedContributionDigest: Option<Digest<SealedEnvelope>>,
    cooldownEndsAt: Option<int>,
    remainingAttempts: Option<nat>,
    destinationKeysDigest: Option<Digest<Destination>>,
    evidenceDigest: Option<Digest<SessionDocument>>,
    contribution: Option<Contribution>,
    notices: Option<map<string, Notice>>)

  /** The fields every receipt about `context` carries. */
  function About(
    componentId: string, context: EnrollmentContext, operation: Operation, requestId: string,
    oldState: StateName, newState: StateName, recordedAt: int, expiresAt: int): Receipt
  {
    Receipt(operation, requestId, componentId, context.profile, context.enrollmentId, context.sequence,
            context.policyDigest, oldState, newState, recordedAt, expiresAt,
            None, None, None, None, None, None, None, None, None, None, None, None)
  }

  /** What a served request is answered with. */
  datatype Answer =
    | ChallengeIssued(challenge: string, componentId: string, expiresAt: int, trusteeKeyId: Digest<PublicKey>)
    | InvitationCode(code: string)
    | Receipted(receipt: SignedObject<Receipt>)
}
