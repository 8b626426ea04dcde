/** What the trustee's core accepts, said by the signatures, seals and fields
    themselves rather than by the checks that look for them. */
module Acceptance {
  import opened Basics
  import opened Crypto
  import opened Wire
  import opened Trustee
  import Slip39
  import Duration

  // -------------------------------------------------------------------------
  // Sealed envelopes

  /** `sealed` is a seal to this trustee, under the enrollment tuple of
      `context`, of an envelope its own authorization key signed. */
  ghost predicate HolderSealed(
    t: Trustee, context: EnrollmentContext, sealed: SealedEnvelope, envelope: ShareEnvelope, a: nat)
  {
    exists spelling, randomness ::
      sealed
      == Ciphertext.Sealed(
           PublicKey(t.hpkeKey.seed), EnrollmentInfo(context),
           SignedEnvelope(envelope, Some(Signature.Signature(PublicKey(a), envelope)), spelling), randomness)
  }

  /** The envelope names the profile, the authorization key and every binding
      that travelled in clear. */
  predicate SameBindings(envelope: ShareEnvelope, context: EnrollmentContext, a: nat) {
    && envelope.profile == context.profile == ShamirTrusteesSlip39V1
    && envelope.enrollmentId == context.enrollmentId
    && envelope.sequence == context.sequence
    && envelope.policyDigest == context.policyDigest
    && envelope.artifactId == context.artifactId
    && envelope.artifactDigest == context.artifactDigest
    && envelope.componentId == context.componentId
    && envelope.slot == context.slot
    && envelope.challenge == context.challenge
    && envelope.authorizationKey == Some(PublicKey(a))
    && context.authorizationKeyDigest == Sha256(PublicKey(a))
  }

  /** The context's formats. */
  predicate WellFormed(context: EnrollmentContext) {
    && IsHex(context.enrollmentId, 32) && IsHex(context.artifactId, 32)
    && IsHex(context.slot, 32) && IsHex(context.challenge, 32)
    && 1 <= context.sequence <= 0x1F_FFFF_FFFF_FFFF
    && IsDigestText(context.policyDigest) && IsDigest(context.artifactDigest)
    && IsDigest(context.authorizationKeyDigest) && IsComponentId(context.componentId)
  }

  lemma OpensExactly(t: Trustee, context: EnrollmentContext, sealed: SealedEnvelope, envelope: ShareEnvelope)
    ensures OpenEnvelope(t, context, sealed) == Ok(envelope)
       <==> && WellFormed(context) && context.componentId == t.componentId
            && exists a: nat :: HolderSealed(t, context, sealed, envelope, a) && SameBindings(envelope, context, a)
  {
    hide IsHex, IsDigestText, IsComponentId;
    if OpenEnvelope(t, context, sealed) == Ok(envelope) {
      var a := envelope.authorizationKey.value.seed;
      var document := sealed.plaintext;
      assert sealed == Ciphertext.Sealed(
          PublicKey(t.hpkeKey.seed), EnrollmentInfo(context),
          SignedEnvelope(envelope, Some(Signature.Signature(PublicKey(a), envelope)), document.spelling),
          sealed.randomness);
      assert HolderSealed(t, context, sealed, envelope, a) && SameBindings(envelope, context, a);
    }
  }

  // -------------------------------------------------------------------------
  // Policies

  /** The policy kept is the one the fields spell: their single factor's key,
      the seconds their durations mean, and their own number of attempts. */
  ghost predicate PolicyOf(fields: PolicyFields, policy: TrusteePolicy) {
    && policy.factorKey.PublicKey?
    && fields.candidateFactors == [Ed25519Session(policy.factorKey)]
    && Duration.ClientReturns(fields.cooldown, policy.cooldownSecs)
    && Duration.ClientReturns(fields.sessionLifetime, policy.sessionLifetimeSecs)
    && policy.maximumAttempts == fields.maximumAttempts
    && fields.notifications == [HolderPoll] && fields.holderVeto == AuthorizationKeyVeto
    && fields.lapsePolicy == NoLapse
  }

  lemma PolicyExactly(limits: Limits, fields: PolicyFields, policy: TrusteePolicy)
    ensures Policy(limits, fields) == Ok(policy) <==> PolicyOf(fields, policy) && PolicyInLimits(limits, policy)
  {
    hide Duration.Parsed, Duration.ClientReturns;
    Duration.ClientAgrees(fields.cooldown, policy.cooldownSecs);
    Duration.ClientAgrees(fields.sessionLifetime, policy.sessionLifetimeSecs);
    if Policy(limits, fields).Ok? {
      assert fields.candidateFactors == [fields.candidateFactors[0]];
    }
  }

  // -------------------------------------------------------------------------
  // Enrollments

  /** The enrollment kept at `now` for this envelope: its own member, term,
      policy and key, each inside what the trustee allows. */
  ghost predicate EnrollsAs(t: Trustee, context: EnrollmentContext, envelope: ShareEnvelope, now: int, e: Enrollment) {
    && envelope.version == 1 && envelope.mode == SecretRestoration
    && 2 <= envelope.memberThreshold <= envelope.memberCount <= 16 && envelope.memberIndex < envelope.memberCount
    && IsDigestText(envelope.identityBinding)
    && |t.wordlist| == 1024
    && Slip39.Validated(t.wordlist, envelope.share)
       == Ok(Slip39.Share(envelope.memberIndex, envelope.memberThreshold))
    && envelope.createdAt == At(e.createdAt) && envelope.expiresAt == At(e.expiresAt)
    && Formattable(e.createdAt) && Formattable(e.expiresAt)
    && e.createdAt <= now + t.limits.skewSecs && now < e.expiresAt <= now + t.limits.maxEnrollmentTermSecs
    && PolicyOf(envelope.policy, e.policy) && PolicyInLimits(t.limits, e.policy)
    && e.context == context && e.identityBinding == envelope.identityBinding
    && e.memberIndex == envelope.memberIndex && e.memberThreshold == envelope.memberThreshold
    && e.memberCount == envelope.memberCount && envelope.authorizationKey == Some(e.authorizationKey)
  }

  lemma AdmitsExactly(t: Trustee, envelope: ShareEnvelope, context: EnrollmentContext, now: int, e: Enrollment)
    ensures AdmitEnvelope(t, envelope, ShareOf(t, envelope), context, now) == Ok(e)
       <==> EnrollsAs(t, context, envelope, now, e)
  {
    hide Policy, PolicyOf, PolicyInLimits, Slip39.Validated, IsDigestText;
    PolicyExactly(t.limits, envelope.policy, e.policy);
    if Policy(t.limits, envelope.policy).Ok? {
      PolicyExactly(t.limits, envelope.policy, Policy(t.limits, envelope.policy).value);
    }
  }

  /** The decision to take custody: exactly of a well-formed context's envelope
      that the holder sealed to this trustee and signed, and of nothing but
      what that envelope says. */
  lemma AcceptsExactly(t: Trustee, context: EnrollmentContext, sealed: SealedEnvelope, now: int, e: Enrollment)
    ensures Accepted(t, context, sealed, now) == Ok(e)
       <==> && WellFormed(context) && context.componentId == t.componentId
            && exists envelope, a: nat ::
                 && HolderSealed(t, context, sealed, envelope, a) && SameBindings(envelope, context, a)
                 && EnrollsAs(t, context, envelope, now, e)
  {
    hide OpenEnvelope, AdmitEnvelope, WellFormed, HolderSealed, SameBindings, EnrollsAs, ShareOf;
    var open := OpenEnvelope(t, context, sealed);
    if open.Ok? {
      OpensExactly(t, context, sealed, open.value);
      AdmitsExactly(t, open.value, context, now, e);
    }
    forall envelope, a: nat | HolderSealed(t, context, sealed, envelope, a) && SameBindings(envelope, context, a)
                              && WellFormed(context) && context.componentId == t.componentId
      ensures open == Ok(envelope)
    {
      OpensExactly(t, context, sealed, envelope);
    }
  }

  /** Which refusal an envelope gets that enrolls as nothing, in this order:
      foreign versions, modes and shares are unsupported, a past term is
      expired, terms the trustee does not offer are an invalid policy, and all
      else is an invalid enrollment. */
  lemma EnvelopeRefused(t: Trustee, envelope: ShareEnvelope, context: EnrollmentContext, now: int)
    requires forall e :: !EnrollsAs(t, context, envelope, now, e)
    ensures
      var split := 2 <= envelope.memberThreshold <= envelope.memberCount <= 16
                   && envelope.memberIndex < envelope.memberCount && IsDigestText(envelope.identityBinding);
      var decoded := |t.wordlist| == 1024 && Slip39.Decoded(t.wordlist, envelope.share).Ok?;
      var mine := |t.wordlist| == 1024 && Slip39.Validated(t.wordlist, envelope.share)
                                          == Ok(Slip39.Share(envelope.memberIndex, envelope.memberThreshold));
      var valid := |t.wordlist| == 1024 && Slip39.Validated(t.wordlist, envelope.share).Ok?;
      var begun := envelope.createdAt.At? && Formattable(envelope.createdAt.seconds)
                   && envelope.createdAt.seconds <= now + t.limits.skewSecs;
      var termed := envelope.expiresAt.At? && Formattable(envelope.expiresAt.seconds);
      AdmitEnvelope(t, envelope, ShareOf(t, envelope), context, now)
      == Err(if envelope.version != 1 || envelope.mode != SecretRestoration then UnsupportedProfile
             else if !split then InvalidEnrollment
             else if decoded && !valid then UnsupportedProfile
             else if !mine || !begun || !termed then InvalidEnrollment
             else if envelope.expiresAt.seconds <= now then EnrollmentExpired
             else if now + t.limits.maxEnrollmentTermSecs < envelope.expiresAt.seconds then InvalidEnrollment
             else if (forall policy :: !(PolicyOf(envelope.policy, policy) && PolicyInLimits(t.limits, policy)))
             then InvalidPolicy
             else InvalidEnrollment)
  {
    hide Policy, PolicyOf, PolicyInLimits, Slip39.Decodes, IsDigestText, EnrollsAs;
    var admitted := AdmitEnvelope(t, envelope, ShareOf(t, envelope), context, now);
    if admitted.Ok? {
      AdmitsExactly(t, envelope, context, now, admitted.value);
    }
    var read := Policy(t.limits, envelope.policy);
    if read.Ok? {
      PolicyExactly(t.limits, envelope.policy, read.value);
    }
    forall policy
      ensures read == Ok(policy) <==> PolicyOf(envelope.policy, policy) && PolicyInLimits(t.limits, policy)
    {
      PolicyExactly(t.limits, envelope.policy, policy);
    }
    PolicyRefused(t.limits, envelope.policy);
  }

  lemma PolicyRefused(limits: Limits, fields: PolicyFields)
    ensures Policy(limits, fields).Err? ==> Policy(limits, fields).error == InvalidPolicy
  {
  }

  /** And before that: a foreign profile is unsupported, and whatever is not a
      holder's envelope for these very bindings is an invalid enrollment. */
  lemma EnrollmentRefused(t: Trustee, context: EnrollmentContext, sealed: SealedEnvelope, now: int)
    ensures context.profile != ShamirTrusteesSlip39V1 ==> Accepted(t, context, sealed, now) == Err(UnsupportedProfile)
    ensures context.profile == ShamirTrusteesSlip39V1
            && !(WellFormed(context) && context.componentId == t.componentId
                 && exists envelope, a: nat ::
                      HolderSealed(t, context, sealed, envelope, a) && SameBindings(envelope, context, a)) ==>
              Accepted(t, context, sealed, now) == Err(InvalidEnrollment)
    ensures forall envelope, a: nat | HolderSealed(t, context, sealed, envelope, a)
                                      && SameBindings(envelope, context, a)
                                      && WellFormed(context) && context.componentId == t.componentId ::
              Accepted(t, context, sealed, now) == AdmitEnvelope(t, envelope, ShareOf(t, envelope), context, now)
  {
    hide AdmitEnvelope, WellFormed, HolderSealed, SameBindings, ShareOf, IsHex, IsDigestText, IsComponentId;
    var open := OpenEnvelope(t, context, sealed);
    if open.Ok? {
      OpensExactly(t, context, sealed, open.value);
    }
    forall envelope, a: nat | HolderSealed(t, context, sealed, envelope, a) && SameBindings(envelope, context, a)
                              && WellFormed(context) && context.componentId == t.componentId
      ensures open == Ok(envelope)
    {
      OpensExactly(t, context, sealed, envelope);
    }
  }

  // -------------------------------------------------------------------------
  // Artifacts

  /** The artifact stored beside an enrollment is the one its context digests,
      and its header repeats the enrollment. */
  lemma ArtifactExactly(t: Trustee, e: Enrollment, artifact: Artifact)
    ensures CheckArtifact(t, e, artifact).Ok?
       <==> && artifact.Artifact? && artifact.claimed == Some(Sha256(artifact.core))
            && Sha256(artifact.core) == e.context.artifactDigest
            && artifact.core.ciphertext.Some?
            && artifact.core
               == ArtifactCore(1, e.context.profile, e.context.enrollmentId, e.context.sequence, e.context.policyDigest,
                               e.identityBinding, SecretRestoration, e.context.artifactId, Aes256Gcm,
                               artifact.core.nonce, artifact.core.ciphertext)
            && IsHex(artifact.core.nonce, 12)
            && 16 <= artifact.core.ciphertext.value.length <= t.limits.maxArtifactBytes
    ensures CheckArtifact(t, e, artifact).Err? ==>
              CheckArtifact(t, e, artifact).error
              == if && artifact.Artifact? && artifact.claimed.Some? && artifact.core.version == 1
                    && artifact.core.aead == Aes256Gcm && IsHex(artifact.core.nonce, 12)
                    && artifact.core.ciphertext.Some?
                    && 16 <= artifact.core.ciphertext.value.length <= t.limits.maxArtifactBytes
                 then ArtifactMismatch else InvalidEnrollment
  {
    hide IsHex;
  }

  // -------------------------------------------------------------------------
  // Sessions and factors

  /** The session a document is: signed as a whole by the fresh proof key it
      names, every presentation readable, every format right, and a
      destination that a contribution can be sealed to. */
  ghost predicate Requests(document: SessionDocument, s: Session) {
    && document.SessionDocument?
    && var core := document.body.core;
    && s.proofKey.PublicKey? && s.destinationKey.PublicKey?
    && document.proof == Some(Signature.Signature(s.proofKey, document.body))
    && core.destination == Destination(HpkeX25519Aes256Gcm, Some(s.destinationKey), Ed25519, Some(s.proofKey))
    && |s.evidence| == |document.body.evidence|
    && (forall i :: 0 <= i < |s.evidence| ==>
          document.body.evidence[i] == EvidenceFields(s.evidence[i].factor, Some(s.evidence[i].signature)))
    && core
       == SessionCore(1, s.sessionId, s.enrollmentId, s.sequence, s.policyDigest, s.artifactId, s.artifactDigest,
                      core.destination, At(s.requestedAt), At(s.expiresAt))
    && Formattable(s.requestedAt) && Formattable(s.expiresAt)
    && IsHex(s.sessionId, 32) && IsHex(s.enrollmentId, 32) && IsHex(s.artifactId, 32)
    && 1 <= s.sequence <= 0x1F_FFFF_FFFF_FFFF && IsDigestText(s.policyDigest) && IsDigest(s.artifactDigest)
    && s.destinationKeysDigest == Sha256(core.destination) && s.commitment == Sha256(core)
    && s.canonical == document
  }

  lemma {:induction false} EvidenceReads(items: seq<EvidenceFields>)
    ensures ReadEvidence(items).Some? <==> forall i :: 0 <= i < |items| ==> items[i].signature.Some?
    ensures ReadEvidence(items).Some? ==>
              && |ReadEvidence(items).value| == |items|
              && forall i :: 0 <= i < |items| ==>
                   && items[i].signature.Some?
                   && ReadEvidence(items).value[i] == Evidence(items[i].factor, items[i].signature.value)
  {
    if items != [] {
      EvidenceReads(items[1..]);
    }
  }

  lemma SessionExactly(document: SessionDocument, s: Session)
    ensures VerifySession(document) == Ok(s) <==> Requests(document, s)
  {
    hide IsHex, IsDigestText, ReadEvidence;
    if document.SessionDocument? {
      EvidenceReads(document.body.evidence);
      if Requests(document, s) {
        assert ReadEvidence(document.body.evidence).value == s.evidence;
      }
    }
  }

  /** All of that but the destination: the document is signed as a whole by
      the key it names, and every format is right. */
  predicate Proven(document: SessionDocument) {
    && document.SessionDocument?
    && var core := document.body.core;
    && var key := core.destination.proofKey;
    && key.Some? && key.value.PublicKey? && document.proof == Some(Signature.Signature(key.value, document.body))
    && (forall i :: 0 <= i < |document.body.evidence| ==> document.body.evidence[i].signature.Some?)
    && core.version == 1 && core.requestedAt.At? && Formattable(core.requestedAt.seconds)
    && core.expiresAt.At? && Formattable(core.expiresAt.seconds)
    && IsHex(core.sessionId, 32) && IsHex(core.enrollmentId, 32) && IsHex(core.artifactId, 32)
    && 1 <= core.sequence <= 0x1F_FFFF_FFFF_FFFF && IsDigestText(core.policyDigest) && IsDigest(core.artifactDigest)
  }

  /** Only a proven document is told that its destination is unusable. */
  lemma SessionRefused(document: SessionDocument)
    requires forall s :: !Requests(document, s)
    ensures VerifySession(document) == Err(if Proven(document) then InvalidDestination else InvalidRequest)
  {
    hide IsHex, IsDigestText, ReadEvidence, Requests;
    if VerifySession(document).Ok? {
      SessionExactly(document, VerifySession(document).value);
    }
    if document.SessionDocument? {
      EvidenceReads(document.body.evidence);
    }
  }

  /** The document presents this factor for this slot: as its only evidence, a
      signature by the factor key over the session's digest, the component and
      the slot. */
  predicate Presents(document: SessionDocument, key: PublicKey, componentId: string, slot: string) {
    && document.SessionDocument?
    && document.body.evidence
       == [EvidenceFields(
             Ed25519Session(key),
             Some(Signature.Signature(key, FactorMessage(Sha256(document.body.core), componentId, slot))))]
  }

  lemma FactorExactly(e: Enrollment, document: SessionDocument)
    requires VerifySession(document).Ok? && e.policy.factorKey.PublicKey?
    ensures FactorHolds(e, VerifySession(document).value)
       <==> Presents(document, e.policy.factorKey, e.context.componentId, e.context.slot)
  {
    hide IsHex32, IsDigestText, ReadEvidence, VerifySession;
    var s := VerifySession(document).value;
    SessionExactly(document, s);
    if FactorHolds(e, s) {
      assert document.body.evidence == [document.body.evidence[0]];
    }
  }

  // -------------------------------------------------------------------------
  // Contributions

  /** What a contribution is: signed by the operator key, for exactly this
      session, enrollment, slot and destination, and holding the seal, under
      the recovery tuple, of whatever the stored envelope opens to. */
  lemma ContributionIs(
    t: Trustee, e: Enrollment, sealed: SealedEnvelope, s: Session, now: int, randomness: nat)
    requires Contribute(t, e, sealed, s, now, randomness).Ok?
    ensures
      var c := Contribute(t, e, sealed, s, now, randomness).value;
      var context := e.context;
      && sealed.Sealed? && sealed.recipient == PublicKey(t.hpkeKey.seed) && sealed.info == EnrollmentInfo(context)
      && c.content
         == Approval(
              s.sessionId, context.enrollmentId, context.sequence, context.policyDigest, context.artifactId,
              context.artifactDigest, context.componentId, context.slot, s.destinationKeysDigest,
              Ciphertext.Sealed(
                s.destinationKey,
                RecoveryInfo(s.sessionId, context.enrollmentId, context.sequence, context.policyDigest,
                             context.artifactId, context.artifactDigest, context.componentId, context.slot,
                             s.destinationKeysDigest, s.expiresAt),
                sealed.plaintext, randomness),
              now, s.expiresAt)
      && c.signature == Signature.Signature(PublicKey(t.signingKey.seed), c.content)
  {
    hide VerifiedEnvelope;
  }

  /** And it is built exactly for a session naming the enrollment, with a
      destination that can be sealed to, from what still opens to the holder's
      envelope for these bindings. */
  lemma ContributesExactly(
    t: Trustee, e: Enrollment, sealed: SealedEnvelope, s: Session, now: int, randomness: nat)
    requires e.context.profile == ShamirTrusteesSlip39V1
    ensures Contribute(t, e, sealed, s, now, randomness).Ok?
       <==> && s.enrollmentId == e.context.enrollmentId && s.sequence == e.context.sequence
            && s.policyDigest == e.context.policyDigest && s.artifactId == e.context.artifactId
            && s.artifactDigest == e.context.artifactDigest
            && s.destinationKey.PublicKey? && Formattable(s.expiresAt) && Formattable(now)
            && exists envelope, a: nat ::
                 HolderSealed(t, e.context, sealed, envelope, a) && SameBindings(envelope, e.context, a)
  {
    if Contribute(t, e, sealed, s, now, randomness).Ok? {
      var document := sealed.plaintext;
      var a := document.envelope.authorizationKey.value.seed;
      assert sealed == Ciphertext.Sealed(
          PublicKey(t.hpkeKey.seed), EnrollmentInfo(e.context),
          SignedEnvelope(document.envelope, Some(Signature.Signature(PublicKey(a), document.envelope)),
                         document.spelling),
          sealed.randomness);
      assert HolderSealed(t, e.context, sealed, document.envelope, a);
    }
  }

  // -------------------------------------------------------------------------
  // Signed requests

  /** What a signed request has to be to act at all. */
  predicate Addressed(request: SignedRequest, componentId: string, s: Signed) {
    var fields := request.fields;
    && request.signature == Some(s.signature) && s.message == fields && s.digest == Sha256(request)
    && fields.version == 1 && fields.componentId == componentId && fields.operation == s.operation
    && fields.requestId == s.requestId && IsHex(s.requestId, 32) && IsHex(s.target, 32)
    && fields.issuedAt == At(s.issuedAt) && Formattable(s.issuedAt) && fields.party == s.party
    && (s.operation in {ReadEnrollment, RevokeEnrollment, CloseEnrollment} ==>
          fields.enrollmentId == Some(s.target) && fields.sessionId.None? && s.party.None?)
    && (s.operation == ReadRecovery ==>
          fields.sessionId == Some(s.target) && fields.enrollmentId.None? && s.party.None?)
    && (s.operation == CancelRecovery ==>
          fields.sessionId == Some(s.target) && fields.enrollmentId.None? && s.party.Some?)
    && s.operation in {ReadEnrollment, RevokeEnrollment, CloseEnrollment, ReadRecovery, CancelRecovery}
  }

  lemma ParsesExactly(request: SignedRequest, componentId: string, s: Signed)
    ensures ParseSigned(request, componentId) == Some(s) <==> Addressed(request, componentId, s)
  {
    hide IsHex;
  }

  // -------------------------------------------------------------------------
  // Formats

  /** Hex is lowercase and exactly as long as its bytes. */
  lemma HexExactly(text: string, bytes: nat)
    ensures IsHex(text, bytes)
       <==> |text| == 2 * bytes && forall c :: c in text ==> c in "0123456789abcdef"
  {
    forall c: char
      ensures IsHexDigit(c) <==> c in "0123456789abcdef"
    {
      HexDigit(c);
    }
    if |text| == 2 * bytes && forall c :: c in text ==> c in "0123456789abcdef" {
      forall i | 0 <= i < |text|
        ensures IsHexDigit(text[i])
      {
        assert text[i] in text;
      }
    }
  }

  lemma HexDigit(c: char)
    ensures IsHexDigit(c) <==> c in "0123456789abcdef"
  {
    if '0' <= c <= '9' {
      assert "0123456789abcdef"[c as int - '0' as int] == c;
    }
    if 'a' <= c <= 'f' {
      assert "0123456789abcdef"[c as int - 'a' as int + 10] == c;
    }
  }

  /** The times that have a spelling are those of the years 0 to 9999, of which
      719528 days lie before 1970. */
  lemma TimesExactly(seconds: int)
    ensures Formattable(seconds)
       <==> 0 <= seconds + 86_400 * 719_528 < 86_400 * (365 * 10_000 + 10_000 / 4 - 10_000 / 100 + 10_000 / 400)
  {
  }

  /** A digest is its prefix and 64 hex digits. */
  lemma DigestTextExactly(text: string)
    ensures IsDigestText(text)
       <==> |text| == 71 && text[..7] == "sha256:" && forall c :: c in text[7..] ==> c in "0123456789abcdef"
  {
    hide IsHex;
    if |text| >= 7 {
      HexExactly(text[7..], 32);
    }
  }

  /** A component ID is its prefix and 1 to 64 lowercase letters, digits and
      hyphens. */
  lemma ComponentIdExactly(text: string)
    ensures IsComponentId(text)
       <==> && 16 <= |text| <= 79 && text[..15] == "onym:component:"
            && forall c :: c in text[15..] ==> 'a' <= c <= 'z' || c in "0123456789-"
  {
    if |text| >= 15 {
      ComponentCharacters(text);
    }
  }

  lemma ComponentCharacters(text: string)
    requires |text| >= 15
    ensures (forall i :: 15 <= i < |text| ==> 'a' <= text[i] <= 'z' || '0' <= text[i] <= '9' || text[i] == '-')
       <==> forall c :: c in text[15..] ==> 'a' <= c <= 'z' || c in "0123456789-"
  {
    forall c: char
      ensures '0' <= c <= '9' || c == '-' <==> c in "0123456789-"
    {
      if '0' <= c <= '9' {
        assert "0123456789-"[c as int - '0' as int] == c;
      }
    }
    forall i | 15 <= i < |text|
      ensures text[i] in text[15..]
    {
      assert text[15..][i - 15] == text[i];
    }
  }
}
