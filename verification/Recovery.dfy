/** The recovering device (`tools/client.py`): checking a contribution and
    collecting enough of them. */
module Recovery {
  import opened Basics
  import opened Crypto
  import opened Wire
  import opened Trustee
  import Duration

  /** One trustee's entry in the candidate's policy. */
  datatype Slot = Slot(slot: string, authorizationKey: PublicKey, policy: PolicyFields)

  /** The recovery map, its session and the session's secret key. */
  datatype Plan = Plan(
    session: SessionCore,
    destinationKey: SecretKey,
    identityBinding: string,
    threshold: nat,
    slots: map<string, Slot>)
  {
    function KeysDigest(): Digest<Destination> {
      Sha256(session.destination)
    }
  }

  // -------------------------------------------------------------------------
  // Checking one contribution

  /** The contribution repeats the session's bindings for this trustee. */
  predicate Repeats(plan: Plan, name: string, a: Approval)
    requires name in plan.slots
  {
    && a.sessionId == plan.session.sessionId
    && a.enrollmentId == plan.session.enrollmentId
    && a.sequence == plan.session.sequence
    && a.policyDigest == plan.session.policyDigest
    && a.artifactId == plan.session.artifactId
    && a.artifactDigest == plan.session.artifactDigest
    && a.componentId == name
    && a.slot == plan.slots[name].slot
    && a.destinationKeysDigest == plan.KeysDigest()
    && At(a.expiresAt) == plan.session.expiresAt
  }

  /** The envelope is this trustee's, as the map enrolled it. */
  predicate Enrolled(plan: Plan, name: string, envelope: ShareEnvelope)
    requires name in plan.slots
  {
    var entry := plan.slots[name];
    && envelope.version == 1
    && envelope.enrollmentId == plan.session.enrollmentId
    && envelope.sequence == plan.session.sequence
    && envelope.policyDigest == plan.session.policyDigest
    && envelope.artifactId == plan.session.artifactId
    && envelope.artifactDigest == plan.session.artifactDigest
    && envelope.profile == ShamirTrusteesSlip39V1
    && envelope.identityBinding == plan.identityBinding
    && envelope.mode == SecretRestoration
    && envelope.componentId == name
    && envelope.slot == entry.slot
    && envelope.policy == entry.policy
    && envelope.authorizationKey == Some(entry.authorizationKey)
    && envelope.memberThreshold == plan.threshold
    && envelope.memberCount == |plan.slots|
    && envelope.memberIndex < |plan.slots|
  }

  /** `accept`, short of comparing member indices: the envelope inside a
      contribution that verifies completely at local time `now`. */
  function Opened(plan: Plan, name: string, operator: PublicKey, c: Contribution, now: int): Option<ShareEnvelope> {
    var a := c.content;
    if name !in plan.slots || !Verify(operator, a, c.signature) || !Repeats(plan, name, a) then None
    else if !Formattable(a.decidedAt) || !Formattable(a.expiresAt) || a.expiresAt <= now then None
    else
      var info := RecoveryInfo(a.sessionId, a.enrollmentId, a.sequence, a.policyDigest, a.artifactId, a.artifactDigest,
                               name, a.slot, a.destinationKeysDigest, a.expiresAt);
      match Open(plan.destinationKey, info, a.sealedContribution)
      case None => None
      case Some(document) =>
        if !document.SignedEnvelope? || document.authorization.None?
           || !Verify(plan.slots[name].authorizationKey, document.envelope, document.authorization.value)
           || !Enrolled(plan, name, document.envelope)
        then None
        else Some(document.envelope)
  }

  /** A contribution that delivers `envelope`: the operator's signature over
      exactly this session's approval by this trustee, and in it, sealed to the
      session's destination, an envelope carrying the slot's authorization key's
      signature over exactly that envelope, every field as the map has it. */
  ghost predicate Delivers(
    plan: Plan, name: string, operator: PublicKey, c: Contribution, now: int, envelope: ShareEnvelope)
  {
    && name in plan.slots && operator.PublicKey? && plan.slots[name].authorizationKey.PublicKey?
    && var core, entry, sealed := plan.session, plan.slots[name], c.content.sealedContribution;
    && c == SignedObject(c.content, Signature.Signature(operator, c.content))
    && c.content
       == Approval(core.sessionId, core.enrollmentId, core.sequence, core.policyDigest, core.artifactId,
                   core.artifactDigest, name, entry.slot, Sha256(core.destination), sealed, c.content.decidedAt,
                   c.content.expiresAt)
    && Formattable(c.content.decidedAt) && Formattable(c.content.expiresAt)
    && core.expiresAt == At(c.content.expiresAt) && now < c.content.expiresAt
    && (exists spelling, randomness ::
          sealed
          == Ciphertext.Sealed(
               PublicKey(plan.destinationKey.seed),
               RecoveryInfo(core.sessionId, core.enrollmentId, core.sequence, core.policyDigest, core.artifactId,
                            core.artifactDigest, name, entry.slot, Sha256(core.destination), c.content.expiresAt),
               SignedEnvelope(envelope, Some(Signature.Signature(entry.authorizationKey, envelope)), spelling),
               randomness))
    && envelope
       == ShareEnvelope(
            1, ShamirTrusteesSlip39V1, core.enrollmentId, core.sequence, core.policyDigest, plan.identityBinding,
            core.artifactDigest, core.artifactId, SecretRestoration, name, entry.slot, envelope.challenge,
            envelope.memberIndex, plan.threshold, |plan.slots|, entry.policy, envelope.share, envelope.createdAt,
            envelope.expiresAt, Some(entry.authorizationKey))
    && envelope.memberIndex < |plan.slots|
  }

  /** `accept` checks exactly that. */
  lemma OpenedExactly(
    plan: Plan, name: string, operator: PublicKey, c: Contribution, now: int, envelope: ShareEnvelope)
    ensures Opened(plan, name, operator, c, now) == Some(envelope) <==> Delivers(plan, name, operator, c, now, envelope)
  {
    var sealed := c.content.sealedContribution;
    if Opened(plan, name, operator, c, now) == Some(envelope) {
      assert sealed
          == Ciphertext.Sealed(sealed.recipient, sealed.info,
                               SignedEnvelope(envelope, sealed.plaintext.authorization, sealed.plaintext.spelling),
                               sealed.randomness);
    }
  }

  /** The map entry says what the holder enrolled at this trustee. */
  predicate Describes(plan: Plan, enrollment: Enrollment, envelope: ShareEnvelope) {
    var context := enrollment.context;
    && context.componentId in plan.slots
    && plan.slots[context.componentId] == Slot(context.slot, enrollment.authorizationKey, envelope.policy)
    && plan.identityBinding == enrollment.identityBinding
    && plan.threshold == enrollment.memberThreshold && |plan.slots| == enrollment.memberCount
  }

  /** End to end: what a trustee took custody of and builds a contribution
      from for this session, this device accepts until the session expires;
      and it holds exactly the share the trustee had validated, with the
      member index it recorded. */
  lemma HonestContributionOpens(
    t: Trustee, sealed: SealedEnvelope, context: EnrollmentContext, acceptedAt: int, envelope: ShareEnvelope,
    plan: Plan, document: SessionDocument, decidedAt: int, randomness: nat, now: int)
    requires Accepted(t, context, sealed, acceptedAt).Ok?
    requires OpenEnvelope(t, context, sealed) == Ok(envelope)
    requires VerifySession(document).Ok? && document.body.core == plan.session
    requires PublicOf(plan.destinationKey) == VerifySession(document).value.destinationKey
    requires Describes(plan, Accepted(t, context, sealed, acceptedAt).value, envelope)
    requires Contribute(t, Accepted(t, context, sealed, acceptedAt).value, sealed, VerifySession(document).value,
                        decidedAt, randomness).Ok?
    requires now < VerifySession(document).value.expiresAt
    ensures
      var enrollment := Accepted(t, context, sealed, acceptedAt).value;
      var c := Contribute(t, enrollment, sealed, VerifySession(document).value, decidedAt, randomness).value;
      && Opened(plan, t.componentId, PublicOf(t.signingKey), c, now) == Some(envelope)
      && envelope.memberIndex == enrollment.memberIndex
      && ShareOf(t, envelope).Ok? && ShareOf(t, envelope).value.memberIndex == envelope.memberIndex
      && ShareOf(t, envelope).value.memberThreshold == plan.threshold
  {
    hide Duration.Parsed, Policy, EnrollmentContext.IsWellFormed, ShareOf, AdmitEnvelope, VerifySession, Enrolled;
    SessionIs(document);
    AdmittedEnvelope(t, envelope, ShareOf(t, envelope), context, acceptedAt);
    EnrolledAsAdmitted(plan, envelope, Accepted(t, context, sealed, acceptedAt).value);
  }

  lemma SessionIs(document: SessionDocument)
    requires VerifySession(document).Ok?
    ensures
      var s, core := VerifySession(document).value, document.body.core;
      && s.sessionId == core.sessionId && s.enrollmentId == core.enrollmentId && s.sequence == core.sequence
      && s.policyDigest == core.policyDigest && s.artifactId == core.artifactId
      && s.artifactDigest == core.artifactDigest && s.destinationKeysDigest == Sha256(core.destination)
      && At(s.expiresAt) == core.expiresAt && Formattable(s.expiresAt)
  {
    hide ReadEvidence, IsHex32, IsDigestText;
  }

  lemma EnrolledAsAdmitted(plan: Plan, envelope: ShareEnvelope, e: Enrollment)
    requires envelope.Repeats(e.context) && e.context.profile == ShamirTrusteesSlip39V1
    requires Describes(plan, e, envelope)
    requires e.context.enrollmentId == plan.session.enrollmentId && e.context.sequence == plan.session.sequence
    requires e.context.policyDigest == plan.session.policyDigest && e.context.artifactId == plan.session.artifactId
    requires e.context.artifactDigest == plan.session.artifactDigest
    requires envelope.version == 1 && envelope.mode == SecretRestoration
    requires envelope.authorizationKey == Some(e.authorizationKey) && envelope.identityBinding == e.identityBinding
    requires envelope.memberThreshold == e.memberThreshold
    requires envelope.memberIndex < envelope.memberCount == e.memberCount
    ensures Enrolled(plan, e.context.componentId, envelope)
  {
  }

  lemma AdmittedEnvelope(
    t: Trustee, envelope: ShareEnvelope, share: Result<Slip39.Share, Slip39.ShareError>, context: EnrollmentContext,
    now: int)
    requires AdmitEnvelope(t, envelope, share, context, now).Ok?
    ensures
      var e := AdmitEnvelope(t, envelope, share, context, now).value;
      && share.Ok? && share.value == Slip39.Share(envelope.memberIndex, envelope.memberThreshold)
      && e.context == context && e.memberIndex == envelope.memberIndex < envelope.memberCount
      && e.memberThreshold == envelope.memberThreshold && e.memberCount == envelope.memberCount
      && envelope.version == 1 && envelope.mode == SecretRestoration
      && envelope.authorizationKey == Some(e.authorizationKey) && e.identityBinding == envelope.identityBinding
  {
    hide Policy;
  }
}
