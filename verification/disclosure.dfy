/**
 Preview disclosures: the validators a request passes
 (app/models/preview_disclosure_schemas.py, app/models/dataset_commitment_schemas.py).

 Digests, signatures and inclusion proofs are an `Oracle`; canonical text is compared by
 value.  A timestamp is an instant: the source compares texts of one fixed width.
 */
module Disclosure {
  import opened Wrappers

  type Instant = nat
  type Digest = nat

  datatype Error =
    | ScanPolicyUnknown | InvalidInclusionProof | PackageLimit
    | ProofMismatch | MixedProfiles | ProofLimit | ManifestLimit
    | HeadMismatch | CandidateNotNew | InvalidWithdrawal | NoneGrantForbidden | ApprovalEvidenceMissing
    | BinaryForbidden | DescriptorMismatch | SchemaDigestMismatch | SelectedFieldMismatch | DuplicateProof
    | SummaryMismatch | CommitmentMissing | ProofOrderMismatch | CommitmentMismatch | SignerOrProofMismatch
    | UnsupportedProof | PackageMismatch | SampledLeafListMismatch | SampleMismatch | ScanMismatch
    | AttestationMismatch | AttestationTimeMismatch | ProofInvalid

  datatype Profile = PackageV1 | PackageV2
  datatype Policy = PolicyV1 | PolicyV2

  /** `url` is everything of the package description that is only compared. */
  datatype Proof = Proof(
    id: nat, leafIndex: nat, treeSize: nat, ordinal: nat, url: nat, profile: Profile, ceiling: nat, policy: Policy,
    policyVersion: string, scannedAt: Instant, leafListDigest: Digest, signer: nat, rest: nat)

  datatype Commitment = Commitment(
    id: nat, listing: nat, datasetVersion: nat, schemaDigest: Digest, root: Digest, leafCount: nat,
    attestationDigest: Digest, signer: nat, signedAt: Instant, proofs: seq<Proof>)

  datatype Type = Scalar(tag: nat) | Binary | Array(element: Type) | Object(fields: seq<Field>)

  datatype Field = Field(name: string, ty: Type)

  datatype Decision = Approve | Withdraw

  datatype Binding = Binding(
    decision: Decision, summary: nat, version: nat, seller: nat, listing: nat, requestId: nat,
    selectedFields: seq<string>, previewType: Option<nat>, contentType: Option<nat>, sampleApproved: bool,
    sampleHash: Option<Digest>, commitmentId: Option<nat>, schemaDigest: Option<Digest>, datasetVersion: Option<nat>,
    descriptors: seq<Field>, proofIds: seq<nat>, leafListDigest: Option<Digest>, scanDigest: Option<Digest>,
    rightsDigest: Option<Digest>, rightsCode: Option<nat>, permission: Option<bool>,
    approvedAt: Instant, attestedAt: Instant, supersedes: Option<nat>, expected: Option<nat>, signer: nat, rest: nat)

  datatype Request = Request(summary: nat, binding: Binding, commitment: Option<Commitment>, proofs: seq<Proof>)

  datatype Oracle = Oracle(
    canonical: seq<Field> -> seq<Field>, schemaDigest: seq<Field> -> Digest, normal: string -> bool,
    leafListDigest: seq<Proof> -> Digest, sampleHash: seq<Proof> -> Digest, scanDigest: seq<Proof> -> Digest,
    attestation: (Commitment, Binding) -> Digest, includes: (Proof, Digest) -> bool,
    proofsSize: seq<Proof> -> nat, requestSize: Request -> nat)

  predicate Distinct<T(==)>(s: seq<T>)
  {
    forall i, j :: 0 <= i < j < |s| ==> s[i] != s[j]
  }

  // ---- Proofs and commitments ------------------------------------------------------------------

  function Positions(p: Proof): Option<Error>
  {
    if !((p.policy == PolicyV1 && p.policyVersion == "1.0.0") || (p.policy == PolicyV2 && p.policyVersion == "2.0.0"))
    then Some(ScanPolicyUnknown)
    else if p.leafIndex >= p.treeSize || p.ordinal >= p.treeSize then Some(InvalidInclusionProof)
    else if p.profile == PackageV1 && p.ceiling > 131072 then Some(PackageLimit)
    else None
  }

  function Ids(proofs: seq<Proof>): seq<nat>
  {
    seq(|proofs|, i requires 0 <= i < |proofs| => proofs[i].id)
  }

  function Leaves(proofs: seq<Proof>): seq<nat>
  {
    seq(|proofs|, i requires 0 <= i < |proofs| => proofs[i].leafIndex)
  }

  function MatchingProofs(o: Oracle, c: Commitment): Option<Error>
  {
    if !Distinct(Ids(c.proofs)) || (exists p :: p in c.proofs && p.treeSize != c.leafCount) then Some(ProofMismatch)
    else if exists p, q :: p in c.proofs && q in c.proofs && p.profile != q.profile then Some(MixedProfiles)
    else if c.proofs != [] && c.proofs[0].profile == PackageV1 && |c.proofs| > 50 then Some(ProofLimit)
    else if o.proofsSize(c.proofs) > 262144 then Some(ManifestLimit)
    else None
  }

  // ---- Types a sample may show -------------------------------------------------------------------

  predicate Public(t: Type)
  {
    match t
    case Scalar(_) => true
    case Binary => false
    case Array(element) => Public(element)
    case Object(fields) => forall i :: 0 <= i < |fields| ==> Public(fields[i].ty)
  }

  predicate PublicTypes(fields: seq<Field>)
  {
    forall i :: 0 <= i < |fields| ==> Public(fields[i].ty)
  }

  /** What a path of field positions leads to; any step enters an array. */
  function At(t: Type, path: seq<nat>): Option<Type>
    decreases path
  {
    if path == [] then Some(t)
    else match t
      case Scalar(_) => None
      case Binary => None
      case Array(element) => At(element, path[1..])
      case Object(fields) => if path[0] < |fields| then At(fields[path[0]].ty, path[1..]) else None
  }

  lemma {:induction false} PublicAt(t: Type, path: seq<nat>)
    requires Public(t)
    ensures At(t, path) != Some(Binary)
    decreases path
  {
    if path != [] {
      match t {
        case Scalar(_) =>
        case Binary =>
        case Array(element) => PublicAt(element, path[1..]);
        case Object(fields) => if path[0] < |fields| { PublicAt(fields[path[0]].ty, path[1..]); }
      }
    }
  }

  lemma {:induction false} HiddenBinary(t: Type) returns (path: seq<nat>)
    requires !Public(t)
    ensures At(t, path) == Some(Binary)
    decreases t
  {
    match t {
      case Scalar(_) =>
      case Binary => path := [];
      case Array(element) =>
        var rest := HiddenBinary(element);
        path := [0] + rest;
        assert path[1..] == rest;
      case Object(fields) =>
        var i: nat :| i < |fields| && !Public(fields[i].ty);
        var rest := HiddenBinary(fields[i].ty);
        path := [i] + rest;
        assert path[1..] == rest;
    }
  }

  /** The recursive check finds binary data exactly when it occurs, at any depth. */
  lemma PublicIffNoBinaryAnywhere(t: Type)
    ensures Public(t) <==> forall path :: At(t, path) != Some(Binary)
  {
    if Public(t) {
      forall path ensures At(t, path) != Some(Binary) { PublicAt(t, path); }
    } else {
      var path := HiddenBinary(t);
      assert At(t, path) == Some(Binary);
    }
  }

  // ---- The binding ---------------------------------------------------------------------------------

  predicate NoGrant(b: Binding)
  {
    && b.sampleHash.None? && b.commitmentId.None? && b.schemaDigest.None? && b.datasetVersion.None?
    && b.leafListDigest.None? && b.scanDigest.None? && b.rightsDigest.None? && b.rightsCode.None?
    && b.permission.None? && b.previewType.None? && b.contentType.None?
  }

  predicate FullGrant(b: Binding)
  {
    && b.sampleHash.Some? && b.commitmentId.Some? && b.schemaDigest.Some? && b.datasetVersion.Some?
    && b.leafListDigest.Some? && b.scanDigest.Some? && b.rightsDigest.Some? && b.rightsCode.Some?
    && b.permission.Some? && b.previewType.Some? && b.contentType.Some?
  }

  predicate Named(fields: seq<Field>, name: string)
  {
    exists i :: 0 <= i < |fields| && fields[i].name == name
  }

  function BindingRules(o: Oracle, b: Binding): Option<Error>
  {
    if b.supersedes != b.expected then Some(HeadMismatch)
    else if Some(b.version) == b.supersedes || Some(b.version) == b.expected then Some(CandidateNotNew)
    else if b.decision == Withdraw && (b.sampleApproved || b.supersedes.None?) then Some(InvalidWithdrawal)
    else if !b.sampleApproved then
      var clean := NoGrant(b) && b.proofIds == [] && b.descriptors == [] && b.selectedFields == [];
      if clean then None else Some(NoneGrantForbidden)
    else SampleRules(o, b)
  }

  function SampleRules(o: Oracle, b: Binding): Option<Error>
  {
    if !FullGrant(b) || b.permission != Some(true) || b.proofIds == [] || b.selectedFields == []
    then Some(ApprovalEvidenceMissing)
    else
      var schema := o.canonical(b.descriptors);
      if !PublicTypes(schema) then Some(BinaryForbidden)
      else if schema != b.descriptors || |schema| > 25 then Some(DescriptorMismatch)
      else if Some(o.schemaDigest(schema)) != b.schemaDigest then Some(SchemaDigestMismatch)
      else if !Distinct(b.selectedFields) || (exists f :: f in b.selectedFields && (!Named(schema, f) || !o.normal(f)))
      then Some(SelectedFieldMismatch)
      else if !Distinct(b.proofIds) then Some(DuplicateProof)
      else None
  }

  // ---- The request -----------------------------------------------------------------------------------

  predicate SamePackage(p: Proof, q: Proof)
  {
    (p.url, p.profile, p.ceiling, p.policy, p.policyVersion, p.scannedAt, p.signer)
    == (q.url, q.profile, q.ceiling, q.policy, q.policyVersion, q.scannedAt, q.signer)
  }

  function Agreement(o: Oracle, r: Request): Option<Error>
  {
    var b := r.binding;
    if b.summary != r.summary then Some(SummaryMismatch)
    else if !b.sampleApproved && (r.commitment.Some? || r.proofs != []) then Some(NoneGrantForbidden)
    else if b.sampleApproved && (r.commitment.None? || r.proofs == []) then Some(CommitmentMissing)
    else if b.sampleApproved && SampleAgreement(o, b, r.commitment.value, r.proofs).Some?
    then SampleAgreement(o, b, r.commitment.value, r.proofs)
    else if o.requestSize(r) > 262144 then Some(ManifestLimit)
    else None
  }

  predicate Unsupported(b: Binding, proofs: seq<Proof>)
  {
    exists p :: p in proofs && (p.profile != PackageV2 || p.signer != b.signer)
  }

  predicate ManyPackages(proofs: seq<Proof>)
  {
    (exists p, q :: p in proofs && q in proofs && !SamePackage(p, q)) || !Distinct(Leaves(proofs))
  }

  predicate OtherLeafList(o: Oracle, proofs: seq<Proof>)
  {
    exists p :: p in proofs && p.leafListDigest != o.leafListDigest(proofs)
  }

  predicate OutOfTime(b: Binding, c: Commitment, proofs: seq<Proof>)
  {
    (exists p :: p in proofs && p.scannedAt > c.signedAt) || c.signedAt > b.approvedAt || b.attestedAt > b.approvedAt
  }

  predicate NotIncluded(o: Oracle, c: Commitment, proofs: seq<Proof>)
  {
    exists p :: p in proofs && !o.includes(p, c.root)
  }

  function SampleAgreement(o: Oracle, b: Binding, c: Commitment, proofs: seq<Proof>): Option<Error>
    requires proofs != []
  {
    if proofs != c.proofs then Some(ProofOrderMismatch)
    else if b.listing != c.listing || b.commitmentId != Some(c.id) || b.schemaDigest != Some(c.schemaDigest)
            || b.datasetVersion != Some(c.datasetVersion)
    then Some(CommitmentMismatch)
    else if c.signer != b.signer || Ids(proofs) != b.proofIds then Some(SignerOrProofMismatch)
    else if Unsupported(b, proofs) then Some(UnsupportedProof)
    else if ManyPackages(proofs) then Some(PackageMismatch)
    else if OtherLeafList(o, proofs) then Some(SampledLeafListMismatch)
    else if b.sampleHash != Some(o.sampleHash(proofs)) || b.leafListDigest != Some(o.leafListDigest(proofs))
    then Some(SampleMismatch)
    else if b.scanDigest != Some(o.scanDigest(proofs)) then Some(ScanMismatch)
    else if o.attestation(c, b) != c.attestationDigest then Some(AttestationMismatch)
    else if OutOfTime(b, c, proofs) then Some(AttestationTimeMismatch)
    else if NotIncluded(o, c, proofs) then Some(ProofInvalid)
    else None
  }

  /** A request every validator accepts: its own, its binding's, its commitment's and each
      proof's. */
  predicate Accepted(o: Oracle, r: Request)
  {
    && Agreement(o, r).None? && BindingRules(o, r.binding).None?
    && (r.commitment.Some? ==> MatchingProofs(o, r.commitment.value).None?)
    && (forall p :: p in r.proofs ==> Positions(p).None?)
  }

  lemma {:induction false} Pigeonhole(s: seq<nat>, n: nat)
    requires Distinct(s) && forall x :: x in s ==> x < n
    ensures |s| <= n
    decreases n
  {
    assert s != [] ==> s[0] in s;
    if n > 0 {
      var m := n - 1;
      if i :| 0 <= i < |s| && s[i] == m {
        var rest := s[..i] + s[i + 1..];
        forall x | x in rest ensures x < m {
          var k :| 0 <= k < |rest| && rest[k] == x;
          assert s[if k < i then k else k + 1] == x && x in s;
        }
        Pigeonhole(rest, m);
      } else {
        forall x | x in s ensures x < m {
          var k :| 0 <= k < |s| && s[k] == x;
        }
        Pigeonhole(s, m);
      }
    }
  }

  /** The proofs of an accepted sample are of pairwise distinct ids and distinct leaves, all
      inside the committed tree, so there are no more of them than leaves. */
  lemma AcceptedSampleProofs(o: Oracle, r: Request)
    requires Accepted(o, r) && r.binding.sampleApproved
    ensures r.commitment.Some? && r.proofs == r.commitment.value.proofs && r.proofs != []
    ensures Distinct(Ids(r.proofs)) && Ids(r.proofs) == r.binding.proofIds
    ensures Distinct(Leaves(r.proofs))
    ensures forall p :: p in r.proofs ==>
      p.leafIndex < r.commitment.value.leafCount && p.ordinal < r.commitment.value.leafCount
    ensures 1 <= |r.proofs| <= r.commitment.value.leafCount
  {
    var c := r.commitment.value;
    assert SampleAgreement(o, r.binding, c, r.proofs).None?;
    forall x | x in Leaves(r.proofs) ensures x < c.leafCount {
      var i :| 0 <= i < |r.proofs| && r.proofs[i].leafIndex == x;
      assert r.proofs[i] in r.proofs;
    }
    Pigeonhole(Leaves(r.proofs), c.leafCount);
  }

  /** It was scanned before it was signed, signed and attested before it was approved, in
      one package under one signer, and shows no binary data at any depth. */
  lemma AcceptedSampleEvidence(o: Oracle, r: Request)
    requires Accepted(o, r) && r.binding.sampleApproved
    ensures r.commitment.Some?
    ensures forall p :: p in r.proofs ==>
      p.scannedAt <= r.commitment.value.signedAt && o.includes(p, r.commitment.value.root)
      && p.profile == PackageV2 && p.signer == r.binding.signer == r.commitment.value.signer
    ensures forall p, q :: p in r.proofs && q in r.proofs ==> SamePackage(p, q)
    ensures r.commitment.value.signedAt <= r.binding.approvedAt && r.binding.attestedAt <= r.binding.approvedAt
    ensures r.binding.decision == Approve && r.binding.permission == Some(true)
    ensures forall i, path :: 0 <= i < |r.binding.descriptors| ==> At(r.binding.descriptors[i].ty, path) != Some(Binary)
    ensures forall f :: f in r.binding.selectedFields ==> Named(r.binding.descriptors, f)
  {
    assert SampleAgreement(o, r.binding, r.commitment.value, r.proofs).None?;
    assert SampleRules(o, r.binding).None?;
    forall i, path | 0 <= i < |r.binding.descriptors| ensures At(r.binding.descriptors[i].ty, path) != Some(Binary) {
      PublicAt(r.binding.descriptors[i].ty, path);
    }
  }

  // ---- Exactly which requests are accepted -------------------------------------------------------

  /** The proof is inside its tree, under a known policy, and within the limit of its package. */
  predicate SoundProof(p: Proof)
  {
    && (p.policy == PolicyV1 ==> p.policyVersion == "1.0.0") && (p.policy == PolicyV2 ==> p.policyVersion == "2.0.0")
    && p.leafIndex < p.treeSize && p.ordinal < p.treeSize
    && (p.profile == PackageV1 ==> p.ceiling <= 131072)
  }

  /** The proofs of a commitment: distinct, of its tree, of one profile, within the limits. */
  ghost predicate SoundCommitment(o: Oracle, c: Commitment)
  {
    && (forall i, j :: 0 <= i < j < |c.proofs| ==> c.proofs[i].id != c.proofs[j].id)
    && (forall p :: p in c.proofs ==> p.treeSize == c.leafCount)
    && (forall p, q :: p in c.proofs && q in c.proofs ==> p.profile == q.profile)
    && (c.proofs != [] && c.proofs[0].profile == PackageV1 ==> |c.proofs| <= 50)
    && o.proofsSize(c.proofs) <= 262144
  }

  /** It replaces exactly the head it expects by a new version, and withdraws only what is there. */
  predicate SoundHead(b: Binding)
  {
    && b.supersedes == b.expected && b.supersedes != Some(b.version)
    && (b.decision == Withdraw ==> !b.sampleApproved && b.supersedes.Some?)
  }

  /** Nothing of a sample is named. */
  predicate NamesNothing(b: Binding)
  {
    && b.sampleHash.None? && b.commitmentId.None? && b.schemaDigest.None? && b.datasetVersion.None?
    && b.leafListDigest.None? && b.scanDigest.None? && b.rightsDigest.None? && b.rightsCode.None?
    && b.permission.None? && b.previewType.None? && b.contentType.None?
    && b.proofIds == [] && b.descriptors == [] && b.selectedFields == []
  }

  /** No path through any field leads to binary data. */
  ghost predicate NoBinary(fields: seq<Field>)
  {
    forall i, path :: 0 <= i < |fields| ==> At(fields[i].ty, path) != Some(Binary)
  }

  /** The schema is canonical, small, without binary data anywhere, and the one named. */
  ghost predicate SoundSchema(o: Oracle, b: Binding)
  {
    && o.canonical(b.descriptors) == b.descriptors && |b.descriptors| <= 25
    && NoBinary(b.descriptors)
    && b.schemaDigest == Some(o.schemaDigest(b.descriptors))
  }

  /** Some fields are selected, each once, each of the schema and normal. */
  ghost predicate SoundSelection(o: Oracle, b: Binding)
  {
    && b.selectedFields != [] && Distinct(b.selectedFields)
    && forall f :: f in b.selectedFields ==>
      o.normal(f) && exists i :: 0 <= i < |b.descriptors| && b.descriptors[i].name == f
  }

  /** The binding, the commitment and the proofs speak of the same things: each id and each
      digest that is bound is the one computed or carried. */
  ghost predicate BindsAll(o: Oracle, b: Binding, c: Commitment, proofs: seq<Proof>)
  {
    && b.listing == c.listing && b.commitmentId == Some(c.id) && b.datasetVersion == Some(c.datasetVersion)
    && b.schemaDigest == Some(c.schemaDigest) && b.signer == c.signer
    && |b.proofIds| == |proofs| && (forall i :: 0 <= i < |proofs| ==> b.proofIds[i] == proofs[i].id)
    && b.sampleHash == Some(o.sampleHash(proofs)) && b.leafListDigest == Some(o.leafListDigest(proofs))
    && b.scanDigest == Some(o.scanDigest(proofs)) && c.attestationDigest == o.attestation(c, b)
    && b.rightsDigest.Some? && b.rightsCode.Some? && b.previewType.Some? && b.contentType.Some?
    && b.permission == Some(true)
  }

  /** The proofs are the commitment's: of one version 2 package, signed by the binding's signer, of
      distinct leaves, and inside the committed tree. */
  ghost predicate ProofsAgree(o: Oracle, b: Binding, c: Commitment, proofs: seq<Proof>)
  {
    && proofs == c.proofs && proofs != []
    && (forall p :: p in proofs ==>
          p.profile == PackageV2 && p.signer == b.signer && p.leafListDigest == o.leafListDigest(proofs)
            && o.includes(p, c.root))
    && (forall p, q :: p in proofs && q in proofs ==>
          (p.url, p.ceiling, p.policy, p.policyVersion, p.scannedAt) == (q.url, q.ceiling, q.policy, q.policyVersion,
            q.scannedAt))
    && (forall i, j :: 0 <= i < j < |proofs| ==> proofs[i].leafIndex != proofs[j].leafIndex)
  }

  /** Scanned, then signed, then approved; attested before approved. */
  ghost predicate InTime(b: Binding, c: Commitment, proofs: seq<Proof>)
  {
    && (forall p :: p in proofs ==> p.scannedAt <= c.signedAt)
    && c.signedAt <= b.approvedAt && b.attestedAt <= b.approvedAt
  }

  lemma SoundProofIff(p: Proof)
    ensures Positions(p).None? <==> SoundProof(p)
  {
  }

  lemma SoundCommitmentIff(o: Oracle, c: Commitment)
    ensures MatchingProofs(o, c).None? <==> SoundCommitment(o, c)
  {
    DistinctIff(c.proofs);
    hide Distinct, Ids;
  }

  lemma DistinctIff(proofs: seq<Proof>)
    ensures Distinct(Ids(proofs)) <==> forall i, j :: 0 <= i < j < |proofs| ==> proofs[i].id != proofs[j].id
    ensures Distinct(Leaves(proofs)) <==>
      forall i, j :: 0 <= i < j < |proofs| ==> proofs[i].leafIndex != proofs[j].leafIndex
  {
    forall i | 0 <= i < |proofs| ensures Ids(proofs)[i] == proofs[i].id && Leaves(proofs)[i] == proofs[i].leafIndex { }
    if Distinct(Ids(proofs)) {
      forall i, j | 0 <= i < j < |proofs| ensures proofs[i].id != proofs[j].id {
        assert Ids(proofs)[i] != Ids(proofs)[j];
      }
    }
    if Distinct(Leaves(proofs)) {
      forall i, j | 0 <= i < j < |proofs| ensures proofs[i].leafIndex != proofs[j].leafIndex {
        assert Leaves(proofs)[i] != Leaves(proofs)[j];
      }
    }
  }

  lemma IdsIff(proofs: seq<Proof>, ids: seq<nat>)
    ensures Ids(proofs) == ids <==> |ids| == |proofs| && forall i :: 0 <= i < |proofs| ==> ids[i] == proofs[i].id
  {
  }

  lemma BindingIff(o: Oracle, b: Binding)
    ensures BindingRules(o, b).None? <==>
      SoundHead(b) && if b.sampleApproved then SampleRules(o, b).None? else NamesNothing(b)
  {
    hide SampleRules;
  }

  lemma NoBinaryIff(fields: seq<Field>)
    ensures PublicTypes(fields) <==> NoBinary(fields)
  {
    if PublicTypes(fields) {
      forall i, path | 0 <= i < |fields| ensures At(fields[i].ty, path) != Some(Binary) {
        PublicAt(fields[i].ty, path);
      }
    } else {
      var i :| 0 <= i < |fields| && !Public(fields[i].ty);
      var path := HiddenBinary(fields[i].ty);
      assert At(fields[i].ty, path) == Some(Binary);
    }
  }

  lemma SampleRulesIff(o: Oracle, b: Binding)
    ensures SampleRules(o, b).None? <==>
      && FullGrant(b) && b.permission == Some(true) && b.proofIds != [] && Distinct(b.proofIds)
      && SoundSchema(o, b) && SoundSelection(o, b)
  {
    NoBinaryIff(b.descriptors);
    hide FullGrant, NoBinary, PublicTypes;
  }

  lemma SampleAgreementIff(o: Oracle, b: Binding, c: Commitment, proofs: seq<Proof>)
    requires proofs != []
    ensures FullGrant(b) && b.permission == Some(true) ==>
      (SampleAgreement(o, b, c, proofs).None? <==>
        BindsAll(o, b, c, proofs) && ProofsAgree(o, b, c, proofs) && InTime(b, c, proofs))
  {
    IdsIff(proofs, b.proofIds);
    DistinctIff(proofs);
    hide Distinct, Ids, Leaves;
  }

  /** What a request that shows a sample must meet, beside its own binding. */
  ghost predicate SoundSample(o: Oracle, b: Binding, c: Commitment, proofs: seq<Proof>)
  {
    && SoundSchema(o, b) && SoundSelection(o, b)
    && BindsAll(o, b, c, proofs) && ProofsAgree(o, b, c, proofs) && InTime(b, c, proofs)
  }

  /**
   A request is accepted exactly when it names its own summary and is small enough, its binding
   replaces the head it expects, and either it shows nothing of a sample, with no
   commitment and no proof, or it shows one that meets every condition: each bound id and
   digest is the one computed or carried, the proofs are the commitment's and in its tree,
   the times are in order, and the schema hides all binary data.
   */
  lemma AcceptedIff(o: Oracle, r: Request)
    ensures Accepted(o, r) <==>
      && r.binding.summary == r.summary && o.requestSize(r) <= 262144 && SoundHead(r.binding)
      && (forall p :: p in r.proofs ==> SoundProof(p))
      && (r.commitment.Some? ==> SoundCommitment(o, r.commitment.value))
      && if r.binding.sampleApproved then
           r.commitment.Some? && SoundSample(o, r.binding, r.commitment.value, r.proofs)
         else NamesNothing(r.binding) && r.commitment.None? && r.proofs == []
  {
    forall p | p in r.proofs { SoundProofIff(p); }
    if r.commitment.Some? { SoundCommitmentIff(o, r.commitment.value); }
    BindingIff(o, r.binding);
    hide Positions, SoundProof, MatchingProofs, SoundCommitment, BindingRules, SoundHead, SampleRules, NamesNothing;
    if r.commitment.Some? && r.proofs != [] && MatchingProofs(o, r.commitment.value).None? {
      AcceptedSampleIff(o, r.binding, r.commitment.value, r.proofs);
    }
  }

  lemma AcceptedSampleIff(o: Oracle, b: Binding, c: Commitment, proofs: seq<Proof>)
    requires proofs != [] && SoundCommitment(o, c)
    ensures SampleRules(o, b).None? && SampleAgreement(o, b, c, proofs).None? <==> SoundSample(o, b, c, proofs)
  {
    SampleRulesIff(o, b);
    SampleAgreementIff(o, b, c, proofs);
    IdsIff(proofs, b.proofIds);
    DistinctIff(proofs);
    hide SampleRules, SampleAgreement, SoundSchema, SoundSelection, InTime, Distinct;
  }

  // ---- What a refusal says -----------------------------------------------------------------------

  /** The fault that each refusal of the sample's agreement names. */
  predicate SampleFault(o: Oracle, b: Binding, c: Commitment, proofs: seq<Proof>, e: Error)
  {
    match e
    case ProofOrderMismatch => proofs != c.proofs
    case CommitmentMismatch =>
      (Some(b.listing), b.commitmentId, b.schemaDigest, b.datasetVersion)
      != (Some(c.listing), Some(c.id), Some(c.schemaDigest), Some(c.datasetVersion))
    case SignerOrProofMismatch => c.signer != b.signer || Ids(proofs) != b.proofIds
    case UnsupportedProof => Unsupported(b, proofs)
    case PackageMismatch => ManyPackages(proofs)
    case SampledLeafListMismatch => OtherLeafList(o, proofs)
    case SampleMismatch =>
      b.sampleHash != Some(o.sampleHash(proofs)) || b.leafListDigest != Some(o.leafListDigest(proofs))
    case ScanMismatch => b.scanDigest != Some(o.scanDigest(proofs))
    case AttestationMismatch => o.attestation(c, b) != c.attestationDigest
    case AttestationTimeMismatch => OutOfTime(b, c, proofs)
    case ProofInvalid => NotIncluded(o, c, proofs)
    case _ => false
  }

  const SAMPLE_CHECKS := [
    ProofOrderMismatch, CommitmentMismatch, SignerOrProofMismatch, UnsupportedProof, PackageMismatch,
    SampledLeafListMismatch, SampleMismatch, ScanMismatch, AttestationMismatch, AttestationTimeMismatch, ProofInvalid]

  /** A sample that does not agree is refused with the first of its faults, in that order. */
  lemma FirstFaultIsNamed(o: Oracle, b: Binding, c: Commitment, proofs: seq<Proof>, i: nat)
    requires proofs != [] && i < |SAMPLE_CHECKS|
    ensures SampleAgreement(o, b, c, proofs) == Some(SAMPLE_CHECKS[i]) <==>
      SampleFault(o, b, c, proofs, SAMPLE_CHECKS[i])
      && forall j :: 0 <= j < i ==> !SampleFault(o, b, c, proofs, SAMPLE_CHECKS[j])
  {
    SampleChecksListed();
    hide SAMPLE_CHECKS, Ids, Unsupported, ManyPackages, OtherLeafList, OutOfTime, NotIncluded;
  }

  lemma SampleChecksListed()
    ensures var s := SAMPLE_CHECKS;
      && |s| == 11
      && s[0] == ProofOrderMismatch && s[1] == CommitmentMismatch && s[2] == SignerOrProofMismatch
      && s[3] == UnsupportedProof && s[4] == PackageMismatch && s[5] == SampledLeafListMismatch
      && s[6] == SampleMismatch && s[7] == ScanMismatch && s[8] == AttestationMismatch
      && s[9] == AttestationTimeMismatch && s[10] == ProofInvalid
  {
  }

  /** The fault that each of the other refusals names. */
  ghost predicate RequestFault(o: Oracle, r: Request, e: Error)
  {
    var b := r.binding;
    match e
    case SummaryMismatch => b.summary != r.summary
    case CommitmentMissing => b.sampleApproved && (r.commitment.None? || r.proofs == [])
    case ManifestLimit => o.requestSize(r) > 262144
    case HeadMismatch => b.supersedes != b.expected
    case CandidateNotNew => b.expected == Some(b.version)
    case InvalidWithdrawal => b.decision == Withdraw && (b.sampleApproved || b.supersedes.None?)
    case NoneGrantForbidden => !b.sampleApproved && !(NamesNothing(b) && r.commitment.None? && r.proofs == [])
    case ApprovalEvidenceMissing =>
      b.sampleApproved && !(FullGrant(b) && b.permission == Some(true) && b.proofIds != [] && b.selectedFields != [])
    case BinaryForbidden => !NoBinary(o.canonical(b.descriptors))
    case DescriptorMismatch => o.canonical(b.descriptors) != b.descriptors || |b.descriptors| > 25
    case SchemaDigestMismatch => b.schemaDigest != Some(o.schemaDigest(b.descriptors))
    case SelectedFieldMismatch => !SoundSelection(o, b)
    case DuplicateProof => !Distinct(b.proofIds)
    case _ => false
  }

  /** The fault that each refusal of a commitment names. */
  ghost predicate CommitmentFault(o: Oracle, c: Commitment, e: Error)
  {
    match e
    case ProofMismatch => !Distinct(Ids(c.proofs)) || exists p :: p in c.proofs && p.treeSize != c.leafCount
    case MixedProfiles => exists p, q :: p in c.proofs && q in c.proofs && p.profile != q.profile
    case ProofLimit => c.proofs != [] && c.proofs[0].profile == PackageV1 && |c.proofs| > 50
    case ManifestLimit => o.proofsSize(c.proofs) > 262144
    case _ => false
  }

  predicate ProofFault(p: Proof, e: Error)
  {
    match e
    case ScanPolicyUnknown => p.policyVersion != if p.policy == PolicyV1 then "1.0.0" else "2.0.0"
    case InvalidInclusionProof => p.leafIndex >= p.treeSize || p.ordinal >= p.treeSize
    case PackageLimit => p.profile == PackageV1 && p.ceiling > 131072
    case _ => false
  }

  /** Every other refusal names a fault that is there. */
  lemma RefusalsAreTrue(o: Oracle, r: Request, e: Error)
    ensures BindingRules(o, r.binding) == Some(e) ==> RequestFault(o, r, e)
    ensures Agreement(o, r) == Some(e) ==>
      RequestFault(o, r, e)
      || (r.commitment.Some? && SampleFault(o, r.binding, r.commitment.value, r.proofs, e))
    ensures r.commitment.Some? && MatchingProofs(o, r.commitment.value) == Some(e) ==>
      CommitmentFault(o, r.commitment.value, e)
    ensures forall p :: p in r.proofs && Positions(p) == Some(e) ==> ProofFault(p, e)
  {
    hide BindingRules, Agreement, MatchingProofs, Positions, RequestFault, SampleFault, CommitmentFault, ProofFault;
    if BindingRules(o, r.binding) == Some(e) { BindingRefusal(o, r, e); }
    if Agreement(o, r) == Some(e) { AgreementRefusal(o, r, e); }
    if r.commitment.Some? { CommitmentRefusal(o, r.commitment.value, e); }
    forall p | p in r.proofs && Positions(p) == Some(e) ensures ProofFault(p, e) { ProofRefusal(p, e); }
  }

  lemma CommitmentRefusal(o: Oracle, c: Commitment, e: Error)
    ensures MatchingProofs(o, c) == Some(e) ==> CommitmentFault(o, c, e)
  {
    hide Distinct, Ids;
  }

  lemma ProofRefusal(p: Proof, e: Error)
    requires Positions(p) == Some(e)
    ensures ProofFault(p, e)
  {
  }

  lemma BindingRefusal(o: Oracle, r: Request, e: Error)
    requires BindingRules(o, r.binding) == Some(e)
    ensures RequestFault(o, r, e)
  {
    NoBinaryIff(o.canonical(r.binding.descriptors));
    hide NoBinary, PublicTypes, Distinct;
  }

  lemma AgreementRefusal(o: Oracle, r: Request, e: Error)
    requires Agreement(o, r) == Some(e)
    ensures RequestFault(o, r, e) || (r.commitment.Some? && SampleFault(o, r.binding, r.commitment.value, r.proofs, e))
  {
    hide Ids, Unsupported, ManyPackages, OtherLeafList, OutOfTime, NotIncluded;
  }
}
