/**
 * Message types, header field names and the registry of required fields
 * (pkg/protocol/types.go, pkg/protocol/registry.go).
 *
 * The source's string constants are constructors here; a name outside the
 * constants is carried by the last constructor of each datatype.
 */
module Protocol {
  import opened Wrappers

  const PROTOCOL_VERSION: string := "v1"

  datatype MessageType =
    | AgentGenome | AgentSpawnProposal | AgentSpawnApproval | AgentSpawnRejection
    | AgentEvaluationRequest | AgentEvaluationResult | AgentPromotion | AgentRollback
    | AgentRetirement | AgentQuarantine | AgentRecombineProposal
    | AgentMessage
    | TaskRequest | TaskResult | TaskFail | TaskProgress
    | NegotiationPropose | NegotiationAccept | NegotiationReject | NegotiationCounter
    | NegotiationClarify | NegotiationDelegate | NegotiationCommit | NegotiationAbort
    | Unregistered(name: string)

  datatype FieldName =
    // Envelope names
    | Type | Version | Id | From | To | CreatedAt | InReplyTo | ThreadId | ExecId
    | Ttl | Status | Signature | SigningKeyId
    // Payload names the registry or the validator refers to
    | AgentId | Kind | Identity | Capabilities | Tools | ModelPolicy | PromptPolicy
    | RoutingPolicy | Thresholds | Constraints | MutationPolicy | CandidateId | ParentIds
    | SpawnReason | Decision | TargetAgent | BenchmarkId | Mode | OverallDecision | Metrics
    | HardConstraintsPassed | FromStatus | ToStatus | Reason | Goal | Step
    | Custom(name: string)

  datatype TypeMeta = TypeMeta(requiredFields: seq<FieldName>, schemaRef: string)

  const TASK_FIELDS: seq<FieldName> := [Id, From, To, ExecId, Step]
  const REPLY_FIELDS: seq<FieldName> := [Id, From, To, ThreadId, InReplyTo]

  function Lookup(mt: MessageType): Option<TypeMeta> {
    match mt
    case AgentGenome =>
      Some(TypeMeta([AgentId, Kind, Status, Identity, Capabilities, Tools, ModelPolicy, PromptPolicy,
                     RoutingPolicy, Thresholds, Constraints, MutationPolicy], "agentGenome"))
    case AgentSpawnProposal => Some(TypeMeta([Id, From, CandidateId, ParentIds, SpawnReason], "agentSpawnProposal"))
    case AgentSpawnApproval => Some(TypeMeta([Id, From, InReplyTo, CandidateId, Decision], "agentSpawnApproval"))
    case AgentSpawnRejection => Some(TypeMeta([Id, From, InReplyTo, CandidateId, Decision], "agentSpawnRejection"))
    case AgentEvaluationRequest => Some(TypeMeta([Id, From, TargetAgent, BenchmarkId, Mode], "agentEvaluationRequest"))
    case AgentEvaluationResult =>
      Some(TypeMeta([Id, From, TargetAgent, OverallDecision, Metrics, HardConstraintsPassed], "agentEvaluationResult"))
    case AgentPromotion => Some(TypeMeta([Id, From, TargetAgent, FromStatus, ToStatus], "agentPromotion"))
    case AgentRollback => Some(TypeMeta([Id, From, TargetAgent, FromStatus, ToStatus], "agentRollback"))
    case AgentRetirement => Some(TypeMeta([Id, From, TargetAgent, Reason], "agentRetirement"))
    case AgentQuarantine => Some(TypeMeta([Id, From, TargetAgent, Reason], "agentQuarantine"))
    case AgentRecombineProposal => Some(TypeMeta([Id, From, CandidateId, ParentIds, Goal], "agentRecombineProposal"))
    case AgentMessage => Some(TypeMeta([Id, From, To], ""))
    case TaskRequest => Some(TypeMeta(TASK_FIELDS, ""))
    case TaskResult => Some(TypeMeta(TASK_FIELDS, ""))
    case TaskFail => Some(TypeMeta(TASK_FIELDS, ""))
    case TaskProgress => Some(TypeMeta(TASK_FIELDS, ""))
    case NegotiationPropose => Some(TypeMeta([Id, From, To, ThreadId], ""))
    case NegotiationAccept => Some(TypeMeta(REPLY_FIELDS, ""))
    case NegotiationReject => Some(TypeMeta(REPLY_FIELDS, ""))
    case NegotiationCounter => Some(TypeMeta(REPLY_FIELDS, ""))
    case NegotiationClarify => Some(TypeMeta(REPLY_FIELDS, ""))
    case NegotiationDelegate => Some(TypeMeta(REPLY_FIELDS, ""))
    case NegotiationCommit => Some(TypeMeta(REPLY_FIELDS, ""))
    case NegotiationAbort => Some(TypeMeta(REPLY_FIELDS, ""))
    case Unregistered(_) => None
  }

  // ---------------------------------------------------------------------
  // The registry, family by family
  // ---------------------------------------------------------------------

  predicate IsTask(mt: MessageType) {
    mt == TaskRequest || mt == TaskResult || mt == TaskFail || mt == TaskProgress
  }

  predicate IsNegotiation(mt: MessageType) {
    || mt == NegotiationPropose || mt == NegotiationAccept || mt == NegotiationReject || mt == NegotiationCounter
    || mt == NegotiationClarify || mt == NegotiationDelegate || mt == NegotiationCommit || mt == NegotiationAbort
  }

  /** What a type requires, family by family. */
  function Needs(mt: MessageType): set<FieldName> {
    if mt.Unregistered? then {}
    else if mt == AgentGenome then
      {AgentId, Kind, Status, Identity, Capabilities, Tools, ModelPolicy, PromptPolicy, RoutingPolicy, Thresholds,
       Constraints, MutationPolicy}
    else if IsTask(mt) then {Id, From, To, ExecId, Step}
    else if IsNegotiation(mt) then {Id, From, To, ThreadId} + (if mt == NegotiationPropose then {} else {InReplyTo})
    else {Id, From} + Subject(mt)
  }

  /** What a message or a governance document is about. */
  function Subject(mt: MessageType): set<FieldName> {
    match mt
    case AgentMessage => {To}
    case AgentSpawnProposal => {CandidateId, ParentIds, SpawnReason}
    case AgentRecombineProposal => {CandidateId, ParentIds, Goal}
    case AgentSpawnApproval => {CandidateId, Decision, InReplyTo}
    case AgentSpawnRejection => {CandidateId, Decision, InReplyTo}
    case AgentEvaluationRequest => {TargetAgent, BenchmarkId, Mode}
    case AgentEvaluationResult => {TargetAgent, OverallDecision, Metrics, HardConstraintsPassed}
    case AgentPromotion => {TargetAgent, FromStatus, ToStatus}
    case AgentRollback => {TargetAgent, FromStatus, ToStatus}
    case AgentRetirement => {TargetAgent, Reason}
    case AgentQuarantine => {TargetAgent, Reason}
    case _ => {}
  }

  /** A short list holds its elements and nothing else. */
  lemma Holds<T>(fields: seq<T>, f: T)
    requires 3 <= |fields| <= 6
    ensures f in fields <==>
            || f == fields[0] || f == fields[1] || f == fields[2]
            || (|fields| > 3 && f == fields[3]) || (|fields| > 4 && f == fields[4]) || (|fields| > 5 && f == fields[5])
  {
  }

  lemma GenomeFields(mt: MessageType, f: FieldName)
    requires mt == AgentGenome
    ensures Lookup(mt).Some? && (f in Lookup(mt).value.requiredFields <==> f in Needs(mt))
  {
    assert Lookup(mt).Some?;
    var fields := Lookup(mt).value.requiredFields;
    assert fields == fields[..6] + fields[6..];
    Holds(fields[..6], f);
    Holds(fields[6..], f);
  }

  lemma SpawnProposalFields(mt: MessageType, f: FieldName)
    requires mt == AgentSpawnProposal
    ensures Lookup(mt).Some? && (f in Lookup(mt).value.requiredFields <==> f in Needs(mt))
  {
    assert Lookup(mt).Some?;
    Holds(Lookup(mt).value.requiredFields, f);
  }

  lemma RecombineProposalFields(mt: MessageType, f: FieldName)
    requires mt == AgentRecombineProposal
    ensures Lookup(mt).Some? && (f in Lookup(mt).value.requiredFields <==> f in Needs(mt))
  {
    assert Lookup(mt).Some?;
    Holds(Lookup(mt).value.requiredFields, f);
  }

  lemma SpawnAnswerFields(mt: MessageType, f: FieldName)
    requires mt == AgentSpawnApproval || mt == AgentSpawnRejection
    ensures Lookup(mt).Some? && (f in Lookup(mt).value.requiredFields <==> f in Needs(mt))
  {
    assert Lookup(mt).Some?;
    Holds(Lookup(mt).value.requiredFields, f);
  }

  lemma EvaluationRequestFields(mt: MessageType, f: FieldName)
    requires mt == AgentEvaluationRequest
    ensures Lookup(mt).Some? && (f in Lookup(mt).value.requiredFields <==> f in Needs(mt))
  {
    assert Lookup(mt).Some?;
    Holds(Lookup(mt).value.requiredFields, f);
  }

  lemma EvaluationResultFields(mt: MessageType, f: FieldName)
    requires mt == AgentEvaluationResult
    ensures Lookup(mt).Some? && (f in Lookup(mt).value.requiredFields <==> f in Needs(mt))
  {
    assert Lookup(mt).Some?;
    Holds(Lookup(mt).value.requiredFields, f);
  }

  lemma TransitionFields(mt: MessageType, f: FieldName)
    requires mt == AgentPromotion || mt == AgentRollback
    ensures Lookup(mt).Some? && (f in Lookup(mt).value.requiredFields <==> f in Needs(mt))
  {
    assert Lookup(mt).Some?;
    Holds(Lookup(mt).value.requiredFields, f);
  }

  lemma TerminationFields(mt: MessageType, f: FieldName)
    requires mt == AgentRetirement || mt == AgentQuarantine
    ensures Lookup(mt).Some? && (f in Lookup(mt).value.requiredFields <==> f in Needs(mt))
  {
    assert Lookup(mt).Some?;
    Holds(Lookup(mt).value.requiredFields, f);
  }

  lemma MessageFields(mt: MessageType, f: FieldName)
    requires mt == AgentMessage
    ensures Lookup(mt).Some? && (f in Lookup(mt).value.requiredFields <==> f in Needs(mt))
  {
    assert Lookup(mt).Some?;
    Holds(Lookup(mt).value.requiredFields, f);
  }

  lemma TaskFields(mt: MessageType, f: FieldName)
    requires IsTask(mt)
    ensures Lookup(mt).Some? && (f in Lookup(mt).value.requiredFields <==> f in Needs(mt))
  {
    assert Lookup(mt).Some?;
    Holds(Lookup(mt).value.requiredFields, f);
  }

  lemma ProposeFields(mt: MessageType, f: FieldName)
    requires mt == NegotiationPropose
    ensures Lookup(mt).Some? && (f in Lookup(mt).value.requiredFields <==> f in Needs(mt))
  {
    assert Lookup(mt).Some?;
    Holds(Lookup(mt).value.requiredFields, f);
  }

  lemma ReplyFields(mt: MessageType, f: FieldName)
    requires IsNegotiation(mt) && mt != NegotiationPropose
    ensures Lookup(mt).Some? && (f in Lookup(mt).value.requiredFields <==> f in Needs(mt))
  {
    assert Lookup(mt).Some?;
    Holds(Lookup(mt).value.requiredFields, f);
  }

  /** A type is registered unless its name is unknown, and requires exactly what its family needs. */
  lemma RegistryByFamily(mt: MessageType, f: FieldName)
    ensures Lookup(mt).None? <==> mt.Unregistered?
    ensures Lookup(mt).Some? ==> (f in Lookup(mt).value.requiredFields <==> f in Needs(mt))
  {
    match mt
    case AgentGenome => GenomeFields(mt, f);
    case AgentSpawnProposal => SpawnProposalFields(mt, f);
    case AgentRecombineProposal => RecombineProposalFields(mt, f);
    case AgentSpawnApproval => SpawnAnswerFields(mt, f);
    case AgentSpawnRejection => SpawnAnswerFields(mt, f);
    case AgentEvaluationRequest => EvaluationRequestFields(mt, f);
    case AgentEvaluationResult => EvaluationResultFields(mt, f);
    case AgentPromotion => TransitionFields(mt, f);
    case AgentRollback => TransitionFields(mt, f);
    case AgentRetirement => TerminationFields(mt, f);
    case AgentQuarantine => TerminationFields(mt, f);
    case AgentMessage => MessageFields(mt, f);
    case NegotiationPropose => ProposeFields(mt, f);
    case Unregistered(_) =>
    case _ => if IsTask(mt) { TaskFields(mt, f); } else { ReplyFields(mt, f); }
  }

  lemma NoSchemaFor(mt: MessageType)
    requires mt == AgentMessage || IsTask(mt) || IsNegotiation(mt)
    ensures Lookup(mt).Some? && Lookup(mt).value.schemaRef == ""
  {
  }

  lemma SchemaFor(mt: MessageType)
    requires mt != AgentMessage && !IsTask(mt) && !IsNegotiation(mt) && !mt.Unregistered?
    ensures Lookup(mt).Some? && Lookup(mt).value.schemaRef != ""
  {
    assert |Lookup(mt).value.schemaRef| > 0;
  }

  /** Messages, tasks and negotiations have no schema; every other registered type has one. */
  lemma SchemasExactlyFor(mt: MessageType)
    requires !mt.Unregistered?
    ensures Lookup(mt).Some?
    ensures Lookup(mt).value.schemaRef == "" <==> mt == AgentMessage || IsTask(mt) || IsNegotiation(mt)
  {
    if mt == AgentMessage || IsTask(mt) || IsNegotiation(mt) { NoSchemaFor(mt); } else { SchemaFor(mt); }
  }
}
