/** The policy `difficulty_assessor.py` ships. */
module PolicyTable {
  import opened Difficulty

  const ROWS: seq<PolicyRow> := [
    PolicyRow("scope.bounded", ModificationScope, Basic, false),
    PolicyRow("scope.single_module", ModificationScope, Standard, false),
    PolicyRow("scope.cross_module", ModificationScope, Advanced, false),
    PolicyRow("scope.architecture", ModificationScope, Expert, false),
    PolicyRow("clarity.explicit", RequirementClarity, Basic, false),
    PolicyRow("clarity.known_pattern", RequirementClarity, Standard, false),
    PolicyRow("clarity.ambiguous_constraints", RequirementClarity, Advanced, false),
    PolicyRow("clarity.open_decision", RequirementClarity, Expert, false),
    PolicyRow("concurrency.single_writer", StateConcurrency, Basic, false),
    PolicyRow("concurrency.shared_state", StateConcurrency, Standard, false),
    PolicyRow("concurrency.lock_cas", StateConcurrency, Advanced, true),
    PolicyRow("concurrency.cross_process_recovery", StateConcurrency, Expert, true),
    PolicyRow("contract.internal", PublicContract, Basic, false),
    PolicyRow("contract.additive", PublicContract, Standard, false),
    PolicyRow("contract.compatibility_sensitive", PublicContract, Advanced, false),
    PolicyRow("contract.breaking_migration", PublicContract, Expert, true),
    PolicyRow("impact.informational", FailureImpact, Basic, false),
    PolicyRow("impact.local_failure", FailureImpact, Standard, false),
    PolicyRow("impact.service_degradation", FailureImpact, Advanced, false),
    PolicyRow("impact.security_boundary", FailureImpact, Expert, true),
    PolicyRow("impact.data_corruption", FailureImpact, Expert, true),
    PolicyRow("rollback.simple", RollbackComplexity, Basic, false),
    PolicyRow("rollback.tested", RollbackComplexity, Standard, false),
    PolicyRow("rollback.multi_step", RollbackComplexity, Advanced, false),
    PolicyRow("rollback.irreversible", RollbackComplexity, Expert, true),
    PolicyRow("dependency.none", DependencyConflict, Basic, false),
    PolicyRow("dependency.known", DependencyConflict, Standard, false),
    PolicyRow("dependency.cross_repository", DependencyConflict, Advanced, false),
    PolicyRow("dependency.unresolved", DependencyConflict, Expert, false)]

  const REASONS: seq<string> :=
    ["pm_scope_calibration", "pm_known_pattern", "pm_bounded_failure_impact", "pm_reviewed_rollback"]

  const AGENTDESK: Policy := Policy(ROWS, REASONS)
}
