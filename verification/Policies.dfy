/** Which policy serves a request (policy_resolver.py). */
module Policies {
  import opened Wrappers

  const ALGORITHMS: seq<string> := ["linucb", "thompson", "baseline"]

  /** The enumeration of the policy table. */
  type Algorithm = a: string | a in ALGORITHMS witness ALGORITHMS[0]

  const AUTO_PREFIX := "auto-"

  datatype ResolvedPolicy = ResolvedPolicy(policyId: string, algorithm: string, governed: bool)

  datatype PolicyStatus = SHADOW | ACTIVE | RETIRED

  datatype Policy = Policy(version: string, algorithm: Algorithm, status: PolicyStatus)

  type PolicyTable = map<string, Policy>

  function AutoPolicy(algorithm: string): ResolvedPolicy {
    ResolvedPolicy(AUTO_PREFIX + algorithm, algorithm, false)
  }

  predicate Active(policies: PolicyTable, id: string) {
    id in policies && policies[id].status == ACTIVE
  }

  /** `active` is what get_active_policy returned: some active row, if there is one. */
  ghost predicate IsActiveRow(policies: PolicyTable, active: Option<string>) {
    match active
    case Some(id) => Active(policies, id)
    case None => forall id :: !Active(policies, id)
  }

  /** An explicit id wins (and must exist), then the active policy, then the implicit one. */
  function Resolve(policies: PolicyTable, active: Option<string>, policyId: Option<string>,
                   algorithm: string): Result<ResolvedPolicy>
    requires IsActiveRow(policies, active)
  {
    match policyId
    case Some(id) =>
      if id in policies then Ok(ResolvedPolicy(id, policies[id].algorithm, true))
      else Err(NotFound("POLICY_NOT_FOUND"))
    case None =>
      match active
      case Some(id) => Ok(ResolvedPolicy(id, policies[id].algorithm, true))
      case None => Ok(AutoPolicy(algorithm))
  }

  /** Only an unknown explicit id is refused. An answer is governed exactly when it names a row
      that was asked for or is active, and with at most one active policy it does not matter
      which active row the database happened to return. */
  lemma ResolveExactly(policies: PolicyTable, active: Option<string>, active': Option<string>,
                       policyId: Option<string>, algorithm: string)
    requires IsActiveRow(policies, active) && IsActiveRow(policies, active')
    requires forall p, q :: Active(policies, p) && Active(policies, q) ==> p == q
    ensures Resolve(policies, active, policyId, algorithm) == Resolve(policies, active', policyId, algorithm)
    ensures Resolve(policies, active, policyId, algorithm).Err? <==> policyId.Some? && policyId.value !in policies
    ensures Resolve(policies, active, policyId, algorithm).Err? ==>
              Resolve(policies, active, policyId, algorithm).error == NotFound("POLICY_NOT_FOUND")
    ensures Resolve(policies, active, policyId, algorithm).Ok? ==>
              var pol := Resolve(policies, active, policyId, algorithm).value;
              && (pol.governed <==> policyId.Some? || exists p :: Active(policies, p))
              && (policyId.Some? ==> pol.policyId == policyId.value)
              && (!pol.governed ==> pol.policyId == "auto-" + algorithm && pol.algorithm == algorithm)
              && (policyId == None && pol.governed ==> Active(policies, pol.policyId))
              && (pol.governed ==> pol.policyId in policies && pol.algorithm == policies[pol.policyId].algorithm)
  {
    assert active.Some? ==> Active(policies, active.value);
    assert active'.Some? ==> Active(policies, active'.value);
  }
}
