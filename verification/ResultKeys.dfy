/** The field names of a result record: no name is used twice. */
module ResultKeys {

  const SHARED_DIGESTS := ["invocation_digest", "prompt_digest", "runtime_identity"]

  const RESULT_DIGESTS := [
    "request_digest", "framework_installation_digest", "test_catalog_digest", "test_plan_digest",
    "workspace_receipt_digest", "workspace_root_digest", "workspace_path_digest", "output_digest"]

  const RESPONSE_DIGESTS := ["task_digest", "context_digest", "candidate_digest"]

  const PATH_KEYS := ["changed_paths"]

  const FIRST_KEYS := PATH_KEYS + SHARED_DIGESTS + RESULT_DIGESTS

  const TASK_KEYS := [
    "schema_version", "invocation_id", "attempt_id", "operation", "framework_contract_version",
    "runtime_profile_id", "test_catalog_version", "test_ids", "starting_commit", "observed_head",
    "process_outcome", "process_identity"]

  const EVIDENCE_KEYS := [
    "process_started_at", "process_ended_at", "workspace_state", "proposal_digest", "candidate_digest",
    "validation_stages", "first_failure_boundary", "failure_code", "expected", "observed",
    "containment_outcome", "content_reference", "retryable"]

  predicate Distinct(names: seq<string>) {
    forall j, k | 0 <= j < k < |names| :: names[j] != names[k]
  }

  predicate Apart(a: seq<string>, b: seq<string>) {
    forall j, k | 0 <= j < |a| && 0 <= k < |b| :: a[j] != b[k]
  }

  lemma FirstKeysDiffer()
    ensures Distinct(FIRST_KEYS)
  {
  }

  lemma TaskKeysDiffer()
    ensures Distinct(TASK_KEYS) && Apart(FIRST_KEYS, TASK_KEYS)
  {
  }

  lemma EvidenceKeysDiffer()
    ensures Distinct(EVIDENCE_KEYS) && Apart(FIRST_KEYS, EVIDENCE_KEYS)
  {
  }

  lemma LastKeysDiffer()
    ensures Apart(TASK_KEYS, EVIDENCE_KEYS)
  {
  }

  /** All 37 names of a result record are different. */
  lemma KeysDiffer()
    ensures Distinct(FIRST_KEYS + (TASK_KEYS + EVIDENCE_KEYS))
  {
    FirstKeysDiffer();
    TaskKeysDiffer();
    EvidenceKeysDiffer();
    LastKeysDiffer();
    DistinctTogether(TASK_KEYS, EVIDENCE_KEYS);
    ApartFromBoth(FIRST_KEYS, TASK_KEYS, EVIDENCE_KEYS);
    DistinctTogether(FIRST_KEYS, TASK_KEYS + EVIDENCE_KEYS);
  }

  lemma ApartFromBoth(a: seq<string>, b: seq<string>, c: seq<string>)
    requires Apart(a, b) && Apart(a, c)
    ensures Apart(a, b + c)
  {
  }

  lemma DistinctTogether(a: seq<string>, b: seq<string>)
    requires Distinct(a) && Distinct(b) && Apart(a, b)
    ensures Distinct(a + b)
  {
  }
}
