/**
 Shared data contracts: findings, their evidence, and the key under which the
 ledger matches one finding with an earlier one.
 */
module Models {

  datatype Option<+T> = None | Some(value: T)

  /** Microseconds since the epoch. */
  type Time = int

  type ServerId = string

  datatype Severity = Info | Low | Medium | High | Critical

  datatype Status = Active | Suppressed | Superseded | Confirmed | FalsePositive

  /** The `evidence_key` entry of an evidence dictionary: missing, JSON null, or text. */
  datatype KeyEntry = Missing | Null | Text(s: string)

  /** The entries of the evidence dictionary that the ledger or the linker reads.
      `file`, `line` and `toolName` are already rendered as text ("" when missing);
      `llmCall` is the id of the audited call behind the finding, "" when there is none. */
  datatype Evidence = Evidence(key: KeyEntry, file: string, line: string, toolName: string, llmCall: string)

  datatype Finding = Finding(detector: string, severity: Severity, confidence: real, evidence: Evidence)

  /** The key a finding is matched under: its own non-empty key, or file:line:tool. */
  function EvidenceKey(e: Evidence): (k: string)
    ensures k != ""
    ensures e.key.Text? && e.key.s != "" ==> k == e.key.s
    ensures !(e.key.Text? && e.key.s != "") ==> k == e.file + ":" + e.line + ":" + e.toolName
  {
    if e.key.Text? && e.key.s != "" then e.key.s
    else e.file + ":" + e.line + ":" + e.toolName
  }

  /** What is written: a missing key is filled in, a null or empty one is left as it is. */
  function StoredEvidence(e: Evidence): Evidence {
    if e.key.Missing? then e.(key := Text(EvidenceKey(e))) else e
  }

  function StoredFinding(f: Finding): Finding {
    f.(evidence := StoredEvidence(f.evidence))
  }

  /** SQL's COALESCE(evidence->>'evidence_key', ''). */
  function KeyText(e: Evidence): string {
    if e.key.Text? then e.key.s else ""
  }

  /** The evidence has no key entry, or a non-empty one. */
  predicate WellKeyed(f: Finding) {
    f.evidence.key != Null && f.evidence.key != Text("")
  }

  /** The stored key is the matching key exactly for well-keyed findings. */
  lemma {:induction false} StoredUnderMatchingKey(f: Finding)
    ensures KeyText(StoredEvidence(f.evidence)) == EvidenceKey(f.evidence) <==> WellKeyed(f)
  {
  }
}
