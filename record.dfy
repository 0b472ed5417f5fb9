/** The audit record (`audit_data`) handed from the audit pipeline to the
    recommendation rules and to the dashboard. */
module Record {
  import opened Gates

  datatype AuditRecord = AuditRecord(
    url: string,
    stack: string,
    gates: map<string, string>,
    schemaCount: nat,
    schemaSample: string,
    manifest: string)

  /** The record carries all four gate statuses. */
  predicate HasGates(a: AuditRecord)
  {
    GateKeys <= a.gates.Keys
  }
}
