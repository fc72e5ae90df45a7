/** The enumerations of backend/app/models/enums.py that the engines exchange. */
module Models {

  datatype AgentStatus = Operational | Warning | Quarantined | Blocked

  datatype ThreatSeverity = Low | Medium | High | Critical

  datatype Decision = Allow | Block | Review | Quarantine | RateLimit

  /** The two decisions that stop a request outright. */
  predicate Severe(d: Decision) {
    d.Block? || d.Quarantine?
  }
}
