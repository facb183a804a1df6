/** The records exchanged between the audit backend and the page
    (backend/core/schemas.py, and the matching interfaces at the top of
    frontend/src/App.tsx). They are plain values: nothing here is checked. */
module Schemas {
  /** One usability finding of an audit. */
  datatype Issue = Issue(title: string, description: string, suggestedFix: string)

  /** A finished audit: a summary and the findings, in the order the backend sent them. */
  datatype AuditReport = AuditReport(auditSummary: string, issues: seq<Issue>)
}
