/** The audit log list (pages/AuditLogs.tsx): search over user, action and
    description. */
module AuditLogsPage {
  import opened Common
  import opened Entities

  predicate KeepAuditLog(l: AuditLog, query: string) {
    Matches(l.user, query) || Matches(l.action, query) || Matches(l.description, query)
  }

  /** `filteredLogs`. */
  function FilteredAuditLogs(logs: seq<AuditLog>, query: string): (r: seq<AuditLog>)
    ensures IsSubsequence(r, logs)
    ensures forall l :: l in r <==>
              && l in logs
              && (|| Contains(Lower(l.user), Lower(query))
                  || Contains(Lower(l.action), Lower(query))
                  || Contains(Lower(l.description), Lower(query)))
    ensures forall l :: multiset(r)[l] == if KeepAuditLog(l, query) then multiset(logs)[l] else 0
  {
    Filter(logs, (l: AuditLog) => KeepAuditLog(l, query))
  }

  lemma EmptyQueryListsAllAuditLogs(logs: seq<AuditLog>)
    ensures FilteredAuditLogs(logs, "") == logs
  {
    forall l | l in logs ensures KeepAuditLog(l, "") {
      MatchesEmpty(l.user);
    }
    FilterKeepsAll(logs, (l: AuditLog) => KeepAuditLog(l, ""));
  }

  /** Typing more of a query never brings entries back. */
  lemma FilteredAuditLogsMonotone(logs: seq<AuditLog>, q1: string, q2: string)
    requires Contains(q2, q1)
    ensures forall l :: l in FilteredAuditLogs(logs, q2) ==> l in FilteredAuditLogs(logs, q1)
  {
    forall l | l in FilteredAuditLogs(logs, q2) ensures l in FilteredAuditLogs(logs, q1) {
      if Matches(l.user, q2) {
        MatchesMonotone(l.user, q1, q2);
      } else if Matches(l.action, q2) {
        MatchesMonotone(l.action, q1, q2);
      } else {
        MatchesMonotone(l.description, q1, q2);
      }
    }
  }

  /** The search ignores case: an upper-cased query finds the same entries. */
  lemma SearchIgnoresCase(logs: seq<AuditLog>, query: string)
    ensures FilteredAuditLogs(logs, Lower(query)) == FilteredAuditLogs(logs, query)
  {
    LowerIdempotent(query);
    FilterExtensional(logs, (l: AuditLog) => KeepAuditLog(l, Lower(query)), (l: AuditLog) => KeepAuditLog(l, query));
  }
}
