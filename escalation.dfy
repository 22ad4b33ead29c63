/** The hourly CAPA escalation job: two thresholds around `now`, the CAPAs due soon (for
    reminders) and the overdue ones (for escalation), and the counts it reports. The
    selections run over every company's CAPAs, in table order. */
module Escalation {
  import opened Common
  import opened Capas

  /** The 'capa' configuration namespace, in days. */
  datatype CapaConfig = CapaConfig(reminderDaysBefore: int, escalationDaysAfter: int)

  /** The values used when the environment sets neither variable. */
  const DefaultConfig: CapaConfig := CapaConfig(3, 7)

  /** The 'capa' namespace with the environment's values already parsed: each one given
      is used, and each one missing takes its default. */
  function CapaConfigFrom(reminderEnv: Option<int>, escalationEnv: Option<int>): (cfg: CapaConfig)
    ensures reminderEnv.Some? ==> cfg.reminderDaysBefore == reminderEnv.value
    ensures reminderEnv.None? ==> cfg.reminderDaysBefore == DefaultConfig.reminderDaysBefore
    ensures escalationEnv.Some? ==> cfg.escalationDaysAfter == escalationEnv.value
    ensures escalationEnv.None? ==> cfg.escalationDaysAfter == DefaultConfig.escalationDaysAfter
  {
    CapaConfig(if reminderEnv.Some? then reminderEnv.value else DefaultConfig.reminderDaysBefore,
               if escalationEnv.Some? then escalationEnv.value else DefaultConfig.escalationDaysAfter)
  }

  /** `now + reminderDaysBefore` days. */
  function ReminderThreshold(now: int, cfg: CapaConfig): int {
    now + cfg.reminderDaysBefore * DayMs
  }

  /** `now - escalationDaysAfter` days. */
  function EscalationThreshold(now: int, cfg: CapaConfig): int {
    now - cfg.escalationDaysAfter * DayMs
  }

  /** Not closed, with a due date between now and the reminder threshold, both included.
      A CAPA without a due date never matches a date comparison. */
  predicate DueSoon(c: Capa, now: int, cfg: CapaConfig): (b: bool)
    // a matching CAPA is not yet past due, and only a non-negative window can match
    ensures b ==> c.dueDate.Some? && c.dueDate.value >= now && cfg.reminderDaysBefore >= 0
  {
    c.status != Closed && c.dueDate.Some? && now <= c.dueDate.value <= ReminderThreshold(now, cfg)
  }

  /** Not closed, with a due date strictly before the escalation threshold. */
  predicate Overdue(c: Capa, now: int, cfg: CapaConfig): (b: bool)
    // with a non-negative delay, an overdue CAPA is past its due date
    ensures b && cfg.escalationDaysAfter >= 0 ==> c.dueDate.Some? && c.dueDate.value < now
  {
    c.status != Closed && c.dueDate.Some? && c.dueDate.value < EscalationThreshold(now, cfg)
  }

  /** `findMany` with a where-clause: the rows that satisfy it, in table order. */
  function Filter(s: seq<Capa>, keep: Capa -> bool): (r: seq<Capa>)
    ensures |r| <= |s|
    ensures forall c :: c in r <==> c in s && keep(c)
    // every row is kept exactly when the filter keeps the whole table
    ensures |r| == |s| <==> forall i :: 0 <= i < |s| ==> keep(s[i])
    ensures r == [] <==> forall i :: 0 <= i < |s| ==> !keep(s[i])
  {
    if s == [] then []
    else (if keep(s[0]) then [s[0]] else []) + Filter(s[1..], keep)
  }

  /** The filter keeps each matching row as often as it is stored, and nothing else. */
  lemma {:induction false} FilterCounts(s: seq<Capa>, keep: Capa -> bool)
    ensures forall c :: multiset(Filter(s, keep))[c] == if keep(c) then multiset(s)[c] else 0
  {
    if s != [] {
      assert s == [s[0]] + s[1..];
      FilterCounts(s[1..], keep);
    }
  }

  /** The reminder selection: exactly the due-soon CAPAs of the table. */
  function DueSoonCapas(capas: seq<Capa>, now: int, cfg: CapaConfig): (r: seq<Capa>)
    ensures forall c :: c in r <==> c in capas && DueSoon(c, now, cfg)
    ensures forall c :: c in r ==> c.status != Closed
  {
    Filter(capas, c => DueSoon(c, now, cfg))
  }

  /** The escalation selection: exactly the overdue CAPAs of the table. */
  function OverdueCapas(capas: seq<Capa>, now: int, cfg: CapaConfig): (r: seq<Capa>)
    ensures forall c :: c in r <==> c in capas && Overdue(c, now, cfg)
    ensures forall c :: c in r ==> c.status != Closed
  {
    Filter(capas, c => Overdue(c, now, cfg))
  }

  datatype EscalationReport = EscalationReport(remindersSent: nat, escalationsSent: nat)

  /** `handleCapaEscalation`: the sizes of the two selections. */
  function HandleCapaEscalation(capas: seq<Capa>, now: int, cfg: CapaConfig): (r: EscalationReport)
    ensures r.remindersSent == |DueSoonCapas(capas, now, cfg)|
    ensures r.escalationsSent == |OverdueCapas(capas, now, cfg)|
    ensures r.remindersSent <= |capas| && r.escalationsSent <= |capas|
    // one notification per row: all rows exactly when every row matches, none when none does
    ensures r.remindersSent == |capas| <==> forall i :: 0 <= i < |capas| ==> DueSoon(capas[i], now, cfg)
    ensures r.remindersSent == 0 <==> forall i :: 0 <= i < |capas| ==> !DueSoon(capas[i], now, cfg)
    ensures r.escalationsSent == |capas| <==> forall i :: 0 <= i < |capas| ==> Overdue(capas[i], now, cfg)
    ensures r.escalationsSent == 0 <==> forall i :: 0 <= i < |capas| ==> !Overdue(capas[i], now, cfg)
  {
    EscalationReport(|DueSoonCapas(capas, now, cfg)|, |OverdueCapas(capas, now, cfg)|)
  }

  /** Each selection holds every matching CAPA as often as the table does, so each count
      is the number of matching rows. */
  lemma SelectionCounts(capas: seq<Capa>, now: int, cfg: CapaConfig)
    ensures forall c :: multiset(DueSoonCapas(capas, now, cfg))[c] ==
                          if DueSoon(c, now, cfg) then multiset(capas)[c] else 0
    ensures forall c :: multiset(OverdueCapas(capas, now, cfg))[c] ==
                          if Overdue(c, now, cfg) then multiset(capas)[c] else 0
  {
    FilterCounts(capas, c => DueSoon(c, now, cfg));
    FilterCounts(capas, c => Overdue(c, now, cfg));
  }

  /** With a non-negative escalation delay no CAPA is both due soon and overdue. */
  lemma SelectionsAreDisjoint(c: Capa, now: int, cfg: CapaConfig)
    requires cfg.escalationDaysAfter >= 0
    ensures !(DueSoon(c, now, cfg) && Overdue(c, now, cfg))
  {
    assert cfg.escalationDaysAfter * DayMs >= 0;
  }

  /** Two selections with disjoint conditions together take at most every row once. */
  lemma {:induction false} DisjointFiltersFit(s: seq<Capa>, p: Capa -> bool, q: Capa -> bool)
    requires forall c :: !(p(c) && q(c))
    ensures |Filter(s, p)| + |Filter(s, q)| <= |s|
  {
    if s != [] {
      DisjointFiltersFit(s[1..], p, q);
    }
  }

  /** So one run never sends more notifications than there are CAPAs. */
  lemma NotificationsFit(capas: seq<Capa>, now: int, cfg: CapaConfig)
    requires cfg.escalationDaysAfter >= 0
    ensures var r := HandleCapaEscalation(capas, now, cfg);
            r.remindersSent + r.escalationsSent <= |capas|
  {
    forall c ensures !(DueSoon(c, now, cfg) && Overdue(c, now, cfg)) {
      SelectionsAreDisjoint(c, now, cfg);
    }
    DisjointFiltersFit(capas, c => DueSoon(c, now, cfg), c => Overdue(c, now, cfg));
  }
}
