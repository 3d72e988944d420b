/**
 The life of one queue row. Leases, the retry ladder, the circuit breaker, pauses and operator repairs all write
 the same columns; together they move a row only along the edges below.
 */
module RowAutomaton {
  import opened Prelude
  import opened Tables
  import opened Transactions

  /** Lease columns travel together and only on pending rows; attempts stay on the ladder. */
  ghost predicate RowInv(r: Row) {
    && (r.owner.Some? <==> r.expires.Some?)
    && (r.owner.Some? ==> r.status.Pending? && !Blank(r.owner.value))
    && match r.status
       case Pending => r.attempts < MAX_ATTEMPTS
       case Blocked => r.attempts < MAX_ATTEMPTS
       case Failed => r.attempts == MAX_ATTEMPTS
       case Sent => 1 <= r.attempts <= MAX_ATTEMPTS
  }

  ghost predicate IsNew(r: Row) {
    Open(r) && r.attempts == 0 && r.owner.None? && r.expires.None?
  }

  predicate Claims(r: Row, r': Row) {
    r.status.Pending? && r'.owner.Some? && r'.expires.Some? && !Blank(r'.owner.value)
    && r' == Leased(r, r'.owner.value, r'.expires.value)
  }

  predicate Completes(r: Row, r': Row) {
    (r.owner.Some? || Open(r)) && r' == SentRow(r)
  }

  predicate Fails(r: Row, r': Row) {
    r.owner.Some?
    && r' == Unlease(r).(status := RetrySchedule(r.attempts + 1, 0).status,
                         attempts := r.attempts + 1, nextAt := r'.nextAt)
  }

  predicate IsLimited(r: Row, r': Row) {
    r.owner.Some? && r' == LimitedRow(r, r'.nextAt)
  }

  predicate IsBlocked(r: Row, r': Row) {
    r.status.Pending? && r' == Unlease(r).(status := Blocked)
  }

  predicate IsRetried(r: Row, r': Row) {
    (r.status.Failed? || r.status.Blocked?) && Open(r')
    && r' == Unlease(r).(status := r'.status, attempts := 0, nextAt := r'.nextAt)
  }

  predicate IsReleased(r: Row, r': Row) {
    r.status.Blocked? && r' == Unlease(r).(status := Pending)
  }

  predicate IsRescheduled(r: Row, r': Row) {
    Open(r) && r' == r.(nextAt := r'.nextAt)
  }

  predicate IsRepaired(r: Row, r': Row) {
    Open(r) && r' == Unlease(r).(nextAt := r'.nextAt)
  }

  /** Every way a row moves without being claimed. Recovery of an expired lease is a repair that keeps the schedule. */
  predicate Edge(r: Row, r': Row) {
    || r' == r || Completes(r, r') || Fails(r, r') || IsLimited(r, r') || IsBlocked(r, r')
    || IsRetried(r, r') || IsReleased(r, r') || IsRescheduled(r, r') || IsRepaired(r, r')
  }

  /** Every edge and every claim keeps the row invariant, and never retargets a row. */
  lemma EdgeKeepsRowInv(r: Row, r': Row)
    requires RowInv(r) && (Edge(r, r') || Claims(r, r'))
    ensures RowInv(r') && r'.parent == r.parent && r'.dest == r.dest
  {
  }

  /** `sent` is terminal, and only an explicit retry leaves `failed`. */
  lemma TerminalRows(r: Row, r': Row)
    requires RowInv(r) && (Edge(r, r') || Claims(r, r'))
    ensures r.status.Sent? ==> r' == r
    ensures r.status.Failed? ==> r' == r || IsRetried(r, r')
  {
  }

  /** A lease seen after an edge was there before, and froze the attempts and the status meanwhile. */
  lemma EdgeTakesNoLease(r: Row, r': Row)
    requires RowInv(r) && Edge(r, r') && r'.owner.Some?
    ensures r'.owner == r.owner && r'.expires == r.expires && r'.attempts == r.attempts && r'.status == r.status
  {
  }

  /** One step of a whole queue: rows move along edges, new rows are untouched work, only open rows disappear. */
  ghost predicate Evolves(t: map<Id, Row>, t': map<Id, Row>) {
    && (forall id | id in t && id in t' :: Edge(t[id], t'[id]))
    && (forall id | id !in t && id in t' :: IsNew(t'[id]))
    && (forall id | id in t && id !in t' :: Open(t[id]))
  }

  ghost predicate RowsInv(t: map<Id, Row>) {
    forall id | id in t :: RowInv(t[id])
  }

  lemma EvolvesKeepsRowsInv(t: map<Id, Row>, t': map<Id, Row>)
    requires RowsInv(t) && Evolves(t, t')
    ensures RowsInv(t')
  {
    forall id | id in t'
      ensures RowInv(t'[id])
    {
      if id in t {
        EdgeKeepsRowInv(t[id], t'[id]);
      }
    }
  }
}
