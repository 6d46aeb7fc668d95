/** When a fresh export of an amp thread may take the place of the one committed. */
module AmpRecapture {
  import opened Journal

  predicate Supersedes(prior: Facts, facts: Facts) {
    if facts.transcript.lines < prior.transcript.lines then false
    else if facts.lastActiveAt > prior.lastActiveAt then true
    else
      && facts.lastActiveAt == prior.lastActiveAt
      && prior.incomplete
      && (facts.transcript.lines > prior.transcript.lines || !facts.incomplete)
  }

  /** Strictly ahead in (revision stamp, message count, clean), compared in that order. */
  predicate Ahead(a: Facts, b: Facts) {
    || a.lastActiveAt > b.lastActiveAt
    || (&& a.lastActiveAt == b.lastActiveAt
        && (|| a.transcript.lines > b.transcript.lines
            || (a.transcript.lines == b.transcript.lines && b.incomplete && !a.incomplete)))
  }

  /** What stands is what stood before, or strictly ahead of it and no shorter. */
  predicate Advanced(before: Facts, after: Facts) {
    after == before || (Ahead(after, before) && after.transcript.lines >= before.transcript.lines)
  }

  /** The veto refuses nothing it need not: a read is accepted exactly when it is ahead, no shorter, and, at the
      same stamp, repairs a flagged commit. */
  lemma SupersedesExactly(prior: Facts, facts: Facts)
    ensures Supersedes(prior, facts) <==>
              && Ahead(facts, prior)
              && facts.transcript.lines >= prior.transcript.lines
              && (facts.lastActiveAt == prior.lastActiveAt ==> prior.incomplete)
  {
  }
}
