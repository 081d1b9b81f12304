/** What a worker's second transaction writes on its job, and how a job ends over its attempts. */
module WorkerReports {
  import opened Prelude
  import opened Schema
  import opened JobQueue
  import opened Normalization
  import opened Worker

  /** Processing raises two errors only: the observation is not there, or a lookup found several rows. */
  lemma ProcessingErrors(inv: Inventory, o: nat, via: DiscoveryMethod, now: Time)
    requires ForeignKeys(inv)
    ensures
      var r := ProcessObservation(inv, o, via, now);
      && (r.Failure? ==> r.error in {RowNotFound, MultipleRows})
      && (r.Failure? && r.error == RowNotFound <==> o >= |inv.observations|)
  {
    hide ForeignKeys, AddListing, Attach, UpdateExisting, LatestSeen, StrongMultiFieldMatch, UnitsAt, MatchingLinks,
      AddressesWith, BuildingsAt, Usable;
  }

  /**
   * The holder's finish: processed without an error the job is SUCCEEDED; otherwise it carries the error's name and is
   * retried 60 seconds later, or has failed terminally when this was its last attempt. Either way the lease is gone.
   */
  lemma FinishedJob(s: System, finish: WorkStep)
    requires ForeignKeys(s.inventory) && finish.Finish? && Allowed(s, finish)
    requires s.queue.jobs[finish.job].leaseToken == Some(finish.token)
    ensures finish.job < |Perform(s, finish).queue.jobs|
    ensures
      var was, row := s.queue.jobs[finish.job], Perform(s, finish).queue.jobs[finish.job];
      var r := ProcessObservation(s.inventory, was.identity.inputHash, finish.via, finish.now);
      && row.leaseToken == None && row.leaseExpiresAt == None && row.attemptCount == was.attemptCount
      && (r.Success? ==>
            row.status == JobStatus.Succeeded && row.errorCode == None && row.completedAt == Some(finish.at))
      && (r.Failure? ==>
            row.errorCode == Some(if r.error == RowNotFound then "LookupError" else "MultipleResultsFound"))
      && (r.Failure? && was.attemptCount < was.maxAttempts ==>
            row.status == FailedRetryable && row.nextAttemptAt == Some(finish.at + 60))
      && (r.Failure? && was.attemptCount >= was.maxAttempts ==>
            && row.status == FailedTerminal && row.completedAt == Some(finish.at)
            && row.terminalReason == Some("max_attempts_exhausted"))
  {
    hide ForeignKeys, ProcessObservation, Normalized;
    ProcessingErrors(s.inventory, s.queue.jobs[finish.job].identity.inputHash, finish.via, finish.now);
  }
}
