/** All the invariants at once, for every run that starts from the empty database. */
module Reachable {
  import opened Schema
  import opened FactHistory
  import opened Engine
  import opened MergeForest
  import opened EventLogRuns
  import opened OverridePrecedence
  import opened Identity
  import opened AdmissionSafety

  lemma EmptyIsSound()
    ensures ForeignKeys(EMPTY_INVENTORY) && ForestSound(EMPTY_INVENTORY) && FactsSound(EMPTY_INVENTORY.facts)
    ensures AdmissionSound(EMPTY_INVENTORY) && IdentitySound(EMPTY_INVENTORY) && LogSound(EMPTY_INVENTORY)
  {
  }

  /**
   * Whatever the services do, in any order: merges stay a forest and no link hangs on a merged listing, every fact has
   * one current resolution backed by its evidence, and every ACTIVE listing is admissible. Without reversals identity
   * stays unique and freshness exact; with observations in order the event log replays to the current fields.
   */
  lemma EveryReachableStateIsSound(steps: seq<Step>)
    ensures ForeignKeys(EMPTY_INVENTORY)
    ensures
      var inv := Run(EMPTY_INVENTORY, steps);
      && ForestSound(inv) && FactsSound(inv.facts) && AdmissionSound(inv)
      && (NoReversals(steps) ==> IdentitySound(inv))
      && (RunInOrder(EMPTY_INVENTORY, steps) ==> LogSound(inv))
  {
    hide ForeignKeys, ForestSound, FactsSound, AdmissionSound, IdentitySound, LogSound, RunInOrder;
    EmptyIsSound();
    RunKeepsForest(EMPTY_INVENTORY, steps);
    RunKeepsFacts(EMPTY_INVENTORY, steps);
    RunKeepsSound(EMPTY_INVENTORY, steps);
    if NoReversals(steps) {
      RunKeepsIdentity(EMPTY_INVENTORY, steps);
    }
    if RunInOrder(EMPTY_INVENTORY, steps) {
      RunKeepsLog(EMPTY_INVENTORY, steps);
    }
  }
}
