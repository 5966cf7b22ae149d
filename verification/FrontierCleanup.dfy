/** cleanupFrontier of src/queue.ts: the pass over the frontier before the crawl loop starts. */
module FrontierCleanup {
  import opened Prelude
  import opened Database

  const FRONTIER_MAX := 50000
  const CLEANUP_LIMIT := 50000

  /** What happens to the delete statement of one round: it works, or it throws and the retry
      two seconds later works, or the retry throws too. */
  datatype Attempt = Works | RetryWorks | RetryFails

  /** The loop at or below FRONTIER_MAX. `attempts(i)` is the fate of round i, an arbitrary
      pattern of statement errors; the loop ends under every one of them. Only visited rows go,
      `totalCleaned` is the number of rows gone, and unless the pass gave up on a round
      (`skipped`) exactly the unvisited rows are left. */
  method RemoveVisited(db: CrawlDb, attempts: nat -> Attempt) returns (totalCleaned: nat, skipped: bool)
    modifies db
    ensures Trimmed(old(db.View()), db.View())
    ensures totalCleaned == |old(db.frontier)| - |db.frontier|
    ensures !skipped ==> db.frontier == old(db.frontier) - db.visited
    ensures skipped ==> exists i :: attempts(i) == RetryFails
  {
    totalCleaned, skipped := 0, false;
    var changes, round := 1, 0;
    while changes > 0
      invariant Trimmed(old(db.View()), db.View())
      invariant totalCleaned == |old(db.frontier)| - |db.frontier|
      invariant skipped ==> exists i :: attempts(i) == RetryFails
      invariant changes == 0 && !skipped ==> Stale(db.View()) == {}
      decreases |Stale(db.View())|, changes
    {
      if attempts(round) == RetryFails {
        skipped, changes := true, 0;
      } else {
        changes := db.DeleteVisitedRows(CLEANUP_LIMIT);
        totalCleaned := totalCleaned + changes;
      }
      round := round + 1;
    }
    assert skipped || forall u | u in db.frontier :: u !in db.visited by {
      assert forall u | u in db.frontier && u in db.visited :: u in Stale(db.View());
    }
  }

  /** A frontier above FRONTIER_MAX is dropped as a whole, and its ids start over. Of the three
      statements, DROP TABLE, CREATE TABLE and CREATE INDEX, the first `works` ones work and the next
      one throws. When the table is gone and not created again, no later statement on it works, the
      count at the end of the pass included: the start of the crawl is rejected. */
  method CleanupFrontier(db: CrawlDb, fCount: nat, attempts: nat -> Attempt, works: nat)
    returns (totalCleaned: nat, skipped: bool, tableGone: bool)
    modifies db
    ensures fCount > FRONTIER_MAX ==>
              && db.View() == (if works >= 1 then old(db.View()).(frontier := map[], nextId := 1) else old(db.View()))
              && (tableGone <==> works == 1)
    ensures fCount <= FRONTIER_MAX ==>
              && Trimmed(old(db.View()), db.View()) && !tableGone
              && totalCleaned == |old(db.frontier)| - |db.frontier|
              && (!skipped ==> db.frontier == old(db.frontier) - db.visited)
  {
    totalCleaned, skipped, tableGone := 0, false, false;
    if fCount > FRONTIER_MAX {
      if works >= 1 {
        db.frontier, db.nextId := map[], 1;
        tableGone := true;
        if works >= 2 { tableGone := false; }
      }
    } else {
      totalCleaned, skipped := RemoveVisited(db, attempts);
    }
  }
}
