/**
 * `PlayerCleanupService` (src/services/playerCleanup.ts): a singleton that
 * holds at most one daily cron job and, when the job fires or an admin
 * asks, deletes the players not updated before a cutoff (six months before
 * now). The clock and the scheduler are outside the model: the cutoff is a
 * parameter and the job is the schedule it was created with.
 */
module PlayerCleanup {
  import opened Wrappers

  /** A player row as the cleanup reads it: its id and the time of its last update. */
  datatype StoredPlayer = StoredPlayer(id: int, updatedAt: int)

  /** A scheduled job: its cron expression and its time zone. */
  datatype CronJob = CronJob(expression: string, timezone: string)

  /** Every day at 2 AM, UTC. */
  const DailyAtTwo := CronJob("0 2 * * *", "UTC")

  /** Where a database call of the cleanup raises, if anywhere. */
  datatype CleanupFault = NoFault | FindFails | DeleteFails

  /** How a cleanup run ends. Every error is caught, so there is no raising outcome. */
  datatype CleanupReport =
    | NothingToClean            // no inactive player: no delete issued
    | Cleaned(deletedCount: nat)
    | CleanupFailed             // a query raised; the error was logged

  /** The rows `findMany` returns: updated strictly before the cutoff, in table order. */
  function Inactive(players: seq<StoredPlayer>, cutoff: int): (r: seq<StoredPlayer>)
    ensures forall p :: p in r <==> p in players && p.updatedAt < cutoff
    ensures |r| <= |players|
  {
    if players == [] then []
    else if players[0].updatedAt < cutoff then [players[0]] + Inactive(players[1..], cutoff)
    else Inactive(players[1..], cutoff)
  }

  /** The rows `deleteMany` leaves: those not updated before the cutoff, in table order. */
  function Kept(players: seq<StoredPlayer>, cutoff: int): (r: seq<StoredPlayer>)
    ensures forall p :: p in r <==> p in players && cutoff <= p.updatedAt
    ensures |r| <= |players|
  {
    if players == [] then []
    else if cutoff <= players[0].updatedAt then [players[0]] + Kept(players[1..], cutoff)
    else Kept(players[1..], cutoff)
  }

  /** Deleting the inactive rows loses no other row and invents none: the two parts make up the table. */
  lemma {:induction false} PartitionOfTable(players: seq<StoredPlayer>, cutoff: int)
    ensures multiset(Inactive(players, cutoff)) + multiset(Kept(players, cutoff)) == multiset(players)
    ensures |Inactive(players, cutoff)| + |Kept(players, cutoff)| == |players|
  {
    if players != [] {
      PartitionOfTable(players[1..], cutoff);
      assert players == [players[0]] + players[1..];
    }
  }

  /** A second cleanup with the same cutoff finds nothing to delete. */
  lemma CleanupIdempotent(players: seq<StoredPlayer>, cutoff: int)
    ensures Inactive(Kept(players, cutoff), cutoff) == []
  {
    var k := Kept(players, cutoff);
    if Inactive(k, cutoff) != [] {
      assert Inactive(k, cutoff)[0] in Inactive(k, cutoff);
    }
  }

  /** Nothing to delete exactly when every row was updated at or after the cutoff, and then nothing is lost. */
  lemma {:induction false} NothingInactive(players: seq<StoredPlayer>, cutoff: int)
    ensures Inactive(players, cutoff) == [] <==> forall p :: p in players ==> cutoff <= p.updatedAt
    ensures Inactive(players, cutoff) == [] ==> Kept(players, cutoff) == players
  {
    if players != [] {
      NothingInactive(players[1..], cutoff);
      if Inactive(players, cutoff) == [] {
        assert players[0] !in Inactive(players, cutoff);
        assert players == [players[0]] + players[1..];
      }
    }
  }

  /** The player table and the calls made to it. */
  class PlayerTable {
    var rows: seq<StoredPlayer>
    var deleteManyCalls: nat

    constructor (rows: seq<StoredPlayer>)
      ensures this.rows == rows && deleteManyCalls == 0
    {
      this.rows := rows;
      deleteManyCalls := 0;
    }

    /** `deleteMany({ where: { updatedAt: { lt: cutoff } } })`: the count of deleted rows, or the error. */
    method DeleteMany(cutoff: int, fails: bool) returns (count: Option<nat>)
      modifies this
      ensures deleteManyCalls == old(deleteManyCalls) + 1
      ensures fails ==> count.None? && rows == old(rows)
      ensures !fails ==> count == Some(|Inactive(old(rows), cutoff)|) && rows == Kept(old(rows), cutoff)
    {
      deleteManyCalls := deleteManyCalls + 1;
      if fails {
        return None;
      }
      count := Some(|Inactive(rows, cutoff)|);
      rows := Kept(rows, cutoff);
    }
  }

  class PlayerCleanupService {
    /** `cronJob`: the running job, or none while the service is idle. */
    var cronJob: Option<CronJob>

    constructor ()
      ensures cronJob.None?
    {
      cronJob := None;
    }

    /** `start`: a running service keeps its job; an idle one schedules the daily job. */
    method Start()
      modifies this`cronJob
      ensures old(cronJob).Some? ==> cronJob == old(cronJob)
      ensures old(cronJob).None? ==> cronJob == Some(DailyAtTwo)
    {
      if cronJob.Some? {
        return;
      }
      cronJob := Some(DailyAtTwo);
    }

    /** `stop`: the service ends idle, whether or not it was running. */
    method Stop()
      modifies this`cronJob
      ensures cronJob.None?
    {
      if cronJob.Some? {
        cronJob := None;
      }
    }

    /**
     * `cleanupInactivePlayers`: find the players updated before the
     * cutoff; with none, stop without deleting; otherwise delete them all.
     * A raising query is caught and leaves the table as it was.
     */
    method CleanupInactivePlayers(db: PlayerTable, cutoff: int, fault: CleanupFault) returns (report: CleanupReport)
      modifies db
      ensures fault == FindFails ==> report == CleanupFailed && db.rows == old(db.rows) && db.deleteManyCalls == old(db.deleteManyCalls)
      ensures fault != FindFails && Inactive(old(db.rows), cutoff) == [] ==>
        report == NothingToClean && db.rows == old(db.rows) && db.deleteManyCalls == old(db.deleteManyCalls)
      ensures fault != FindFails && Inactive(old(db.rows), cutoff) != [] ==>
        db.deleteManyCalls == old(db.deleteManyCalls) + 1
        && (fault == DeleteFails ==> report == CleanupFailed && db.rows == old(db.rows))
        && (fault == NoFault ==> report == Cleaned(|Inactive(old(db.rows), cutoff)|) && db.rows == Kept(old(db.rows), cutoff))
    {
      if fault == FindFails {
        return CleanupFailed;
      }
      var inactivePlayers := Inactive(db.rows, cutoff);
      if |inactivePlayers| == 0 {
        return NothingToClean;
      }
      var deleted := db.DeleteMany(cutoff, fault == DeleteFails);
      if deleted.None? {
        return CleanupFailed;
      }
      report := Cleaned(deleted.value);
    }

    /** `runCleanupNow`: the same run, on demand. */
    method RunCleanupNow(db: PlayerTable, cutoff: int, fault: CleanupFault) returns (report: CleanupReport)
      modifies db
      ensures fault == NoFault ==> db.rows == Kept(old(db.rows), cutoff)
      ensures fault == NoFault && Inactive(old(db.rows), cutoff) != [] ==> report == Cleaned(|Inactive(old(db.rows), cutoff)|)
      ensures fault != NoFault ==> db.rows == old(db.rows)
    {
      report := CleanupInactivePlayers(db, cutoff, fault);
      NothingInactive(old(db.rows), cutoff);
    }
  }

  /** The class's static `instance` slot. */
  class ServiceRegistry {
    var instance: PlayerCleanupService?

    constructor ()
      ensures instance == null
    {
      instance := null;
    }

    /** `getInstance`: the stored instance, created idle on the first call. */
    method GetInstance() returns (service: PlayerCleanupService)
      modifies this
      ensures instance == service
      ensures old(instance) != null ==> service == old(instance)
      ensures old(instance) == null ==> fresh(service) && service.cronJob.None?
    {
      if instance == null {
        instance := new PlayerCleanupService();
      }
      service := instance;
    }
  }

  /** Two calls of `getInstance` return the same object, whatever came before. */
  method SameInstance(registry: ServiceRegistry) returns (first: PlayerCleanupService, second: PlayerCleanupService)
    modifies registry
    ensures first == second && registry.instance == first
  {
    first := registry.GetInstance();
    second := registry.GetInstance();
  }
}
