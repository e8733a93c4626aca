/** Retention: rows that can no longer grant access are deleted in batches. */
module Retention {
  import opened Options
  import opened SessionModel
  import opened SessionStore

  const DEFAULT_PURGE_BATCH_SIZE: nat := 1000

  /** A batch size as a caller may pass it. */
  datatype Number = Undefined | NotFinite | Finite(value: real)

  /** `normalizeBatchSize`: a whole number, at least one, never more than was asked for. */
  function NormalizeBatchSize(batchSize: Number): (size: nat)
    ensures size >= 1
    ensures batchSize.Finite? && batchSize.value >= 1.0 ==> size as real <= batchSize.value < size as real + 1.0
    ensures !(batchSize.Finite? && batchSize.value >= 1.0) ==> size == DEFAULT_PURGE_BATCH_SIZE
  {
    if batchSize.Finite? && batchSize.value >= 1.0 then batchSize.value.Floor else DEFAULT_PURGE_BATCH_SIZE
  }

  datatype Device = Device(expiresAt: nat, revokedAt: Option<nat>)

  class DeviceTable {
    var rows: map<nat, Device>

    constructor (rows: map<nat, Device>)
      ensures this.rows == rows
    {
      this.rows := rows;
    }
  }

  /** `expiredOrRevokedWhere`. */
  predicate Stale(expiresAt: nat, revokedAt: Option<nat>, cutoff: nat) {
    expiresAt <= cutoff || (revokedAt.Some? && revokedAt.value <= cutoff)
  }

  /** One bulk delete of every row that is to go. */
  function Without<R>(rows: map<nat, R>, stale: R -> bool): map<nat, R> {
    map id | id in rows && !stale(rows[id]) :: rows[id]
  }

  function StaleIds<R>(rows: map<nat, R>, stale: R -> bool): set<nat> {
    set id | id in rows && stale(rows[id])
  }

  /** Up to `take` ids of rows that are to go. */
  method FindStale<R>(rows: map<nat, R>, stale: R -> bool, take: nat) returns (ids: set<nat>)
    ensures ids <= StaleIds(rows, stale)
    ensures |ids| == if |StaleIds(rows, stale)| < take then |StaleIds(rows, stale)| else take
  {
    ids := {};
    var rest := StaleIds(rows, stale);
    while |ids| < take && rest != {}
      invariant ids + rest == StaleIds(rows, stale) && ids !! rest && |ids| <= take
      decreases rest
    {
      var id :| id in rest;
      ids, rest := ids + {id}, rest - {id};
    }
    assert ids + rest == StaleIds(rows, stale);
    assert |ids + rest| == |ids| + |rest|;
    if rest == {} { assert ids == StaleIds(rows, stale); }
  }

  /** Deleting some of the rows that are to go leaves the others to go; deleting all of them is the bulk delete. */
  lemma SomeGone<R>(rows: map<nat, R>, stale: R -> bool, gone: set<nat>)
    requires gone <= StaleIds(rows, stale)
    ensures StaleIds(rows - gone, stale) == StaleIds(rows, stale) - gone
    ensures rows - StaleIds(rows, stale) == Without(rows, stale)
  {
  }

  lemma SubsetSizes(a: set<nat>, b: set<nat>)
    requires a <= b
    ensures |b - a| == |b| - |a|
    ensures |a| == |b| ==> a == b
  {
    assert b == (b - a) + a;
    if |a| == |b| { assert b - a == {}; }
  }

  /** `purgeSessionBatches` and `purgeTrustedDeviceBatches`: whatever the batch size, the loop ends and has deleted
      exactly what one bulk delete would, and counted it. */
  method PurgeBatches<R>(rows: map<nat, R>, stale: R -> bool, batchSize: nat) returns (left: map<nat, R>, count: nat)
    requires batchSize >= 1
    ensures left == Without(rows, stale)
    ensures count == |StaleIds(rows, stale)|
  {
    left, count := rows, 0;
    ghost var all, gone: set<nat> := StaleIds(rows, stale), {};
    while true
      invariant gone <= all && left == rows - gone && count == |gone|
      decreases |all| - count
    {
      SomeGone(rows, stale, gone);
      SubsetSizes(gone, all);
      var ids := FindStale(left, stale, batchSize);
      if |ids| == 0 { return; }
      gone := gone + ids;
      left := left - ids;
      count := count + |ids|;
      SubsetSizes(gone, all);
      if |ids| < batchSize { return; }
    }
  }

  /** `purgeAuthRetention`, after `options.now` was given its default. A dry run counts what the other would delete. */
  method PurgeAuthRetention(db: Tables, devices: DeviceTable, now: nat, dryRun: bool, batchSize: Number)
    returns (sessions: nat, trustedDevices: nat)
    modifies db`sessions, devices
    ensures forall id :: id in db.sessions <==>
              && id in old(db.sessions)
              && (dryRun || (now < old(db.sessions)[id].expiresAt
                             && (old(db.sessions)[id].revokedAt == None || now < old(db.sessions)[id].revokedAt.value)))
    ensures forall id :: id in devices.rows <==>
              && id in old(devices.rows)
              && (dryRun || (now < old(devices.rows)[id].expiresAt
                             && (old(devices.rows)[id].revokedAt == None
                                 || now < old(devices.rows)[id].revokedAt.value)))
    ensures forall id :: id in db.sessions ==> db.sessions[id] == old(db.sessions)[id]
    ensures forall id :: id in devices.rows ==> devices.rows[id] == old(devices.rows)[id]
    ensures sessions == |set id | id in old(db.sessions)
                                  && (old(db.sessions)[id].expiresAt <= now
                                      || (old(db.sessions)[id].revokedAt.Some?
                                          && old(db.sessions)[id].revokedAt.value <= now))|
    ensures trustedDevices == |set id | id in old(devices.rows)
                                        && (old(devices.rows)[id].expiresAt <= now
                                            || (old(devices.rows)[id].revokedAt.Some?
                                                && old(devices.rows)[id].revokedAt.value <= now))|
  {
    var staleSession := (s: Session) => Stale(s.expiresAt, s.revokedAt, now);
    var staleDevice := (d: Device) => Stale(d.expiresAt, d.revokedAt, now);
    assert StaleIds(db.sessions, staleSession)
           == set id | id in db.sessions
                       && (db.sessions[id].expiresAt <= now
                           || (db.sessions[id].revokedAt.Some? && db.sessions[id].revokedAt.value <= now));
    assert StaleIds(devices.rows, staleDevice)
           == set id | id in devices.rows
                       && (devices.rows[id].expiresAt <= now
                           || (devices.rows[id].revokedAt.Some? && devices.rows[id].revokedAt.value <= now));
    if dryRun { return |StaleIds(db.sessions, staleSession)|, |StaleIds(devices.rows, staleDevice)|; }
    var size := NormalizeBatchSize(batchSize);
    db.sessions, sessions := PurgeBatches(db.sessions, staleSession, size);
    devices.rows, trustedDevices := PurgeBatches(devices.rows, staleDevice, size);
  }
}
