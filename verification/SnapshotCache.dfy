/** The bounded cache of remote mission snapshots, and the change notices of the distributed store that empty it. */
module SnapshotCache {
  import opened Common
  import opened KeyCodec

  /** The times are ticks of the local clock, so they are not negative. */
  datatype Snapshot = Snapshot(created: nat, lastAccess: nat, frame: seq<bv8>)

  type Cache = map<string, Snapshot>

  const MAX_CACHED_ITEM: nat := 10

  // ----- what each operation may do -----

  /** The order in which the cache is visited. */
  predicate Before(a: string, b: string)
  {
    b != "" && (a == "" || a[0] < b[0] || (a[0] == b[0] && Before(a[1..], b[1..])))
  }

  lemma {:induction false} OneBefore(a: string, b: string)
    ensures a == b || Before(a, b) || Before(b, a)
    ensures !(Before(a, b) && Before(b, a)) && !Before(a, a)
  {
    if a != "" {
      OneBefore(a[1..], a[1..]);
      if b != "" {
        OneBefore(a[1..], b[1..]);
        assert a == [a[0]] + a[1..] && b == [b[0]] + b[1..];
      }
    }
  }

  lemma {:induction false} BeforeAll(a: string, b: string, c: string)
    requires Before(a, b) && Before(b, c)
    ensures Before(a, c)
  {
    if a != "" && a[0] == b[0] == c[0] {
      BeforeAll(a[1..], b[1..], c[1..]);
    }
  }

  /** Of the entries accessed longest ago, the first one visited. */
  predicate IsOldest(cache: Cache, key: string)
  {
    key in cache && forall k <- cache :: k != key ==>
      cache[key].lastAccess < cache[k].lastAccess || (cache[key].lastAccess == cache[k].lastAccess && Before(key, k))
  }

  /** A full cache has one entry to evict. */
  lemma OneOldest(cache: Cache, k: string, l: string)
    requires IsOldest(cache, k) && IsOldest(cache, l)
    ensures k == l
  {
    OneBefore(k, l);
  }

  /** A snapshot older than the cached one of its key changes nothing. Any other is stored, after an entry accessed
      longest ago has left a full cache. */
  ghost predicate Enqueued(cache: Cache, deviceId: DeviceId, missionId: int, snapshot: Option<Snapshot>, cache': Cache)
  {
    var key := GenerateKey(deviceId, missionId);
    if deviceId == "" || snapshot.None? || (key in cache && snapshot.value.created < cache[key].created) then
      cache' == cache
    else if |cache| == MAX_CACHED_ITEM then
      exists victim :: IsOldest(cache, victim) && cache' == (cache - {victim})[key := snapshot.value]
    else
      cache' == cache[key := snapshot.value]
  }

  /** A snapshot is let in if it is not older than the cached one of its key. */
  predicate LetsIn(cache: Cache, deviceId: DeviceId, missionId: int, snapshot: Option<Snapshot>)
  {
    && deviceId != "" && snapshot.Some?
    && var key := deviceId + "_" + ToString(missionId);
       key in cache ==> cache[key].created <= snapshot.value.created
  }

  /** A snapshot that is let in is cached afterwards, and no other key gains or changes one; one entry goes if the cache was
      full, and none otherwise. A snapshot that is not let in changes nothing. */
  lemma EnqueuedExactly(cache: Cache, deviceId: DeviceId, missionId: int, snapshot: Option<Snapshot>, cache': Cache)
    requires Enqueued(cache, deviceId, missionId, snapshot, cache')
    ensures var key := deviceId + "_" + ToString(missionId);
            if LetsIn(cache, deviceId, missionId, snapshot) then
              && key in cache' && cache'[key] == snapshot.value
              && (forall k <- cache' :: k != key ==> k in cache && cache'[k] == cache[k])
              && (|cache| != MAX_CACHED_ITEM ==> cache.Keys <= cache'.Keys)
              && (|cache| == MAX_CACHED_ITEM ==>
                    exists victim :: victim in cache && cache'.Keys == cache.Keys - {victim} + {key} &&
                                     forall k <- cache :: cache[victim].lastAccess <= cache[k].lastAccess)
            else cache' == cache
  {
    var key := GenerateKey(deviceId, missionId);
    if LetsIn(cache, deviceId, missionId, snapshot) && |cache| == MAX_CACHED_ITEM {
      var victim :| IsOldest(cache, victim) && cache' == (cache - {victim})[key := snapshot.value];
      assert cache'.Keys == cache.Keys - {victim} + {key};
      assert forall k <- cache :: cache[victim].lastAccess <= cache[k].lastAccess;
    }
  }

  /** What is left when every key with the uuid in it is deleted. */
  function Cleaned(cache: Cache, uuid: DeviceId): Cache
  {
    map k <- cache | !Contains(k, uuid) :: cache[k]
  }

  datatype Change = Change(inserts: seq<string>, deletes: seq<string>, updates: seq<string>)

  /** An entry whose key names a device that has no network id: the handler of change notices gives up there. */
  predicate Stops(key: string, net: DeviceId -> DeviceId)
  {
    var info := ParseInfo(key);
    info.Some? && net(info.value.uuid) == ""
  }

  function UpToStop(keys: seq<string>, net: DeviceId -> DeviceId): seq<string>
  {
    if keys == [] || Stops(keys[0], net) then [] else [keys[0]] + UpToStop(keys[1..], net)
  }

  /** The cache keys that entries with these keys name. */
  function Named(keys: seq<string>): set<string>
  {
    set k <- keys | ParseInfo(k).Some? :: GenerateKey(ParseInfo(k).value.uuid, ParseInfo(k).value.missionId)
  }

  datatype Notice = Notice(networkId: DeviceId, missionId: int)

  function Notices(keys: seq<string>, net: DeviceId -> DeviceId): seq<Notice>
  {
    if keys == [] then [] else
    match ParseInfo(keys[0])
    case None => Notices(keys[1..], net)
    case Some(info) => [Notice(net(info.uuid), info.missionId)] + Notices(keys[1..], net)
  }

  function Dropped(change: Change, net: DeviceId -> DeviceId): set<string>
  {
    if |UpToStop(change.inserts, net)| < |change.inserts| then {}
    else Named(change.deletes) + Named(UpToStop(change.updates, net))
  }

  function Sent(change: Change, net: DeviceId -> DeviceId): seq<Notice>
  {
    Notices(UpToStop(change.inserts, net), net) +
    if |UpToStop(change.inserts, net)| < |change.inserts| then [] else Notices(UpToStop(change.updates, net), net)
  }

  datatype Op =
    | Enqueue(deviceId: DeviceId, missionId: int, snapshot: Option<Snapshot>)
    | Dequeue(deviceId: DeviceId, missionId: int)
    | Delete(uuid: DeviceId)
    | OnChange(change: Change, net: DeviceId -> DeviceId)

  ghost predicate Next(cache: Cache, op: Op, cache': Cache)
  {
    match op
    case Enqueue(d, m, snapshot) => Enqueued(cache, d, m, snapshot, cache')
    case Dequeue(d, m) => cache' == if d == "" then cache else cache - {GenerateKey(d, m)}
    case Delete(uuid) => cache' == if uuid == "" then cache else Cleaned(cache, uuid)
    case OnChange(change, net) => cache' == cache - Dropped(change, net)
  }

  ghost predicate IsRun(caches: seq<Cache>, ops: seq<Op>)
  {
    && |caches| == |ops| + 1 && caches[0] == map[]
    && forall i :: 0 <= i < |ops| ==> Next(caches[i], ops[i], caches[i + 1])
  }

  // ----- what every run keeps -----

  lemma SmallerMap(cache: Cache, cache': Cache)
    requires cache'.Keys <= cache.Keys
    ensures |cache'| <= |cache|
  {
    var gone := cache.Keys - cache'.Keys;
    assert cache.Keys == cache'.Keys + gone;
    assert |cache| == |cache.Keys| && |cache'| == |cache'.Keys|;
  }

  lemma StoredSize(cache: Cache, key: string, snapshot: Snapshot)
    ensures |cache[key := snapshot]| == |cache| + if key in cache then 0 else 1
  {
    var cache' := cache[key := snapshot];
    assert cache'.Keys == cache.Keys + {key};
    assert |cache| == |cache.Keys| && |cache'| == |cache'.Keys|;
  }

  lemma EvictedSize(cache: Cache, victim: string)
    requires victim in cache
    ensures |cache - {victim}| == |cache| - 1
  {
    assert (cache - {victim}).Keys == cache.Keys - {victim};
    assert |cache| == |cache.Keys| && |cache - {victim}| == |(cache - {victim}).Keys|;
  }

  lemma StepKeeps(cache: Cache, op: Op, cache': Cache, k: string)
    requires Next(cache, op, cache') && |cache| <= MAX_CACHED_ITEM
    ensures |cache'| <= MAX_CACHED_ITEM
    ensures k in cache && k in cache' ==> cache[k].created <= cache'[k].created
  {
    if op.Enqueue? && cache' != cache {
      var key := GenerateKey(op.deviceId, op.missionId);
      if |cache| == MAX_CACHED_ITEM {
        var victim :| IsOldest(cache, victim) && cache' == (cache - {victim})[key := op.snapshot.value];
        EvictedSize(cache, victim);
        StoredSize(cache - {victim}, key, op.snapshot.value);
      } else {
        StoredSize(cache, key, op.snapshot.value);
      }
    } else {
      SmallerMap(cache, cache');
    }
  }

  /** No run lets the cache grow beyond its limit. */
  lemma {:induction false} AlwaysBounded(caches: seq<Cache>, ops: seq<Op>, i: nat)
    requires IsRun(caches, ops) && i < |caches|
    ensures |caches[i]| <= MAX_CACHED_ITEM
  {
    hide Next;
    if i > 0 {
      AlwaysBounded(caches, ops, i - 1);
      StepKeeps(caches[i - 1], ops[i - 1], caches[i], "");
    }
  }

  /** While a key stays present, its snapshot is never replaced by one created earlier. */
  lemma {:induction false} NeverOlder(caches: seq<Cache>, ops: seq<Op>, i: nat, j: nat, k: string)
    requires IsRun(caches, ops) && i <= j < |caches|
    requires forall n :: i <= n <= j ==> k in caches[n]
    ensures caches[i][k].created <= caches[j][k].created
  {
    hide Next;
    if i < j {
      NeverOlder(caches, ops, i, j - 1, k);
      AlwaysBounded(caches, ops, j - 1);
      StepKeeps(caches[j - 1], ops[j - 1], caches[j], k);
    }
  }

  /** Deletion takes a snapshot exactly if it belongs to the device or the device id is part of its mission id. */
  lemma DeletedExactly(cache: Cache, uuid: DeviceId, length: nat, u: DeviceId, m: int)
    requires Uniform(uuid, length) && Uniform(u, length)
    ensures GenerateKey(u, m) in Cleaned(cache, uuid) <==>
            GenerateKey(u, m) in cache && u != uuid && !Contains(ToString(m), uuid)
    ensures GenerateKey(u, m) in Cleaned(cache, uuid) ==> Cleaned(cache, uuid)[GenerateKey(u, m)] == cache[GenerateKey(u, m)]
  {
    SubstringOfEqualLength(u, uuid, m);
  }

  /** Deleting a device takes only its own snapshots. */
  ghost predicate TakesOnly(cache: Cache, uuid: DeviceId, length: nat)
  {
    forall u, m :: Uniform(u, length) && IsInt32(m) && GenerateKey(u, m) in cache ==>
                   (GenerateKey(u, m) in Cleaned(cache, uuid) <==> u != uuid)
  }

  /** The snapshot that a run stored last under a key. */
  function LastStored(caches: seq<Cache>, ops: seq<Op>, i: nat, k: string): Option<Snapshot>
    requires i <= |ops| && |caches| == |ops| + 1
  {
    if i == 0 then None else
    match ops[i - 1]
    case Enqueue(d, m, snapshot) =>
      if LetsIn(caches[i - 1], d, m, snapshot) && d + "_" + ToString(m) == k then snapshot
      else LastStored(caches, ops, i - 1, k)
    case _ => LastStored(caches, ops, i - 1, k)
  }

  /** In every run, what is cached under a key is the snapshot last let in for it. */
  lemma {:induction false} HoldsTheLastStored(caches: seq<Cache>, ops: seq<Op>, i: nat, k: string)
    requires IsRun(caches, ops) && i < |caches| && k in caches[i]
    ensures LastStored(caches, ops, i, k) == Some(caches[i][k])
  {
    if i > 0 {
      var op := ops[i - 1];
      assert Next(caches[i - 1], op, caches[i]);
      if op.Enqueue? {
        EnqueuedExactly(caches[i - 1], op.deviceId, op.missionId, op.snapshot, caches[i]);
      }
      if k in caches[i - 1] {
        HoldsTheLastStored(caches, ops, i - 1, k);
      }
    }
  }

  /** For device ids of one length without underscore, deletion takes exactly the device's snapshots if and only if its
      id is part of no mission id under which another device has a snapshot. */
  lemma DeleteIsExact(cache: Cache, uuid: DeviceId, length: nat)
    requires Uniform(uuid, length)
    ensures TakesOnly(cache, uuid, length) <==>
            forall u, m :: Uniform(u, length) && IsInt32(m) && GenerateKey(u, m) in cache && u != uuid ==>
                           !Contains(ToString(m), uuid)
    ensures length > 11 ==> TakesOnly(cache, uuid, length)
  {
    forall u, m | Uniform(u, length) && IsInt32(m) && GenerateKey(u, m) in cache
      ensures GenerateKey(u, m) in Cleaned(cache, uuid) <==> u != uuid && !Contains(ToString(m), uuid)
      ensures length > 11 ==> !Contains(ToString(m), uuid)
    {
      DeletedExactly(cache, uuid, length, u, m);
      IdLength(m);
    }
  }

  // ----- change notices -----

  ghost predicate Resolved(keys: seq<string>, net: DeviceId -> DeviceId)
  {
    forall i :: 0 <= i < |keys| ==> !Stops(keys[i], net)
  }

  lemma {:induction false} UpToStopAll(keys: seq<string>, net: DeviceId -> DeviceId)
    ensures Resolved(keys, net) <==> UpToStop(keys, net) == keys
    ensures Resolved(keys, net) <==> |UpToStop(keys, net)| == |keys|
    ensures |UpToStop(keys, net)| <= |keys|
  {
    if keys != [] {
      UpToStopAll(keys[1..], net);
      assert keys == [keys[0]] + keys[1..];
    }
  }

  lemma NamedKey(keys: seq<string>, u: DeviceId, m: int)
    requires IsInt32(m) && Clean(u)
    ensures GenerateKey(u, m) in keys ==> GenerateKey(u, m) in Named(keys)
  {
    ParseRoundTrip(u, m);
  }

  /** A stored snapshot that a notice says was deleted leaves the cache, if and only if every insert entry of the notice
      names a device with a network id (or the snapshot was not cached). */
  lemma DeletedLeavesCache(cache: Cache, change: Change, net: DeviceId -> DeviceId, u: DeviceId, m: int)
    requires IsInt32(m) && Clean(u) && GenerateKey(u, m) in change.deletes && GenerateKey(u, m) in cache
    ensures GenerateKey(u, m) !in cache - Dropped(change, net) <==> Resolved(change.inserts, net)
  {
    NamedKey(change.deletes, u, m);
    UpToStopAll(change.inserts, net);
  }

  predicate Names(key: string, u: DeviceId, m: int) { ParseInfo(key) == Some(KeyInfo(u, m)) }

  /** An entry that the handler gets past: its key names no device, or one with a network id. */
  predicate Known(key: string, net: DeviceId -> DeviceId)
  {
    ParseInfo(key).Some? ==> net(ParseInfo(key).value.uuid) != ""
  }

  lemma KnownIs(net: DeviceId -> DeviceId)
    ensures forall key :: Known(key, net) <==> !Stops(key, net)
  {
    hide ParseInfo;
  }

  /** Some entry names the snapshot, and the handler reaches it. */
  ghost predicate ReachedBy(keys: seq<string>, net: DeviceId -> DeviceId, u: DeviceId, m: int)
  {
    exists j :: 0 <= j < |keys| && Names(keys[j], u, m) && forall i :: 0 <= i <= j ==> Known(keys[i], net)
  }

  lemma NamedIff(keys: seq<string>, u: DeviceId, m: int)
    requires IsInt32(m)
    ensures GenerateKey(u, m) in Named(keys) <==> exists k :: k in keys && Names(k, u, m)
  {
    if k :| k in keys && ParseInfo(k).Some? &&
            GenerateKey(ParseInfo(k).value.uuid, ParseInfo(k).value.missionId) == GenerateKey(u, m) {
      KeyInjective(ParseInfo(k).value.uuid, ParseInfo(k).value.missionId, u, m);
      assert Names(k, u, m);
    }
  }

  lemma {:induction false} ReachedIff(keys: seq<string>, net: DeviceId -> DeviceId, u: DeviceId, m: int)
    ensures ReachedBy(keys, net, u, m) <==> exists k :: k in UpToStop(keys, net) && Names(k, u, m)
  {
    KnownIs(net);
    hide Names, Stops, Known, ParseInfo;
    if keys != [] && Known(keys[0], net) {
      var rest := keys[1..];
      ReachedIff(rest, net, u, m);
      if ReachedBy(rest, net, u, m) {
        var j :| 0 <= j < |rest| && Names(rest[j], u, m) && forall i :: 0 <= i <= j ==> Known(rest[i], net);
        assert Names(keys[j + 1], u, m) && forall i :: 0 <= i <= j + 1 ==> Known(keys[i], net);
      }
      if Names(keys[0], u, m) {
        assert ReachedBy(keys, net, u, m) && keys[0] in UpToStop(keys, net);
      } else if ReachedBy(keys, net, u, m) {
        var j :| 0 <= j < |keys| && Names(keys[j], u, m) && forall i :: 0 <= i <= j ==> Known(keys[i], net);
        assert rest[j - 1] == keys[j] && forall i :: 0 <= i <= j - 1 ==> Known(rest[i], net);
      }
    }
  }

  /** A cached snapshot goes exactly if the handler gets past the inserted entries, and a deleted entry names it, or an
      updated one that the handler reaches. */
  lemma NoticeDropsExactly(cache: Cache, change: Change, net: DeviceId -> DeviceId, u: DeviceId, m: int)
    requires IsInt32(m) && GenerateKey(u, m) in cache
    ensures GenerateKey(u, m) !in cache - Dropped(change, net) <==>
            && (forall i :: 0 <= i < |change.inserts| ==> Known(change.inserts[i], net))
            && ((exists j :: 0 <= j < |change.deletes| && Names(change.deletes[j], u, m)) ||
                ReachedBy(change.updates, net, u, m))
  {
    KnownIs(net);
    hide Names, Stops, Known, ParseInfo, Named, UpToStop;
    UpToStopAll(change.inserts, net);
    NamedIff(change.deletes, u, m);
    NamedIff(UpToStop(change.updates, net), u, m);
    ReachedIff(change.updates, net, u, m);
  }

  lemma {:induction false} NoticesIff(keys: seq<string>, net: DeviceId -> DeviceId, n: Notice)
    ensures n in Notices(keys, net) <==> exists k, u :: k in keys && Names(k, u, n.missionId) && net(u) == n.networkId
  {
    hide ParseInfo;
    if keys != [] {
      NoticesIff(keys[1..], net, n);
      if info :| ParseInfo(keys[0]) == Some(info) && Notice(net(info.uuid), info.missionId) == n {
        assert Names(keys[0], info.uuid, n.missionId);
      }
    }
  }

  /** The listeners of a device are notified about a mission exactly if an inserted entry that the handler reaches names it,
      or the handler gets past those and reaches an updated entry that does. */
  lemma NoticeSentExactly(change: Change, net: DeviceId -> DeviceId, n: Notice)
    ensures n in Sent(change, net) <==>
            exists u :: net(u) == n.networkId &&
                        (ReachedBy(change.inserts, net, u, n.missionId) ||
                         ((forall i :: 0 <= i < |change.inserts| ==> Known(change.inserts[i], net)) &&
                          ReachedBy(change.updates, net, u, n.missionId)))
  {
    KnownIs(net);
    hide Names, Stops, Known, ParseInfo, UpToStop, Notices;
    UpToStopAll(change.inserts, net);
    NoticesIff(UpToStop(change.inserts, net), net, n);
    NoticesIff(UpToStop(change.updates, net), net, n);
    forall u ensures ReachedBy(change.inserts, net, u, n.missionId) <==>
                     exists k :: k in UpToStop(change.inserts, net) && Names(k, u, n.missionId) {
      ReachedIff(change.inserts, net, u, n.missionId);
    }
    forall u ensures ReachedBy(change.updates, net, u, n.missionId) <==>
                     exists k :: k in UpToStop(change.updates, net) && Names(k, u, n.missionId) {
      ReachedIff(change.updates, net, u, n.missionId);
    }
  }

  /** A notice takes no snapshot away that none of its delete and update entries names. */
  lemma OthersStay(cache: Cache, change: Change, net: DeviceId -> DeviceId, k: string)
    requires k in cache && k !in Named(change.deletes) && k !in Named(change.updates)
    ensures k in cache - Dropped(change, net)
  {
    UpToStopPart(change.updates, net);
  }

  lemma {:induction false} UpToStopPart(keys: seq<string>, net: DeviceId -> DeviceId)
    ensures forall k <- UpToStop(keys, net) :: k in keys
  {
    if keys != [] {
      UpToStopPart(keys[1..], net);
    }
  }

  // ----- the cache of the mission manager -----

  class DistributedSchedMissionManager {
    var cachedSnapshotInfos: Cache
    var notices: seq<Notice>

    constructor ()
      ensures cachedSnapshotInfos == map[] && notices == []
    {
      cachedSnapshotInfos, notices := map[], [];
    }

    method FindOldest() returns (oldest: Option<string>)
      ensures if cachedSnapshotInfos == map[] then oldest == None
              else oldest.Some? && IsOldest(cachedSnapshotInfos, oldest.value)
    {
      hide Before;
      var time: int := -1;
      oldest := None;
      var todo := cachedSnapshotInfos.Keys;
      while todo != {}
        invariant todo <= cachedSnapshotInfos.Keys
        invariant forall j, k :: j in cachedSnapshotInfos && j !in todo && k in todo ==> Before(j, k)
        invariant if oldest.None? then time == -1 && todo == cachedSnapshotInfos.Keys
                  else && oldest.value in cachedSnapshotInfos && oldest.value !in todo
                       && time == cachedSnapshotInfos[oldest.value].lastAccess
                       && OldestBut(cachedSnapshotInfos, oldest.value, todo)
        decreases |todo|
      {
        var k := PickFirst(todo);
        todo := todo - {k};
        if time == -1 || cachedSnapshotInfos[k].lastAccess < time {
          time := cachedSnapshotInfos[k].lastAccess;
          oldest := Some(k);
        }
      }
    }

    method EnqueueCachedSnapshotInfo(deviceId: DeviceId, missionId: int, snapshot: Option<Snapshot>)
      modifies this`cachedSnapshotInfos
      ensures Next(old(cachedSnapshotInfos), Enqueue(deviceId, missionId, snapshot), cachedSnapshotInfos)
      ensures var key := deviceId + "_" + ToString(missionId);
              if LetsIn(old(cachedSnapshotInfos), deviceId, missionId, snapshot)
              then key in cachedSnapshotInfos && cachedSnapshotInfos[key] == snapshot.value
              else cachedSnapshotInfos == old(cachedSnapshotInfos)
    {
      if deviceId == "" || snapshot.None? {
        return;
      }
      var key := GenerateKey(deviceId, missionId);
      if key in cachedSnapshotInfos {
        if snapshot.value.created < cachedSnapshotInfos[key].created {
          return;
        }
      }
      if |cachedSnapshotInfos| == MAX_CACHED_ITEM {
        var oldest := FindOldest();
        if oldest.Some? {
          cachedSnapshotInfos := cachedSnapshotInfos - {oldest.value};
        }
      }
      cachedSnapshotInfos := cachedSnapshotInfos[key := snapshot.value];
    }

    method DequeueCachedSnapshotInfo(deviceId: DeviceId, missionId: int, tick: nat) returns (snapshot: Option<Snapshot>)
      modifies this`cachedSnapshotInfos
      ensures Next(old(cachedSnapshotInfos), Dequeue(deviceId, missionId), cachedSnapshotInfos)
      ensures snapshot == if deviceId != "" && GenerateKey(deviceId, missionId) in old(cachedSnapshotInfos)
                          then Some(old(cachedSnapshotInfos)[GenerateKey(deviceId, missionId)].(lastAccess := tick))
                          else None
    {
      if deviceId == "" {
        return None;
      }
      var key := GenerateKey(deviceId, missionId);
      if key in cachedSnapshotInfos {
        snapshot := Some(cachedSnapshotInfos[key].(lastAccess := tick));
        cachedSnapshotInfos := cachedSnapshotInfos - {key};
        return;
      }
      return None;
    }

    /** `uuid` is what the device index answers for the network id. */
    method DeleteCachedSnapshotInfo(networkId: DeviceId, uuid: DeviceId)
      requires networkId == "" ==> uuid == ""
      modifies this`cachedSnapshotInfos
      ensures Next(old(cachedSnapshotInfos), Delete(uuid), cachedSnapshotInfos)
    {
      if networkId == "" {
        return;
      }
      if uuid == "" {
        return;
      }
      ghost var cache := cachedSnapshotInfos;
      var todo := cachedSnapshotInfos.Keys;
      while todo != {}
        invariant todo <= cachedSnapshotInfos.Keys <= cache.Keys
        invariant forall k <- cachedSnapshotInfos :: cachedSnapshotInfos[k] == cache[k]
        invariant forall k <- cache :: k in cachedSnapshotInfos <==> k in todo || !Contains(k, uuid)
        decreases |todo|
      {
        var k := Pick(todo);
        todo := todo - {k};
        if Contains(k, uuid) {
          cachedSnapshotInfos := cachedSnapshotInfos - {k};
        }
      }
    }

    /** The loop over inserted entries; false when it gave up. */
    method NotifyInserts(keys: seq<string>, net: DeviceId -> DeviceId) returns (goesOn: bool)
      modifies this`notices
      ensures goesOn <==> Resolved(keys, net)
      ensures notices == old(notices) + Notices(UpToStop(keys, net), net)
    {
      hide UpToStop, Notices, ParseInfo, GenerateKey;
      var i := 0;
      while i < |keys|
        invariant 0 <= i <= |keys|
        invariant forall j :: 0 <= j < i ==> !Stops(keys[j], net)
        invariant old(notices) + Notices(UpToStop(keys, net), net) == notices + Notices(UpToStop(keys[i..], net), net)
      {
        UpToStopAt(keys, net, i);
        var info := ParseInfo(keys[i]);
        if info.Some? {
          var networkId := net(info.value.uuid);
          if networkId == "" {
            return false;
          }
          notices := notices + [Notice(networkId, info.value.missionId)];
        }
        i := i + 1;
      }
      UpToStopEnd(keys, net);
      return true;
    }

    /** The loop over deleted entries. */
    method DequeueDeletes(keys: seq<string>, tick: nat)
      modifies this`cachedSnapshotInfos
      ensures cachedSnapshotInfos == old(cachedSnapshotInfos) - Named(keys)
    {
      hide Named;
      NamedEnd(keys);
      var i := 0;
      while i < |keys|
        invariant 0 <= i <= |keys|
        invariant cachedSnapshotInfos == old(cachedSnapshotInfos) - Named(keys[..i])
      {
        NamedStep(keys, i);
        var info := ParseInfo(keys[i]);
        if info.Some? {
          var dropped := DequeueCachedSnapshotInfo(info.value.uuid, info.value.missionId, tick);
        }
        i := i + 1;
      }
    }

    /** The loop over updated entries. */
    method NotifyUpdates(keys: seq<string>, net: DeviceId -> DeviceId, tick: nat)
      modifies this`cachedSnapshotInfos, this`notices
      ensures notices == old(notices) + Notices(UpToStop(keys, net), net)
      ensures cachedSnapshotInfos == old(cachedSnapshotInfos) - Named(UpToStop(keys, net))
    {
      hide UpToStop, Notices, Named, ParseInfo, GenerateKey;
      var i := 0;
      while i < |keys|
        invariant 0 <= i <= |keys|
        invariant old(notices) + Notices(UpToStop(keys, net), net) == notices + Notices(UpToStop(keys[i..], net), net)
        invariant old(cachedSnapshotInfos) - Named(UpToStop(keys, net))
                  == cachedSnapshotInfos - Named(UpToStop(keys[i..], net))
      {
        UpToStopAt(keys, net, i);
        var info := ParseInfo(keys[i]);
        if info.Some? {
          var networkId := net(info.value.uuid);
          if networkId == "" {
            return;
          }
          var dropped := DequeueCachedSnapshotInfo(info.value.uuid, info.value.missionId, tick);
          notices := notices + [Notice(networkId, info.value.missionId)];
        }
        i := i + 1;
      }
      UpToStopEnd(keys, net);
    }

    /** DistributedDataChangeListener::OnChange. */
    method OnChange(change: Change, net: DeviceId -> DeviceId, tick: nat)
      modifies this
      ensures Next(old(cachedSnapshotInfos), Op.OnChange(change, net), cachedSnapshotInfos)
      ensures notices == old(notices) + Sent(change, net)
    {
      hide UpToStop, Notices, Named, ParseInfo, GenerateKey;
      UpToStopAll(change.inserts, net);
      var goesOn := NotifyInserts(change.inserts, net);
      if !goesOn {
        return;
      }
      DequeueDeletes(change.deletes, tick);
      NotifyUpdates(change.updates, net, tick);
    }
  }

  lemma UpToStopAt(keys: seq<string>, net: DeviceId -> DeviceId, i: nat)
    requires i < |keys|
    ensures var rest := UpToStop(keys[i + 1..], net); var all := UpToStop(keys[i..], net);
            if Stops(keys[i], net) then
              all == [] && Notices(all, net) == [] && Named(all) == {}
            else
              && |all| == |rest| + 1
              && match ParseInfo(keys[i])
                 case None => Notices(all, net) == Notices(rest, net) && Named(all) == Named(rest)
                 case Some(info) =>
                   && Notices(all, net) == [Notice(net(info.uuid), info.missionId)] + Notices(rest, net)
                   && Named(all) == {GenerateKey(info.uuid, info.missionId)} + Named(rest)
  {
    assert keys[i..][1..] == keys[i + 1..];
    if !Stops(keys[i], net) {
      var rest := UpToStop(keys[i + 1..], net);
      var all := [keys[i]] + rest;
      assert UpToStop(keys[i..], net) == all;
      assert all[1..] == rest;
      NamedSplit([keys[i]], rest);
      NamedOne(keys[i]);
    }
  }

  lemma NamedSplit(keys: seq<string>, more: seq<string>)
    ensures Named(keys + more) == Named(keys) + Named(more)
  {
  }

  lemma NamedOne(key: string)
    ensures Named([key]) == match ParseInfo(key)
                            case None => {}
                            case Some(info) => {GenerateKey(info.uuid, info.missionId)}
  {
  }

  lemma UpToStopEnd(keys: seq<string>, net: DeviceId -> DeviceId)
    ensures UpToStop(keys[|keys|..], net) == [] && Notices([], net) == [] && Named([]) == {}
  {
  }

  lemma NamedStep(keys: seq<string>, i: nat)
    requires i < |keys|
    ensures Named(keys[..i + 1]) == Named(keys[..i]) + match ParseInfo(keys[i])
                                                       case None => {}
                                                       case Some(info) => {GenerateKey(info.uuid, info.missionId)}
  {
    assert keys[..i + 1] == keys[..i] + [keys[i]];
    NamedSplit(keys[..i], [keys[i]]);
    NamedOne(keys[i]);
  }

  lemma NamedEnd(keys: seq<string>)
    ensures Named(keys[..0]) == {} && Named(keys[..|keys|]) == Named(keys)
  {
    assert keys[..|keys|] == keys;
  }

  /** The oldest entry besides those in todo. */
  ghost predicate OldestBut(cache: Cache, key: string, todo: set<string>)
    requires key in cache
  {
    forall k <- cache :: k != key && k !in todo ==>
      cache[key].lastAccess < cache[k].lastAccess || (cache[key].lastAccess == cache[k].lastAccess && Before(key, k))
  }

  /** The next key of an iteration. */
  method PickFirst(keys: set<string>) returns (first: string)
    requires keys != {}
    ensures first in keys && forall k <- keys :: k == first || Before(first, k)
  {
    hide Before;
    first := Pick(keys);
    var todo := keys - {first};
    while todo != {}
      invariant todo <= keys && first in keys && first !in todo
      invariant forall k <- keys :: k in todo || k == first || Before(first, k)
      decreases |todo|
    {
      var k := Pick(todo);
      todo := todo - {k};
      OneBefore(first, k);
      if !Before(first, k) {
        BeforeEach(k, first, keys);
        first := k;
      }
    }
  }

  lemma BeforeEach(k: string, first: string, keys: set<string>)
    requires Before(k, first)
    ensures forall x <- keys :: Before(first, x) ==> Before(k, x)
  {
    forall x <- keys | Before(first, x) ensures Before(k, x) { BeforeAll(k, first, x); }
  }
}
