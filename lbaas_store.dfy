/**
 * The rows of the lbaas plugin's database that the driver reads (get_pool)
 * and that its callbacks write (update_status, update_pool_health_monitor,
 * _delete_db_vip, _delete_db_pool, _delete_db_member,
 * _delete_db_pool_health_monitor).
 */
module LbaasStore {
  import opened Wrappers
  import opened LbaasTypes

  /** The live rows: an id present in a map is a row that exists. */
  datatype Store = Store(
    vips: map<Id, Status>,
    pools: map<Id, Pool>,
    members: map<Id, Status>,
    monitors: map<(Id, Id), Status>)

  /** The status of a row, or None when the row does not exist. */
  function StatusOf(st: Store, rec: Record): (r: Option<Status>)
  {
    match rec
    case VipRecord(v) => if v in st.vips then Some(st.vips[v]) else None
    case PoolRecord(p) => if p in st.pools then Some(st.pools[p].status) else None
    case MemberRecord(m) => if m in st.members then Some(st.members[m]) else None
    case MonitorRecord(h, p) => if (h, p) in st.monitors then Some(st.monitors[(h, p)]) else None
  }

  predicate IsLive(st: Store, rec: Record)
  {
    StatusOf(st, rec).Some?
  }

  /** The lbaas plugin's get_pool: the pool row, or PoolNotFound. */
  function GetPool(st: Store, poolId: Id): (r: Result<Pool, Error>)
    ensures r.Success? <==> poolId in st.pools
    ensures r.Success? ==> r.value == st.pools[poolId]
    ensures r.Failure? ==> r.error == PoolNotFound(poolId)
  {
    if poolId in st.pools then Success(st.pools[poolId]) else Failure(PoolNotFound(poolId))
  }

  /** What one callback does to the store: set a row's status, or delete the row. */
  datatype StoreOp = SetStatus(rec: Record, status: Status) | DeleteRecord(rec: Record)

  /**
   * Runs one callback against the store. A callback on a row that no longer
   * exists changes nothing (the lbaas plugin raises NotFound, see
   * DispatchLog.PoolCallOutcome for when that reaches the caller). Only the
   * named row changes, and a surviving pool row
   * keeps every field but its status, so the vip a pool routes through never
   * changes under a callback.
   */
  function Apply(st: Store, op: StoreOp): (r: Store)
    ensures forall other :: other != op.rec ==> StatusOf(r, other) == StatusOf(st, other)
    ensures op.SetStatus? ==> StatusOf(r, op.rec) == if IsLive(st, op.rec) then Some(op.status) else None
    ensures op.DeleteRecord? ==> !IsLive(r, op.rec)
    ensures !IsLive(st, op.rec) ==> r == st
    ensures r.pools.Keys <= st.pools.Keys
    ensures forall p :: p in r.pools ==> r.pools[p] == st.pools[p].(status := r.pools[p].status)
  {
    match op
    case SetStatus(rec, s) =>
      if !IsLive(st, rec) then st
      else (
        match rec
        case VipRecord(v) => st.(vips := st.vips[v := s])
        case PoolRecord(p) => st.(pools := st.pools[p := st.pools[p].(status := s)])
        case MemberRecord(m) => st.(members := st.members[m := s])
        case MonitorRecord(h, p) => st.(monitors := st.monitors[(h, p) := s]))
    case DeleteRecord(rec) =>
      match rec
      case VipRecord(v) => st.(vips := st.vips - {v})
      case PoolRecord(p) => st.(pools := st.pools - {p})
      case MemberRecord(m) => st.(members := st.members - {m})
      case MonitorRecord(h, p) => st.(monitors := st.monitors - {(h, p)})
  }

  /** A callback that may be absent (None is the source's callback=None). */
  function ApplyOpt(st: Store, op: Option<StoreOp>): (r: Store)
  {
    if op.Some? then Apply(st, op.value) else st
  }

  /** Two stores with the same rows, statuses and pool fields are the same store. */
  lemma SameRowsSameStore(a: Store, b: Store)
    requires forall rec :: StatusOf(a, rec) == StatusOf(b, rec)
    requires a.pools.Keys == b.pools.Keys
    requires forall p :: p in a.pools ==> a.pools[p] == b.pools[p].(status := a.pools[p].status)
    ensures a == b
  {
    assert a.vips == b.vips by {
      forall v ensures v in a.vips <==> v in b.vips {
        assert StatusOf(a, VipRecord(v)) == StatusOf(b, VipRecord(v));
      }
      forall v | v in a.vips ensures a.vips[v] == b.vips[v] {
        assert StatusOf(a, VipRecord(v)) == StatusOf(b, VipRecord(v));
      }
    }
    assert a.pools == b.pools by {
      forall p | p in a.pools ensures a.pools[p] == b.pools[p] {
        assert StatusOf(a, PoolRecord(p)) == StatusOf(b, PoolRecord(p));
      }
    }
    assert a.members == b.members by {
      forall m ensures m in a.members <==> m in b.members {
        assert StatusOf(a, MemberRecord(m)) == StatusOf(b, MemberRecord(m));
      }
      forall m | m in a.members ensures a.members[m] == b.members[m] {
        assert StatusOf(a, MemberRecord(m)) == StatusOf(b, MemberRecord(m));
      }
    }
    assert a.monitors == b.monitors by {
      forall k ensures k in a.monitors <==> k in b.monitors {
        assert StatusOf(a, MonitorRecord(k.0, k.1)) == StatusOf(b, MonitorRecord(k.0, k.1));
      }
      forall k | k in a.monitors ensures a.monitors[k] == b.monitors[k] {
        assert StatusOf(a, MonitorRecord(k.0, k.1)) == StatusOf(b, MonitorRecord(k.0, k.1));
      }
    }
  }

  /**
   * Callbacks on different rows commute: completions for different targets
   * may arrive in any order and leave the same store.
   */
  lemma CallbacksOnDifferentRowsCommute(st: Store, a: StoreOp, b: StoreOp)
    requires a.rec != b.rec
    ensures Apply(Apply(st, a), b) == Apply(Apply(st, b), a)
  {
    var sa, sb := Apply(st, a), Apply(st, b);
    var ab, ba := Apply(sa, b), Apply(sb, a);
    assert IsLive(sa, b.rec) == IsLive(st, b.rec);
    assert IsLive(sb, a.rec) == IsLive(st, a.rec);
    forall rec ensures StatusOf(ab, rec) == StatusOf(ba, rec) {
      if rec == a.rec {
        assert StatusOf(ab, rec) == StatusOf(sa, rec);
      } else if rec == b.rec {
        assert StatusOf(ba, rec) == StatusOf(sb, rec);
      } else {
        assert StatusOf(ab, rec) == StatusOf(st, rec);
      }
    }
    forall p | p in ab.pools ensures ab.pools[p] == ba.pools[p].(status := ab.pools[p].status) {
      assert StatusOf(ab, PoolRecord(p)) == StatusOf(ba, PoolRecord(p));
    }
    assert ab.pools.Keys == ba.pools.Keys by {
      forall p ensures p in ab.pools <==> p in ba.pools {
        assert StatusOf(ab, PoolRecord(p)) == StatusOf(ba, PoolRecord(p));
      }
    }
    SameRowsSameStore(ab, ba);
  }

  /**
   * Two completions racing on one row: the later write wins, and a deletion
   * is final, so a late status update never brings a deleted row back.
   */
  lemma LastWriteWins(st: Store, a: StoreOp, b: StoreOp)
    requires a.rec == b.rec
    requires b.DeleteRecord? || a.SetStatus?
    ensures Apply(Apply(st, a), b) == Apply(st, b)
  {
  }

  lemma DeletionIsFinal(st: Store, rec: Record, s: Status)
    ensures Apply(Apply(st, DeleteRecord(rec)), SetStatus(rec, s)) == Apply(st, DeleteRecord(rec))
  {
  }
}
