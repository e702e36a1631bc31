/**
 * A lifecycle call followed by the completion of the dispatch it issued,
 * for every driver state in which nothing else is pending for the VIP the
 * dispatch goes to: what each kind of callback leaves in the lbaas store.
 */
module Lifecycle {
  import opened Wrappers
  import opened LbaasTypes
  import opened LbaasStore
  import opened MgmtCommands
  import opened DispatchLog
  import opened PluginDriver

  /** Nothing issued to `target` is still waiting for its completion. */
  ghost predicate Idle(driver: HostingDevicePluginDriver, target: Id)
    reads driver
  {
    FirstPending(driver.log, driver.outcomes.Keys, target, 0).None?
  }

  /** Only `rec` may have changed between the two stores. */
  ghost predicate OthersUnchanged(before: Store, after: Store, rec: Record)
  {
    forall other :: other != rec ==> StatusOf(after, other) == StatusOf(before, other)
  }

  /** The status a live row takes when a status callback runs, or None when the row is gone. */
  function StatusAfter(before: Store, rec: Record, s: Status): (r: Option<Status>)
    ensures r.Some? <==> IsLive(before, rec)
  {
    if IsLive(before, rec) then Some(s) else None
  }

  /**
   * update_vip, then its completion: the VIP row becomes ACTIVE on success
   * and ERROR on failure, no other row changes, and the VIP is idle again.
   */
  method UpdateVipCompletes(driver: HostingDevicePluginDriver, oldVip: Vip, vip: Vip, succeeded: bool)
    requires driver.Valid() && Idle(driver, vip.id)
    modifies driver
    ensures driver.Valid() && Idle(driver, vip.id)
    ensures StatusOf(driver.store, VipRecord(vip.id)) ==
              StatusAfter(old(driver.store), VipRecord(vip.id), if succeeded then Active else Error)
    ensures OthersUnchanged(old(driver.store), driver.store, VipRecord(vip.id))
  {
    var log, resolved := driver.log, driver.outcomes.Keys;
    driver.UpdateVip(oldVip, vip);
    FirstPendingOfFresh(log, resolved, driver.log[|log|], 0);
    var i := driver.Resolve(vip.id, succeeded);
  }

  /**
   * create_member on a pool fronted by a VIP, then its completion: the
   * member row becomes ACTIVE on success and ERROR on failure, no other row
   * changes, and the pool's VIP is idle again.
   */
  method CreateMemberCompletes(driver: HostingDevicePluginDriver, member: Member, succeeded: bool)
    returns (r: Outcome<Error>)
    requires driver.Valid()
    requires member.poolId in driver.store.pools && driver.store.pools[member.poolId].vipId.Some?
    requires Idle(driver, driver.store.pools[member.poolId].vipId.value)
    modifies driver
    ensures driver.Valid() && Idle(driver, old(driver.store).pools[member.poolId].vipId.value)
    ensures r == Pass
    ensures StatusOf(driver.store, MemberRecord(member.id)) ==
              StatusAfter(old(driver.store), MemberRecord(member.id), if succeeded then Active else Error)
    ensures OthersUnchanged(old(driver.store), driver.store, MemberRecord(member.id))
  {
    var log, resolved := driver.log, driver.outcomes.Keys;
    var target := driver.store.pools[member.poolId].vipId.value;
    r := driver.CreateMember(member);
    FirstPendingOfFresh(log, resolved, driver.log[|log|], 0);
    var i := driver.Resolve(target, succeeded);
  }

  /**
   * delete_vip, then its completion: the VIP row is deleted on success and
   * becomes ERROR on failure, no other row changes, and the VIP is idle again.
   */
  method DeleteVipCompletes(driver: HostingDevicePluginDriver, vip: Vip, succeeded: bool)
    requires driver.Valid() && Idle(driver, vip.id)
    modifies driver
    ensures driver.Valid() && Idle(driver, vip.id)
    ensures succeeded ==> !IsLive(driver.store, VipRecord(vip.id))
    ensures !succeeded ==> StatusOf(driver.store, VipRecord(vip.id)) == StatusAfter(old(driver.store), VipRecord(vip.id), Error)
    ensures OthersUnchanged(old(driver.store), driver.store, VipRecord(vip.id))
  {
    var log, resolved := driver.log, driver.outcomes.Keys;
    driver.DeleteVip(vip);
    FirstPendingOfFresh(log, resolved, driver.log[|log|], 0);
    var i := driver.Resolve(vip.id, succeeded);
  }

  /**
   * delete_pool on a pool fronted by a VIP whose dispatch fails: the
   * errorback sends the bare status ERROR to the same VIP, which completes
   * next, and the pool row ends ACTIVE when that send succeeds and ERROR
   * when it fails; the deletion never happens and no other row changes.
   */
  method DeletePoolFailureThenResend(driver: HostingDevicePluginDriver, pool: Pool, resendSucceeded: bool)
    returns (r: Outcome<Error>)
    requires driver.Valid() && pool.vipId.Some? && Idle(driver, pool.vipId.value)
    modifies driver
    ensures driver.Valid() && Idle(driver, pool.vipId.value)
    ensures r == Pass
    ensures driver.log == old(driver.log)
      + [Dispatch(UpdateInstance, pool.vipId.value, Command(DeletePool, PoolArgs(pool)),
                  Some(DeleteRecord(PoolRecord(pool.id))), Some(ResendPoolUpdate(pool))),
         Dispatch(UpdateInstance, pool.vipId.value, BareStatus(Error),
                  Activate(PoolRecord(pool.id)), MarkError(PoolRecord(pool.id)))]
    ensures StatusOf(driver.store, PoolRecord(pool.id)) ==
              StatusAfter(old(driver.store), PoolRecord(pool.id), if resendSucceeded then Active else Error)
    ensures OthersUnchanged(old(driver.store), driver.store, PoolRecord(pool.id))
  {
    var log, resolved := driver.log, driver.outcomes.Keys;
    var target := pool.vipId.value;
    r := driver.DeletePool(pool);
    FirstPendingOfFresh(log, resolved, driver.log[|log|], 0);
    var failed := driver.Resolve(target, false);
    FirstPendingOldest(driver.log, driver.outcomes.Keys, target, 0, |log| + 1);
    var retried := driver.Resolve(target, resendSucceeded);
  }
}
