/**
 * The reward store of src/lib/storage.js as the mutable object it is: one
 * field per store key and one method per action, each action overwriting
 * the fields its `set(...)` call names. Every method is proved to leave
 * the persisted part of the store (`Partialize()`) exactly where the
 * corresponding function of StoreSpec takes it, and to leave the two
 * caches that are not persisted alone.
 */
module RewardStore {
  import opened Base
  import opened JsText
  import StoreSpec

  class Store {
    var user: Option<StoreSpec.User>
    var spaiPoints: int
    var agentTickets: int
    var agentPasses: int
    var earningTimer: StoreSpec.EarningTimer
    var hasCompletedTwitterFollow: bool
    var tasks: map<string, StoreSpec.TaskState>
    var invitationCode: Option<string>
    var invitedUsers: int
    /** Market data per symbol; kept in memory only. Its values are not modelled. */
    var cryptoData: map<string, string>
    /** Display win rates per symbol; kept in memory only. */
    var winRates: map<string, string>

    /** `partialize`: the nine keys the persistence layer writes; `cryptoData` and `winRates` are skipped. */
    function Partialize(): (p: StoreSpec.Persisted)
      reads this
    {
      StoreSpec.Persisted(user, spaiPoints, agentTickets, agentPasses, earningTimer,
                          hasCompletedTwitterFollow, tasks, invitationCode, invitedUsers)
    }

    /** The caches that are not persisted are the same as in the state `old` refers to. */
    twostate predicate CachesUnchanged()
      reads this
    {
      cryptoData == old(cryptoData) && winRates == old(winRates)
    }

    /** A new store holds the initial state and empty caches. */
    constructor()
      ensures Partialize() == StoreSpec.Initial()
      ensures cryptoData == map[] && winRates == map[]
    {
      user := None;
      spaiPoints := 0;
      agentTickets := StoreSpec.InitialTickets;
      agentPasses := 0;
      earningTimer := StoreSpec.IdleTimer;
      hasCompletedTwitterFollow := false;
      tasks := StoreSpec.InitialTasks;
      invitationCode := None;
      invitedUsers := 0;
      cryptoData := map[];
      winRates := map[];
    }

    /**
     * Rehydration: the persistence layer merges a stored record over the
     * current state; every persisted key takes the stored value and the
     * caches stay as they are. Reading the record back with `Partialize`
     * gives exactly what was stored.
     */
    method Rehydrate(p: StoreSpec.Persisted)
      modifies this
      ensures Partialize() == p
      ensures CachesUnchanged()
    {
      user := p.user;
      spaiPoints := p.spaiPoints;
      agentTickets := p.agentTickets;
      agentPasses := p.agentPasses;
      earningTimer := p.earningTimer;
      hasCompletedTwitterFollow := p.hasCompletedTwitterFollow;
      tasks := p.tasks;
      invitationCode := p.invitationCode;
      invitedUsers := p.invitedUsers;
    }

    /** `setUser(user)`, with `suffix` standing for the random part of the code. */
    method SetUser(u: Option<StoreSpec.User>, suffix: string)
      modifies this
      ensures Partialize() == StoreSpec.SetUser(old(Partialize()), u, suffix)
      ensures CachesUnchanged()
    {
      var code: Option<string> := None;
      if u.Some? && u.value.id != 0 {
        code := Some(StoreSpec.InvitationPrefix + IntToDecimal(u.value.id) + "-" + suffix);
      }
      user := u;
      invitationCode := code;
    }

    method AddSpaiPoints(points: int)
      modifies this
      ensures Partialize() == StoreSpec.AddSpaiPoints(old(Partialize()), points)
      ensures CachesUnchanged()
    {
      spaiPoints := spaiPoints + points;
    }

    method AddAgentTickets(count: int)
      modifies this
      ensures Partialize() == StoreSpec.AddAgentTickets(old(Partialize()), count)
      ensures CachesUnchanged()
    {
      agentTickets := agentTickets + count;
    }

    method UseAgentTicket()
      modifies this
      ensures Partialize() == StoreSpec.UseAgentTicket(old(Partialize()))
      ensures CachesUnchanged()
    {
      if agentTickets > 0 {
        agentTickets := agentTickets - 1;
      }
    }

    method AddAgentPass(count: int)
      modifies this
      ensures Partialize() == StoreSpec.AddAgentPass(old(Partialize()), count)
      ensures CachesUnchanged()
    {
      agentPasses := agentPasses + count;
    }

    /** `purchasePass(count)`: reports whether the purchase went through. */
    method PurchasePass(count: int) returns (ok: bool)
      modifies this
      ensures ok == StoreSpec.PurchasePass(old(Partialize()), count).ok
      ensures Partialize() == StoreSpec.PurchasePass(old(Partialize()), count).state
      ensures CachesUnchanged()
    {
      var cost := if count == 1 then 500 else if count == 5 then 2000 else 0;
      if cost == 0 || spaiPoints < cost {
        return false;
      }
      spaiPoints := spaiPoints - cost;
      agentPasses := agentPasses + count;
      return true;
    }

    /** `startEarningTimer(duration)` at the instant `now`. */
    method StartEarningTimer(duration: int, now: int)
      modifies this
      ensures Partialize() == StoreSpec.StartEarningTimer(old(Partialize()), duration, now)
      ensures CachesUnchanged()
    {
      earningTimer := StoreSpec.EarningTimer(true, duration, Some(now), false);
    }

    /** `updateEarningTimer()` at the instant `now`. */
    method UpdateEarningTimer(now: int)
      modifies this
      ensures Partialize() == StoreSpec.UpdateEarningTimer(old(Partialize()), now)
      ensures CachesUnchanged()
    {
      if !earningTimer.isActive {
        return;
      }
      if earningTimer.startTimestamp.Some? && earningTimer.startTimestamp.value != 0 {
        var duration := 6 * 60 * 60;
        var elapsedSeconds := (now - earningTimer.startTimestamp.value) / 1000;
        var newTimeRemaining := if duration - elapsedSeconds > 0 then duration - elapsedSeconds else 0;
        if newTimeRemaining <= 0 && !earningTimer.hasAwardedPoints {
          spaiPoints := spaiPoints + 2000;
          earningTimer := StoreSpec.EarningTimer(false, 0, None, true);
        } else if newTimeRemaining > 0 {
          earningTimer := earningTimer.(timeRemaining := newTimeRemaining);
        }
      }
    }

    /** `completeTask(name, points)` on the date `today`; the key must be one the store holds. */
    method CompleteTask(name: string, points: int, today: string)
      requires name in tasks
      modifies this
      ensures Partialize() == StoreSpec.CompleteTask(old(Partialize()), name, points, today)
      ensures CachesUnchanged()
    {
      var t := tasks;
      if name == StoreSpec.DailyReward {
        if t[StoreSpec.DailyReward].lastCompleted != Some(today) {
          t := t[StoreSpec.DailyReward := StoreSpec.TaskState(true, Some(today))];
          tasks := t;
          spaiPoints := spaiPoints + points;
          agentTickets := agentTickets + 1;
        }
      } else if !t[name].completed {
        t := t[name := StoreSpec.TaskState(true, None)];
        tasks := t;
        spaiPoints := spaiPoints + points;
        agentTickets := agentTickets + 1;
      }
    }

    /** `resetDailyTasks()` on the date `today`. */
    method ResetDailyTasks(today: string)
      requires StoreSpec.DailyReward in tasks
      modifies this
      ensures Partialize() == StoreSpec.ResetDailyTasks(old(Partialize()), today)
      ensures CachesUnchanged()
    {
      if tasks[StoreSpec.DailyReward].lastCompleted != Some(today) {
        tasks := tasks[StoreSpec.DailyReward := StoreSpec.TaskState(false, None)];
      }
    }

    /** `addReferral()`. */
    method AddReferral()
      requires invitedUsers + 1 >= StoreSpec.ReferralThreshold ==> StoreSpec.InviteFive in tasks
      modifies this
      ensures Partialize() == StoreSpec.AddReferral(old(Partialize()))
      ensures CachesUnchanged()
    {
      var newInvitedUsers := invitedUsers + 1;
      var bonus := newInvitedUsers >= 5 && !tasks[StoreSpec.InviteFive].completed;
      invitedUsers := newInvitedUsers;
      agentPasses := agentPasses + 1;
      if bonus {
        spaiPoints := spaiPoints + 5000;
      }
      if newInvitedUsers >= 5 {
        tasks := tasks[StoreSpec.InviteFive := StoreSpec.TaskState(true, None)];
      }
      agentTickets := agentTickets + 1;
    }

    /** `setTwitterFollowCompleted(value)`: writes the `followX` task, never `hasCompletedTwitterFollow`. */
    method SetTwitterFollowCompleted(value: bool)
      modifies this
      ensures Partialize() == StoreSpec.SetTwitterFollowCompleted(old(Partialize()), value)
      ensures CachesUnchanged()
    {
      tasks := tasks[StoreSpec.FollowX := StoreSpec.TaskState(value, None)];
    }
  }
}
