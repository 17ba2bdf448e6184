/**
 * Runs of the reward store: any sequence of its actions, as callers issue
 * them. The store's shape (the four catalog tasks, no active session that
 * already paid) holds after every action; with the non-negative amounts
 * the app passes, no balance ever goes negative; and no action ever writes
 * `hasCompletedTwitterFollow`.
 */
module StoreRun {
  import opened Base
  import opened StoreSpec

  /** One call of a store action, with the environment inputs it reads. */
  datatype Action =
    | SetUserCall(user: Option<User>, suffix: string)
    | AddPointsCall(points: int)
    | AddTicketsCall(count: int)
    | UseTicketCall
    | AddPassCall(count: int)
    | PurchasePassCall(count: int)
    | StartTimerCall(duration: int, now: int)
    | TickCall(now: int)
    | CompleteTaskCall(name: string, points: int, today: string)
    | ResetDailyCall(today: string)
    | ReferralCall
    | SetFollowCall(value: bool)

  /** A call the source can make without throwing: `completeTask` only on a catalog key. */
  predicate Callable(a: Action) {
    a.CompleteTaskCall? ==> a.name in Catalog
  }

  /** The amounts the app passes are never negative. */
  predicate Admissible(a: Action) {
    && (a.AddPointsCall? ==> a.points >= 0)
    && (a.AddTicketsCall? ==> a.count >= 0)
    && (a.AddPassCall? ==> a.count >= 0)
    && (a.CompleteTaskCall? ==> a.points >= 0)
  }

  /** The store after one action. */
  function Step(s: Persisted, a: Action): (r: Persisted)
    requires WellFormed(s) && Callable(a)
    ensures WellFormed(r)
    ensures r.hasCompletedTwitterFollow == s.hasCompletedTwitterFollow
    ensures NonNegative(s) && Admissible(a) ==> NonNegative(r)
  {
    match a
    case SetUserCall(user, suffix) => SetUser(s, user, suffix)
    case AddPointsCall(points) => AddSpaiPoints(s, points)
    case AddTicketsCall(count) => AddAgentTickets(s, count)
    case UseTicketCall => UseAgentTicket(s)
    case AddPassCall(count) => AddAgentPass(s, count)
    case PurchasePassCall(count) => PurchasePass(s, count).state
    case StartTimerCall(duration, now) => StartEarningTimer(s, duration, now)
    case TickCall(now) => UpdateEarningTimer(s, now)
    case CompleteTaskCall(name, points, today) => CompleteTask(s, name, points, today)
    case ResetDailyCall(today) => ResetDailyTasks(s, today)
    case ReferralCall => AddReferral(s)
    case SetFollowCall(value) => SetTwitterFollowCompleted(s, value)
  }

  /** The store after the actions `actions`, in order. */
  function Run(s: Persisted, actions: seq<Action>): Persisted
    requires WellFormed(s)
    requires forall k :: 0 <= k < |actions| ==> Callable(actions[k])
    decreases |actions|
  {
    if actions == [] then s else Run(Step(s, actions[0]), actions[1..])
  }

  /**
   * Every run of the store keeps its shape, never writes
   * `hasCompletedTwitterFollow`, and, when every amount passed is
   * non-negative, keeps points, tickets, passes and the referral count
   * non-negative.
   */
  lemma {:induction false} RunKeepsInvariants(s: Persisted, actions: seq<Action>)
    requires WellFormed(s)
    requires forall k :: 0 <= k < |actions| ==> Callable(actions[k])
    ensures WellFormed(Run(s, actions))
    ensures Run(s, actions).hasCompletedTwitterFollow == s.hasCompletedTwitterFollow
    ensures NonNegative(s) && (forall k :: 0 <= k < |actions| ==> Admissible(actions[k]))
            ==> NonNegative(Run(s, actions))
    decreases |actions|
  {
    if actions != [] {
      var s1 := Step(s, actions[0]);
      assert forall k :: 0 <= k < |actions[1..]| ==> actions[1..][k] == actions[k + 1];
      RunKeepsInvariants(s1, actions[1..]);
    }
  }

  /** From a fresh store: tickets never go negative and `hasCompletedTwitterFollow` stays false, whatever the app does. */
  lemma FreshStoreRuns(actions: seq<Action>)
    requires forall k :: 0 <= k < |actions| ==> Callable(actions[k]) && Admissible(actions[k])
    ensures WellFormed(Run(Initial(), actions))
    ensures NonNegative(Run(Initial(), actions))
    ensures Run(Initial(), actions).agentTickets >= 0
    ensures !Run(Initial(), actions).hasCompletedTwitterFollow
  {
    InitialIsSound();
    RunKeepsInvariants(Initial(), actions);
  }
}
