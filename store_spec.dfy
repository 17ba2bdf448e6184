/**
 * The reward store of src/lib/storage.js as values: the record that the
 * persistence layer keeps (the nine keys `partialize` selects) and, for each
 * action of the store, the new record it produces. The class in
 * store.dfy performs the same actions on its fields and is proved against
 * these functions; the lemmas here state what the actions promise over
 * single calls and over sequences of calls.
 *
 * Inputs the source reads from the environment are parameters: `now` is
 * `Date.now()` in milliseconds, `today` is `new Date().toDateString()`, and
 * `suffix` is the random part of an invitation code.
 */
module StoreSpec {
  import opened Base
  import opened JsText

  /** The identity record the host hands to `setUser`; only `id` is read by the store. */
  datatype User = User(id: int, firstName: string, languageCode: string, isPremium: bool)

  /** `earningTimer`: at most one timed-reward session. */
  datatype EarningTimer = EarningTimer(
    isActive: bool,
    timeRemaining: int,
    startTimestamp: Option<int>,
    hasAwardedPoints: bool)

  /** One entry of `tasks`. One-shot tasks never carry a `lastCompleted` date. */
  datatype TaskState = TaskState(completed: bool, lastCompleted: Option<string>)

  /** The persisted part of the store: exactly the keys `partialize` keeps. */
  datatype Persisted = Persisted(
    user: Option<User>,
    spaiPoints: int,
    agentTickets: int,
    agentPasses: int,
    earningTimer: EarningTimer,
    hasCompletedTwitterFollow: bool,
    tasks: map<string, TaskState>,
    invitationCode: Option<string>,
    invitedUsers: int)

  const DailyReward := "dailyReward"
  const RtPost := "rtPost"
  const FollowX := "followX"
  const InviteFive := "inviteFive"

  /** The four task keys the store is created with. */
  const Catalog: set<string> := {DailyReward, RtPost, FollowX, InviteFive}

  const InvitationPrefix := "SPAI-"
  const InitialTickets := 3
  /** The session length `updateEarningTimer` uses, whatever duration the session was started with. */
  const EarningSeconds := 6 * 60 * 60
  const EarningReward := 2000
  const ReferralThreshold := 5
  const ReferralBonus := 5000

  const IdleTimer := EarningTimer(false, 0, None, false)
  const PaidTimer := EarningTimer(false, 0, None, true)

  const InitialTasks: map<string, TaskState> := map[
    DailyReward := TaskState(false, None),
    RtPost := TaskState(false, None),
    FollowX := TaskState(false, None),
    InviteFive := TaskState(false, None)]

  /** The store's initial state. */
  function Initial(): Persisted {
    Persisted(None, 0, InitialTickets, 0, IdleTimer, false, InitialTasks, None, 0)
  }

  /** The shape every action keeps: the four catalog tasks, and no active session that has already paid. */
  predicate WellFormed(s: Persisted) {
    && s.tasks.Keys == Catalog
    && (s.earningTimer.isActive ==> !s.earningTimer.hasAwardedPoints)
  }

  /** The balances and the referral counter are never negative. */
  predicate NonNegative(s: Persisted) {
    s.spaiPoints >= 0 && s.agentTickets >= 0 && s.agentPasses >= 0 && s.invitedUsers >= 0
  }

  lemma InitialIsSound()
    ensures WellFormed(Initial()) && NonNegative(Initial())
  {
  }

  // ---------------------------------------------------------------- setUser

  /** A user whose `id` is truthy in JavaScript: present and not 0. */
  predicate HasTruthyId(user: Option<User>) {
    user.Some? && user.value.id != 0
  }

  /** `setUser`: stores the user and a fresh invitation code, or no code when the id is missing. */
  function SetUser(s: Persisted, user: Option<User>, suffix: string): (r: Persisted)
    ensures r == s.(user := user, invitationCode := r.invitationCode)
    ensures r.invitationCode.Some? <==> HasTruthyId(user)
    ensures r.invitationCode.Some? ==>
      var code := r.invitationCode.value;
      && |code| >= |InvitationPrefix| + 2 + |suffix|
      && code[..|InvitationPrefix|] == InvitationPrefix
      && code[|code| - |suffix| - 1..] == "-" + suffix
  {
    if HasTruthyId(user) then
      s.(user := user, invitationCode := Some(InvitationPrefix + IntToDecimal(user.value.id) + "-" + suffix))
    else
      s.(user := user, invitationCode := None)
  }

  /** The user id an invitation code carries: the digits that follow the prefix. */
  function CodeId(code: string): Option<nat> {
    if |code| >= |InvitationPrefix| && code[..|InvitationPrefix|] == InvitationPrefix then
      var e := SkipDigits(code, |InvitationPrefix|);
      if e > |InvitationPrefix| then Some(DigitsValue(code[|InvitationPrefix|..e])) else None
    else None
  }

  /** Skipping digits over a digit string followed by a non-digit stops right after the digit string. */
  lemma {:induction false} SkipDigitsOver(s: string, i: nat, d: string)
    requires AllDigits(d) && i + |d| <= |s| && s[i..i + |d|] == d
    requires i + |d| < |s| && !IsDigit(s[i + |d|])
    ensures SkipDigits(s, i) == i + |d|
    decreases |d|
  {
    if |d| > 0 {
      assert s[i] == d[0];
      SkipDigitsOver(s, i + 1, d[1..]);
    }
  }

  /** For a positive id the invitation code gives the id back. */
  lemma InvitationCodeCarriesId(s: Persisted, user: User, suffix: string)
    requires user.id > 0
    ensures SetUser(s, Some(user), suffix).invitationCode.Some?
    ensures CodeId(SetUser(s, Some(user), suffix).invitationCode.value) == Some(user.id)
  {
    var d := NatToDecimal(user.id);
    var code := InvitationPrefix + d + "-" + suffix;
    assert code[|InvitationPrefix|..|InvitationPrefix| + |d|] == d;
    assert code[|InvitationPrefix| + |d|] == '-';
    SkipDigitsOver(code, |InvitationPrefix|, d);
    DecimalRoundTrip(user.id);
  }

  /** Calling `setUser` again with another random suffix replaces the code: the code is regenerated on every call. */
  lemma SetUserRegenerates(s: Persisted, user: User, suffix1: string, suffix2: string)
    requires user.id != 0 && suffix1 != suffix2
    ensures SetUser(s, Some(user), suffix1).invitationCode != SetUser(s, Some(user), suffix2).invitationCode
  {
    var p := InvitationPrefix + IntToDecimal(user.id) + "-";
    assert (p + suffix1)[|p|..] == suffix1;
    assert (p + suffix2)[|p|..] == suffix2;
  }

  // ------------------------------------------------------------- balances

  /** `addSpaiPoints`. */
  function AddSpaiPoints(s: Persisted, points: int): Persisted {
    s.(spaiPoints := s.spaiPoints + points)
  }

  /** `addAgentTickets`. */
  function AddAgentTickets(s: Persisted, count: int): Persisted {
    s.(agentTickets := s.agentTickets + count)
  }

  /** `addAgentPass`. */
  function AddAgentPass(s: Persisted, count: int): Persisted {
    s.(agentPasses := s.agentPasses + count)
  }

  /** `useAgentTicket`: one ticket fewer, unless there is none left. */
  function UseAgentTicket(s: Persisted): (r: Persisted)
    ensures r == s.(agentTickets := r.agentTickets)
    ensures s.agentTickets > 0 ==> r.agentTickets == s.agentTickets - 1
    ensures s.agentTickets <= 0 ==> r == s
    ensures s.agentTickets >= 0 ==> r.agentTickets >= 0
  {
    if s.agentTickets > 0 then s.(agentTickets := s.agentTickets - 1) else s
  }

  /** The outcome of `purchasePass`: its boolean result and the new state. */
  datatype Purchase = Purchase(ok: bool, state: Persisted)

  /**
   * `purchasePass`: one pass costs 500 points and a bundle of five costs 2000;
   * any other count, or too few points, is refused with no change at all.
   */
  function PurchasePass(s: Persisted, count: int): (r: Purchase)
    ensures r.ok <==> (count == 1 && s.spaiPoints >= 500) || (count == 5 && s.spaiPoints >= 2000)
    ensures !r.ok ==> r.state == s
    ensures r.ok ==> r.state == s.(spaiPoints := r.state.spaiPoints, agentPasses := s.agentPasses + count)
    ensures r.ok && count == 1 ==> r.state.spaiPoints == s.spaiPoints - 500
    ensures r.ok && count == 5 ==> r.state.spaiPoints == s.spaiPoints - 2000
    ensures r.ok ==> r.state.spaiPoints >= 0
  {
    var cost := if count == 1 then 500 else if count == 5 then 2000 else 0;
    if cost == 0 || s.spaiPoints < cost then Purchase(false, s)
    else Purchase(true, s.(spaiPoints := s.spaiPoints - cost, agentPasses := s.agentPasses + count))
  }

  // ----------------------------------------------------------- earning timer

  /** `startEarningTimer`: a new active session that started `now` and has not paid. */
  function StartEarningTimer(s: Persisted, duration: int, now: int): (r: Persisted)
    ensures r == s.(earningTimer := r.earningTimer)
    ensures r.earningTimer.isActive && !r.earningTimer.hasAwardedPoints
    ensures r.earningTimer.startTimestamp == Some(now) && r.earningTimer.timeRemaining == duration
  {
    s.(earningTimer := EarningTimer(true, duration, Some(now), false))
  }

  /** `if (earningTimer.startTimestamp)`: a start time is recorded and is not 0. */
  predicate HasStart(t: EarningTimer) {
    t.startTimestamp.Some? && t.startTimestamp.value != 0
  }

  /** The reward is due at `now`: the session is active, six hours have passed since its start, and it has not paid. */
  predicate RewardDue(t: EarningTimer, now: int) {
    t.isActive && HasStart(t) && now - t.startTimestamp.value >= EarningSeconds * 1000 && !t.hasAwardedPoints
  }

  /**
   * `updateEarningTimer`: pays 2000 points and closes the session once six hours
   * have passed and it has not paid yet; before that it only refreshes the
   * remaining seconds. An inactive session is left alone.
   */
  function UpdateEarningTimer(s: Persisted, now: int): (r: Persisted)
    ensures r == s.(spaiPoints := r.spaiPoints, earningTimer := r.earningTimer)
    ensures !s.earningTimer.isActive ==> r == s
    ensures r.spaiPoints == s.spaiPoints + (if RewardDue(s.earningTimer, now) then EarningReward else 0)
    ensures RewardDue(s.earningTimer, now) ==> r.earningTimer == PaidTimer
    ensures !HasStart(s.earningTimer) ==> r == s
    ensures (HasStart(s.earningTimer) && s.earningTimer.hasAwardedPoints
             && now - s.earningTimer.startTimestamp.value >= EarningSeconds * 1000) ==> r == s
    ensures s.earningTimer.isActive && HasStart(s.earningTimer)
            && now - s.earningTimer.startTimestamp.value < EarningSeconds * 1000 ==>
      && r.earningTimer == s.earningTimer.(timeRemaining := r.earningTimer.timeRemaining)
      && 0 < r.earningTimer.timeRemaining
      && r.earningTimer.timeRemaining * 1000 >= EarningSeconds * 1000 - (now - s.earningTimer.startTimestamp.value)
      && r.earningTimer.timeRemaining * 1000 < EarningSeconds * 1000 - (now - s.earningTimer.startTimestamp.value) + 1000
    ensures WellFormed(s) ==> WellFormed(r)
  {
    var t := s.earningTimer;
    if !t.isActive then s
    else if HasStart(t) then
      var elapsedSeconds := (now - t.startTimestamp.value) / 1000;
      var newTimeRemaining := if EarningSeconds - elapsedSeconds > 0 then EarningSeconds - elapsedSeconds else 0;
      if newTimeRemaining <= 0 && !t.hasAwardedPoints then
        s.(spaiPoints := s.spaiPoints + EarningReward, earningTimer := PaidTimer)
      else if newTimeRemaining > 0 then
        s.(earningTimer := t.(timeRemaining := newTimeRemaining))
      else s
    else s
  }

  /** The store after the periodic tick has run at each of the instants `nows`, in order. */
  function Ticks(s: Persisted, nows: seq<int>): Persisted
    decreases |nows|
  {
    if nows == [] then s else Ticks(UpdateEarningTimer(s, nows[0]), nows[1..])
  }

  /** Once a session is inactive, no number of ticks changes anything. */
  lemma {:induction false} InactiveTimerIsInert(s: Persisted, nows: seq<int>)
    requires !s.earningTimer.isActive
    ensures Ticks(s, nows) == s
    decreases |nows|
  {
    if nows != [] {
      InactiveTimerIsInert(UpdateEarningTimer(s, nows[0]), nows[1..]);
    }
  }

  /**
   * Over any sequence of ticks the timer pays its reward at most once, and
   * when it pays, the session ends closed and marked as paid.
   */
  lemma {:induction false} TimerPaysAtMostOnce(s: Persisted, nows: seq<int>)
    requires WellFormed(s)
    ensures var r := Ticks(s, nows);
      && r == s.(spaiPoints := r.spaiPoints, earningTimer := r.earningTimer)
      && (r.spaiPoints == s.spaiPoints || r.spaiPoints == s.spaiPoints + EarningReward)
      && (r.spaiPoints == s.spaiPoints + EarningReward ==>
            s.earningTimer.isActive && !s.earningTimer.hasAwardedPoints && r.earningTimer == PaidTimer)
    decreases |nows|
  {
    if nows != [] {
      var s1 := UpdateEarningTimer(s, nows[0]);
      if RewardDue(s.earningTimer, nows[0]) {
        InactiveTimerIsInert(s1, nows[1..]);
      } else {
        TimerPaysAtMostOnce(s1, nows[1..]);
      }
    }
  }

  /**
   * A session started at `start` pays exactly once: every tick at or after
   * six hours later leaves the store 2000 points richer and the session closed.
   */
  lemma ExpiredSessionPaysExactlyOnce(s: Persisted, duration: int, start: int, nows: seq<int>)
    requires start != 0 && |nows| > 0
    requires forall k :: 0 <= k < |nows| ==> nows[k] - start >= EarningSeconds * 1000
    ensures var r := Ticks(StartEarningTimer(s, duration, start), nows);
      r.spaiPoints == s.spaiPoints + EarningReward && r.earningTimer == PaidTimer
  {
    var s0 := StartEarningTimer(s, duration, start);
    assert RewardDue(s0.earningTimer, nows[0]);
    InactiveTimerIsInert(UpdateEarningTimer(s0, nows[0]), nows[1..]);
  }

  /** The tick ignores the duration the session was started with: it always counts six hours. */
  lemma TickIgnoresStartedDuration(s: Persisted, d1: int, d2: int, start: int, now: int)
    requires start != 0 && now - start < EarningSeconds * 1000
    ensures UpdateEarningTimer(StartEarningTimer(s, d1, start), now)
         == UpdateEarningTimer(StartEarningTimer(s, d2, start), now)
  {
  }

  // ----------------------------------------------------------------- tasks

  /**
   * `completeTask`: the daily reward pays once per date string, any other
   * task pays once ever; a payment is `points` points and one ticket, and
   * marks it completed. Other tasks are never touched. A key that is not
   * in `tasks` makes the source throw.
   */
  function CompleteTask(s: Persisted, name: string, points: int, today: string): (r: Persisted)
    requires name in s.tasks
    ensures r.tasks.Keys == s.tasks.Keys
    ensures forall k :: k in s.tasks && k != name ==> r.tasks[k] == s.tasks[k]
    ensures r == s || r == s.(tasks := r.tasks, spaiPoints := s.spaiPoints + points, agentTickets := s.agentTickets + 1)
    ensures name == DailyReward ==>
      if s.tasks[name].lastCompleted != Some(today) then
        r.tasks[name] == TaskState(true, Some(today)) && r != s.(tasks := r.tasks)
      else r == s
    ensures name != DailyReward ==>
      if !s.tasks[name].completed then
        r.tasks[name] == TaskState(true, None) && r != s.(tasks := r.tasks)
      else r == s
  {
    if name == DailyReward then
      if s.tasks[DailyReward].lastCompleted != Some(today) then
        s.(tasks := s.tasks[DailyReward := TaskState(true, Some(today))],
           spaiPoints := s.spaiPoints + points, agentTickets := s.agentTickets + 1)
      else s
    else if !s.tasks[name].completed then
      s.(tasks := s.tasks[name := TaskState(true, None)],
         spaiPoints := s.spaiPoints + points, agentTickets := s.agentTickets + 1)
    else s
  }

  /** The store after `completeTask(name, p)` has been called once for each `p` in `pointsList`, all on the same date. */
  function CompleteRepeatedly(s: Persisted, name: string, pointsList: seq<int>, today: string): (r: Persisted)
    requires name in s.tasks
    ensures name in r.tasks
    decreases |pointsList|
  {
    if pointsList == [] then s
    else CompleteRepeatedly(CompleteTask(s, name, pointsList[0], today), name, pointsList[1..], today)
  }

  /** A task that cannot pay on `today` stays that way: further calls change nothing. */
  lemma {:induction false} SpentTaskIsInert(s: Persisted, name: string, pointsList: seq<int>, today: string)
    requires name in s.tasks
    requires if name == DailyReward then s.tasks[name].lastCompleted == Some(today) else s.tasks[name].completed
    ensures CompleteRepeatedly(s, name, pointsList, today) == s
    decreases |pointsList|
  {
    if pointsList != [] {
      SpentTaskIsInert(s, name, pointsList[1..], today);
    }
  }

  /**
   * Calling `completeTask` any number of times on one date pays at most once:
   * the first call's points and one ticket when it could still pay, and
   * nothing otherwise.
   */
  lemma TaskPaysOncePerPeriod(s: Persisted, name: string, pointsList: seq<int>, today: string)
    requires name in s.tasks && |pointsList| > 0
    ensures var r := CompleteRepeatedly(s, name, pointsList, today);
      var open := if name == DailyReward then s.tasks[name].lastCompleted != Some(today) else !s.tasks[name].completed;
      && (open ==> r.spaiPoints == s.spaiPoints + pointsList[0] && r.agentTickets == s.agentTickets + 1)
      && (!open ==> r == s)
  {
    var s1 := CompleteTask(s, name, pointsList[0], today);
    SpentTaskIsInert(s1, name, pointsList[1..], today);
  }

  /** The daily reward pays again on another date. */
  lemma DailyRewardRearmsNextDay(s: Persisted, p: int, q: int, day1: string, day2: string)
    requires DailyReward in s.tasks && day1 != day2
    ensures var s1 := CompleteTask(s, DailyReward, p, day1);
      var s2 := CompleteTask(s1, DailyReward, q, day2);
      s2.spaiPoints == s1.spaiPoints + q && s2.agentTickets == s1.agentTickets + 1
  {
  }

  /**
   * `resetDailyTasks`: when the daily reward was not completed today it is
   * cleared to "not completed, no date"; otherwise nothing changes. Other
   * tasks and the balances are never touched.
   */
  function ResetDailyTasks(s: Persisted, today: string): (r: Persisted)
    requires DailyReward in s.tasks
    ensures r == s.(tasks := r.tasks)
    ensures r.tasks.Keys == s.tasks.Keys
    ensures forall k :: k in s.tasks && k != DailyReward ==> r.tasks[k] == s.tasks[k]
    ensures s.tasks[DailyReward].lastCompleted != Some(today) ==> r.tasks[DailyReward] == TaskState(false, None)
    ensures s.tasks[DailyReward].lastCompleted == Some(today) ==> r == s
  {
    if s.tasks[DailyReward].lastCompleted != Some(today) then
      s.(tasks := s.tasks[DailyReward := TaskState(false, None)])
    else s
  }

  /** Resetting twice on the same date is the same as resetting once. */
  lemma ResetIsIdempotent(s: Persisted, today: string)
    requires DailyReward in s.tasks
    ensures ResetDailyTasks(ResetDailyTasks(s, today), today) == ResetDailyTasks(s, today)
  {
  }

  /** The periodic reset never reopens a daily reward already collected today. */
  lemma ResetKeepsTodaysClaim(s: Persisted, p: int, q: int, today: string)
    requires DailyReward in s.tasks
    ensures var s1 := CompleteTask(s, DailyReward, p, today);
      CompleteTask(ResetDailyTasks(s1, today), DailyReward, q, today) == s1
  {
  }

  // -------------------------------------------------------------- referrals

  /**
   * `addReferral`: one more invited user, one more pass and one more ticket;
   * from the fifth referral on, `inviteFive` is set completed, and the 5000
   * point bonus is paid only if it was not completed before.
   */
  function AddReferral(s: Persisted): (r: Persisted)
    requires s.invitedUsers + 1 >= ReferralThreshold ==> InviteFive in s.tasks
    ensures r == s.(invitedUsers := s.invitedUsers + 1, agentPasses := s.agentPasses + 1,
                    agentTickets := s.agentTickets + 1, spaiPoints := r.spaiPoints, tasks := r.tasks)
    ensures r.spaiPoints == s.spaiPoints +
      (if s.invitedUsers + 1 >= ReferralThreshold && !s.tasks[InviteFive].completed then ReferralBonus else 0)
    ensures s.invitedUsers + 1 >= ReferralThreshold ==> r.tasks == s.tasks[InviteFive := TaskState(true, None)]
    ensures s.invitedUsers + 1 < ReferralThreshold ==> r.tasks == s.tasks
  {
    var newInvitedUsers := s.invitedUsers + 1;
    s.(invitedUsers := newInvitedUsers,
       agentPasses := s.agentPasses + 1,
       spaiPoints := if newInvitedUsers >= ReferralThreshold && !s.tasks[InviteFive].completed
                     then s.spaiPoints + ReferralBonus else s.spaiPoints,
       tasks := if newInvitedUsers >= ReferralThreshold
                then s.tasks[InviteFive := TaskState(true, None)] else s.tasks,
       agentTickets := s.agentTickets + 1)
  }

  /** The store after `n` referrals. */
  function Referrals(s: Persisted, n: nat): (r: Persisted)
    requires InviteFive in s.tasks
    ensures InviteFive in r.tasks
    decreases n
  {
    if n == 0 then s else Referrals(AddReferral(s), n - 1)
  }

  /**
   * Over any number of referrals the bonus is paid at most once: exactly when
   * the count reaches five and `inviteFive` was not completed before. Each
   * referral adds one invited user, one pass and one ticket.
   */
  lemma {:induction false} ReferralBonusPaidOnce(s: Persisted, n: nat)
    requires InviteFive in s.tasks
    ensures var r := Referrals(s, n);
      var bonus := n > 0 && s.invitedUsers + n >= ReferralThreshold && !s.tasks[InviteFive].completed;
      && r.invitedUsers == s.invitedUsers + n
      && r.agentPasses == s.agentPasses + n
      && r.agentTickets == s.agentTickets + n
      && r.spaiPoints == s.spaiPoints + (if bonus then ReferralBonus else 0)
      && (n > 0 && s.invitedUsers + n >= ReferralThreshold ==> r.tasks[InviteFive].completed)
      && (s.invitedUsers + n < ReferralThreshold ==> r.tasks == s.tasks)
    decreases n
  {
    if n > 0 {
      ReferralBonusPaidOnce(AddReferral(s), n - 1);
    }
  }

  /** From a fresh store, six referrals pay the bonus once and complete `inviteFive`. */
  lemma SixReferralsFromStart()
    ensures var r := Referrals(Initial(), 6);
      r.spaiPoints == ReferralBonus && r.invitedUsers == 6 && r.agentPasses == 6
      && r.tasks[InviteFive].completed
  {
    ReferralBonusPaidOnce(Initial(), 6);
  }

  // ---------------------------------------------------------- follow on X

  /** `setTwitterFollowCompleted`: sets the `followX` task's flag, in either direction. */
  function SetTwitterFollowCompleted(s: Persisted, value: bool): Persisted {
    s.(tasks := s.tasks[FollowX := TaskState(value, None)])
  }

  /** Clearing the follow flag lets `completeTask('followX')` pay again. */
  lemma FollowResetRearmsReward(s: Persisted, p: int, today: string)
    ensures var r := CompleteTask(SetTwitterFollowCompleted(s, false), FollowX, p, today);
      r.spaiPoints == s.spaiPoints + p && r.agentTickets == s.agentTickets + 1
  {
  }
}
