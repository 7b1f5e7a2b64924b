/** The shared state cells of the portal (src/context/GlobalContext.tsx) as one object whose methods
    are the context's setters, effects and actions. Persistence to browser storage and cross-tab
    notification are not part of this model; the constructor gives the built-in defaults. */
module GlobalContext {
  import opened Wrappers
  import opened Types
  import opened AuctionRules
  import opened Settlement

  const DefaultConfig: AuctionConfig :=
    AuctionConfig("Nov", 24, 600000, 5, 30000, "GK-123456", Some("GK-A1"), Some("Alpha Batch"))

  const DefaultState: AuctionState := AuctionState(600, None, false, false, 30000, [], None)

  const DefaultUsers: seq<UserLite> := [
    UserLite("GK2025-0012", "Ravi Kumar", Some("ravi.kumar@example.com"), Some("9876543210")),
    UserLite("U-2", "Anita", None, Some("9876500001")),
    UserLite("U-3", "Kiran", None, Some("9876500002")),
    UserLite("U-4", "Suresh", None, Some("9876500003"))]

  const DefaultFinances: map<string, UserFinance> := map[
    "GK2025-0012" := UserFinance(
      [UserChit("GK-A1", "Alpha Batch", 500000, 25, ActiveChit, false, None, None, 220000, 280000, 11,
                None, None, None, None, None, [HistoryRow("Jan", 20000, Some("10 Jan"), Paid)])],
      [UserLoan("LN-01", Personal, 200000, "15 Aug 2024", 12, ActiveLoan, 180000, 12000, 20000, 182000, None)],
      [])]

  const DefaultBatches: seq<ChitBatch> :=
    [ChitBatch("GK-A1", "Alpha Batch", 500000, "Nov", 20000, 500, ActiveBatch, "10 Dec, 4:00 PM")]

  /** The built-in defaults agree with the derivation rules: the default minimum loss is the formula's
      value and the default round is a fresh one. */
  lemma DefaultsAreFresh()
    ensures DefaultConfig.minLoss == MinLoss(DefaultConfig.chitValue, DefaultConfig.commissionRate)
    ensures DefaultState == FreshRound(DefaultConfig.chitValue, DefaultConfig.commissionRate)
  {
  }

  /** The fields `updateUserRequest` may merge into a request. */
  datatype RequestPatch = RequestPatch(status: RequestStatus, adminComment: string, userId: Option<string>)

  function PatchRequest(r: UserRequest, p: RequestPatch): UserRequest {
    var r' := r.(status := p.status, adminComment := Some(p.adminComment));
    if p.userId.Some? then r'.(userId := p.userId) else r'
  }

  /** `prev.map(r => r.id === id ? { ...r, ...data } : r)`. */
  function PatchRequests(reqs: seq<UserRequest>, id: string, p: RequestPatch): (r: seq<UserRequest>)
    ensures |r| == |reqs|
    ensures forall i :: 0 <= i < |reqs| ==> r[i] == if reqs[i].id == id then PatchRequest(reqs[i], p) else reqs[i]
  {
    if reqs == [] then []
    else [if reqs[0].id == id then PatchRequest(reqs[0], p) else reqs[0]] + PatchRequests(reqs[1..], id, p)
  }

  class Store {
    var user: Option<UserLite>
    var adminUser: Option<AdminUser>
    var config: AuctionConfig
    var state: AuctionState
    var users: seq<UserLite>
    var finances: map<string, UserFinance>
    var batches: seq<ChitBatch>
    var requests: seq<UserRequest>

    constructor ()
      ensures user.None? && adminUser.None?
      ensures config == DefaultConfig && state == DefaultState
      ensures users == DefaultUsers && finances == DefaultFinances
      ensures batches == DefaultBatches && requests == []
    {
      user, adminUser := None, None;
      config, state := DefaultConfig, DefaultState;
      users, finances := DefaultUsers, DefaultFinances;
      batches, requests := DefaultBatches, [];
    }

    /** `canBid(userId, batchId)` against the current session and ledger. */
    function CanBidNow(userId: string, batchId: string): bool
      reads this
    {
      CanBid(adminUser.Some?, finances, userId, batchId)
    }

    /** `setAuctionState(s)`. */
    method SetAuctionState(s: AuctionState)
      modifies this`state
      ensures state == s
    {
      state := s;
    }

    /** The minLoss effect: recompute the minimum loss, and raise an idle round's current loss to it. */
    method DeriveMinLoss()
      modifies this`config, this`state
      ensures config == old(config).(minLoss := MinLoss(old(config).chitValue, old(config).commissionRate))
      ensures state == old(state).(currentLoss := DerivedCurrentLoss(old(state), old(config).chitValue, old(config).commissionRate))
    {
      config := config.(minLoss := MinLoss(config.chitValue, config.commissionRate));
      state := state.(currentLoss := DerivedCurrentLoss(state, config.chitValue, config.commissionRate));
    }

    /** `setAuctionConfig(c)`, followed by the minLoss effect when the chit value or the commission
        rate changed. */
    method SetAuctionConfig(c: AuctionConfig)
      modifies this`config, this`state
      ensures var changed := c.chitValue != old(config).chitValue || c.commissionRate != old(config).commissionRate;
              && (changed ==> config == c.(minLoss := MinLoss(c.chitValue, c.commissionRate))
                              && state == old(state).(currentLoss := DerivedCurrentLoss(old(state), c.chitValue, c.commissionRate)))
              && (!changed ==> config == c && state == old(state))
    {
      var changed := c.chitValue != config.chitValue || c.commissionRate != config.commissionRate;
      config := c;
      if changed {
        DeriveMinLoss();
      }
    }

    /** One run of the timer effect: on a running, unfinished round without a deadline it sets the
        deadline ten minutes from `now`; otherwise it only (re)installs the interval, or does nothing. */
    method TimerEffect(now: int)
      modifies this`state
      ensures TimerArmed(old(state)) && !HasEndTime(old(state)) ==> state == StartedState(old(state), now)
      ensures !(TimerArmed(old(state)) && !HasEndTime(old(state))) ==> state == old(state)
    {
      if !state.running || state.finished {
        return;
      }
      if !HasEndTime(state) {
        state := StartedState(state, now);
        return;
      }
    }

    /** One firing of the one-second interval at wall-clock time `now`. The interval exists only while
        the round runs, is unfinished and has a deadline; stopping the round removes it. */
    method IntervalTick(now: int)
      modifies this`state
      ensures TimerArmed(old(state)) && HasEndTime(old(state)) ==>
                state == TickedState(old(state), SecondsLeftAt(old(state).endTime.value, now))
      ensures !(TimerArmed(old(state)) && HasEndTime(old(state))) ==> state == old(state)
    {
      if !TimerArmed(state) || !HasEndTime(state) {
        return;
      }
      var left := SecondsLeftAt(state.endTime.value, now);
      state := TickedState(state, left);
    }

    /** `finalizeAuction()`. */
    method FinalizeAuction()
      modifies this`state
      ensures state == FinalizedState(old(state), config)
    {
      state := FinalizedState(state, config);
    }

    /** The auto-finalize effect. */
    method AutoFinalize()
      modifies this`state
      ensures AutoFinalizeDue(old(state)) ==> state == FinalizedState(old(state), config)
      ensures !AutoFinalizeDue(old(state)) ==> state == old(state)
    {
      if state.secondsLeft == 0 && !state.finished {
        FinalizeAuction();
      }
    }

    /** `updateUserFinance(userId, data)`. */
    method UpdateUserFinance(userId: string, data: UserFinance)
      modifies this`finances
      ensures finances == old(finances)[userId := data]
    {
      finances := finances[userId := data];
    }

    /** `updateUserRequest(id, data)`. */
    method UpdateUserRequest(id: string, p: RequestPatch)
      modifies this`requests
      ensures requests == PatchRequests(old(requests), id, p)
    {
      requests := PatchRequests(requests, id, p);
    }

    /** `addUser(u)`. */
    method AddUser(u: UserLite)
      modifies this`users
      ensures users == old(users) + [u]
    {
      users := users + [u];
    }

    /** The rewrite of one settled chit, field by field. */
    static method SettleChit(chit0: UserChit, isWinner: bool, res: SyncInput) returns (chit: UserChit)
      ensures chit == SettledChit(chit0, isWinner, res)
    {
      chit := chit0.(history := chit0.history + [HistoryRow(res.runningMonth, res.monthlyPayment, None, Pending)]);
      chit := chit.(totalProfit := Some(OrZero(chit.totalProfit) + res.dividend));
      chit := chit.(currentMonthPayment := Some(res.monthlyPayment));
      chit := chit.(currentMonthDividend := Some(res.dividend));
      chit := chit.(pendingAmount := chit.pendingAmount + res.monthlyPayment);
      if isWinner {
        chit := chit.(bidWon := true);
        chit := chit.(bidMonth := Some(res.runningMonth));
        chit := chit.(bidAmount := Some(res.finalLoss));
        chit := chit.(bidsInHand := Some(SpendBid(chit.bidsInHand)));
        chit := chit.(totalLoss := Some(res.finalLoss));
      } else if !chit.bidWon {
        chit := chit.(bidsInHand := Some(1));
      }
    }

    /** The body of the settlement loop for one user: finds the user's Active chit of the batch and
        rewrites it; a user without one keeps the ledger as it is. */
    static method SettleUser(userId: string, userFin: UserFinance, batchId: string, res: SyncInput)
      returns (settled: UserFinance)
      ensures settled == SettledFinance(userId, userFin, batchId, res)
    {
      settled := userFin;
      var chitIndex := FindActiveChit(userFin.chits, batchId);
      if chitIndex.Some? {
        var chit := SettleChit(userFin.chits[chitIndex.value], res.winnerId == Some(userId), res);
        settled := userFin.(chits := userFin.chits[chitIndex.value := chit]);
      }
    }

    /** `syncAuctionResults(batchId, res)`: settles every user's ledger, one user at a time, then resets
        the round from the current configuration. */
    method SyncAuctionResults(batchId: string, res: SyncInput)
      modifies this`finances, this`state
      ensures finances == SettledStore(old(finances), batchId, res)
      ensures state == FreshRound(config.chitValue, config.commissionRate)
    {
      var nextStore := finances;
      var pending := finances.Keys;
      while pending != {}
        invariant finances == old(finances)
        invariant pending <= finances.Keys && nextStore.Keys == finances.Keys
        invariant forall u :: u in pending ==> nextStore[u] == finances[u]
        invariant forall u :: u in finances && u !in pending ==>
                    nextStore[u] == SettledFinance(u, finances[u], batchId, res)
        decreases pending
      {
        var userId :| userId in pending;
        var settled := SettleUser(userId, nextStore[userId], batchId, res);
        nextStore := nextStore[userId := settled];
        pending := pending - {userId};
      }
      assert nextStore == SettledStore(finances, batchId, res);
      finances := nextStore;
      state := FreshRound(config.chitValue, config.commissionRate);
    }
  }
}
