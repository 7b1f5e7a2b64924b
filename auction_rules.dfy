/** The expression-only rules of the auction context (src/context/GlobalContext.tsx): the minimum-loss
    formula, the timer arithmetic, the state updaters handed to `setAuctionState`, finalization and the
    bidding eligibility rule. The mutable cells that hold this state are class Store in GlobalContext. */
module AuctionRules {
  import opened Wrappers
  import opened Types

  /** Length of a round, in seconds and in milliseconds. */
  const RoundSeconds: int := 600
  const RoundMillis: int := 10 * 60 * 1000

  function Max(a: int, b: int): int { if a >= b then a else b }

  /** `Math.floor(chitValue * (commissionRate / 100))`: the organiser's commission, the round's floor loss. */
  function MinLoss(chitValue: int, commissionRate: int): (m: int)
    ensures m * 100 <= chitValue * commissionRate < m * 100 + 100
  {
    (chitValue * commissionRate) / 100
  }

  // ----- Timer -----

  /** `Math.ceil(d / 1000)` for an integer number of milliseconds `d`. */
  function CeilThousandth(d: int): (q: int)
    ensures (q - 1) * 1000 < d <= q * 1000
  {
    -((-d) / 1000)
  }

  /** Remaining whole seconds, `Math.max(0, Math.ceil((endTime - now) / 1000))`. */
  function SecondsLeftAt(endTime: int, now: int): (left: int)
    ensures left >= 0
    ensures left == 0 <==> endTime <= now
    ensures left > 0 ==> (left - 1) * 1000 < endTime - now <= left * 1000
  {
    Max(0, CeilThousandth(endTime - now))
  }

  /** The source's `!auctionState.endTime` is false exactly when this holds (0 counts as unset). */
  predicate HasEndTime(s: AuctionState) {
    s.endTime.Some? && s.endTime.value != 0
  }

  /** The timer effect, and the interval it installs, act only on a running, unfinished round. */
  predicate TimerArmed(s: AuctionState) {
    s.running && !s.finished
  }

  /** Updater of the timer effect's first run: fix the deadline ten minutes from `now`. */
  function StartedState(s: AuctionState, now: int): (t: AuctionState)
    ensures t.endTime == Some(now + RoundMillis)
    ensures t.endTime.Some? && SecondsLeftAt(t.endTime.value, now) == t.secondsLeft == RoundSeconds
    ensures t.(endTime := s.endTime, secondsLeft := s.secondsLeft) == s
  {
    s.(endTime := Some(now + RoundMillis), secondsLeft := RoundSeconds)
  }

  /** Updater of one interval tick, given the freshly computed remaining time `left`. */
  function TickedState(s: AuctionState, left: int): (t: AuctionState)
    ensures t.secondsLeft == left
    ensures t.finished == (s.finished || left == 0) && t.running == (s.running && left != 0)
    ensures t.(secondsLeft := s.secondsLeft, running := s.running, finished := s.finished) == s
  {
    if left == 0 then s.(secondsLeft := 0, running := false, finished := true)
    else s.(secondsLeft := left)
  }

  /** The auto-finalize effect fires when the clock shows zero on a round not yet finished. */
  predicate AutoFinalizeDue(s: AuctionState) {
    s.secondsLeft == 0 && !s.finished
  }

  /** The outcome `finalizeAuction` records for the current top bidder, if any. The commission
      (`minLoss`) is added to the top bid's loss, although that loss already started from `minLoss`. */
  function WinnerOf(bidders: seq<Bidder>, config: AuctionConfig): (w: Option<Winner>)
    ensures w.None? <==> bidders == []
    ensures w.Some? ==> && w.value.userId == bidders[0].userId && w.value.name == bidders[0].name
                        && w.value.winnerLoss == bidders[0].loss
                        && w.value.finalLoss - w.value.winnerLoss == config.minLoss
                        && w.value.monthInHand >= 0
                        && w.value.monthInHand >= config.chitValue - w.value.finalLoss
                        && (w.value.monthInHand == 0 || w.value.monthInHand + w.value.finalLoss == config.chitValue)
  {
    if bidders == [] then None
    else
      var top := bidders[0];
      var finalLoss := config.minLoss + top.loss;
      Some(Winner(top.userId, top.name, top.loss, finalLoss, Max(config.chitValue - finalLoss, 0)))
  }

  /** Updater of `finalizeAuction`: a finished round is returned as it is; otherwise the round stops,
      is marked finished and records the winner (or none). */
  function FinalizedState(s: AuctionState, config: AuctionConfig): (t: AuctionState)
    ensures s.finished ==> t == s
    ensures !s.finished ==> t == s.(running := false, finished := true, winner := WinnerOf(s.bidders, config))
  {
    if s.finished then s
    else s.(running := false, finished := true, winner := WinnerOf(s.bidders, config))
  }

  /** Finalizing twice is finalizing once. */
  lemma FinalizeIdempotent(s: AuctionState, config: AuctionConfig)
    ensures FinalizedState(FinalizedState(s, config), config) == FinalizedState(s, config)
    ensures FinalizedState(s, config).finished
  {
  }

  /** On the timeout path the tick itself marks the round finished, so neither the auto-finalize effect
      nor `finalizeAuction` runs its body afterwards: the winner is whatever it was before the tick. */
  lemma TimeoutTickRecordsNoWinner(s: AuctionState, config: AuctionConfig, endTime: int, now: int)
    requires endTime <= now
    ensures var t := TickedState(s, SecondsLeftAt(endTime, now));
            && t.finished && !t.running && t.secondsLeft == 0
            && !AutoFinalizeDue(t)
            && FinalizedState(t, config) == t
            && t.winner == s.winner
  {
  }

  /** Remaining time is a function of the deadline and the clock alone: shifting both by the same
      amount changes nothing, and a later reading never shows more time. */
  lemma SecondsLeftConverges(endTime: int, now: int, shift: int, later: int)
    requires now <= later
    ensures SecondsLeftAt(endTime + shift, now + shift) == SecondsLeftAt(endTime, now)
    ensures SecondsLeftAt(endTime, later) <= SecondsLeftAt(endTime, now)
  {
  }

  /** A deadline `n` whole seconds away reads exactly `n`; in particular a fresh deadline reads 600. */
  lemma SecondsLeftExact(now: int, n: nat)
    ensures SecondsLeftAt(now + 1000 * n, now) == n
    ensures SecondsLeftAt(now + RoundMillis, now) == RoundSeconds
  {
  }

  // ----- Configuration derivation -----

  /** Updater of the minLoss effect for `currentLoss`: left alone while running, otherwise raised to at
      least the new minimum loss. */
  function DerivedCurrentLoss(s: AuctionState, chitValue: int, commissionRate: int): (loss: int)
    ensures loss >= s.currentLoss
    ensures s.running ==> loss == s.currentLoss
    ensures !s.running ==> loss >= MinLoss(chitValue, commissionRate)
    ensures loss == s.currentLoss || loss == MinLoss(chitValue, commissionRate)
  {
    if s.running then s.currentLoss else Max(s.currentLoss, MinLoss(chitValue, commissionRate))
  }

  /** The state a new round starts from (admin reset and the end of settlement). */
  function FreshRound(chitValue: int, commissionRate: int): (s: AuctionState)
    ensures s.secondsLeft == RoundSeconds && s.endTime.None? && !s.running && !s.finished
    ensures s.bidders == [] && s.winner.None?
    ensures s.currentLoss * 100 <= chitValue * commissionRate < s.currentLoss * 100 + 100
  {
    AuctionState(RoundSeconds, None, false, false, MinLoss(chitValue, commissionRate), [], None)
  }

  // ----- Eligibility -----

  /** `userId.startsWith('ADMIN')`. */
  predicate IsAdminId(userId: string) {
    "ADMIN" <= userId
  }

  /** The chit an eligibility or settlement search is looking for. */
  predicate IsActiveIn(c: UserChit, batchId: string) {
    c.batchId == batchId && c.status == ActiveChit
  }

  /** `chits.findIndex(c => c.batchId === batchId && c.status === 'Active')`, with None for -1. */
  function FindActiveChit(chits: seq<UserChit>, batchId: string): (r: Option<nat>)
    ensures r.Some? ==> r.value < |chits| && IsActiveIn(chits[r.value], batchId)
    ensures r.Some? ==> forall j :: 0 <= j < r.value ==> !IsActiveIn(chits[j], batchId)
    ensures r.None? ==> forall j :: 0 <= j < |chits| ==> !IsActiveIn(chits[j], batchId)
  {
    if chits == [] then None
    else if IsActiveIn(chits[0], batchId) then Some(0)
    else match FindActiveChit(chits[1..], batchId)
         case None => None
         case Some(i) => Some(i + 1)
  }

  /** The `canBid` rule: an admin session or an ADMIN id may always bid; anyone else needs a ledger
      whose first Active chit in the batch has not yet won. */
  function CanBid(adminSession: bool, finances: map<string, UserFinance>, userId: string, batchId: string): (ok: bool)
    ensures ok <==> adminSession || IsAdminId(userId) ||
                    (userId in finances &&
                     exists i :: 0 <= i < |finances[userId].chits| && FirstActiveAt(finances[userId].chits, batchId, i)
                                 && !finances[userId].chits[i].bidWon)
  {
    if adminSession || IsAdminId(userId) then true
    else if userId !in finances then false
    else match FindActiveChit(finances[userId].chits, batchId)
         case None => false
         case Some(i) => assert FirstActiveAt(finances[userId].chits, batchId, i); !finances[userId].chits[i].bidWon
  }

  /** Index `i` holds the first Active chit of the batch. */
  predicate FirstActiveAt(chits: seq<UserChit>, batchId: string, i: int)
    requires 0 <= i < |chits|
  {
    IsActiveIn(chits[i], batchId) && forall j :: 0 <= j < i ==> !IsActiveIn(chits[j], batchId)
  }

  /** The ledger invariant: at most one Active chit per batch in a user's record. */
  predicate OneActivePerBatch(f: UserFinance) {
    forall i, j :: 0 <= i < j < |f.chits| && f.chits[i].status == ActiveChit && f.chits[j].status == ActiveChit
                   ==> f.chits[i].batchId != f.chits[j].batchId
  }

  /** Under the ledger invariant, a non-admin may bid exactly when the user holds an Active chit of the
      batch that has not won yet. */
  lemma CanBidUnderInvariant(finances: map<string, UserFinance>, userId: string, batchId: string)
    requires userId in finances && OneActivePerBatch(finances[userId]) && !IsAdminId(userId)
    ensures CanBid(false, finances, userId, batchId) <==>
            exists i :: 0 <= i < |finances[userId].chits| && IsActiveIn(finances[userId].chits[i], batchId)
                        && !finances[userId].chits[i].bidWon
  {
    var chits := finances[userId].chits;
    if i :| 0 <= i < |chits| && IsActiveIn(chits[i], batchId) && !chits[i].bidWon {
      assert FirstActiveAt(chits, batchId, i);
    }
  }

  /** The batch a page acts on: `activeBatchId || ''` (an unset and an empty id both give ""). */
  function BatchKey(c: AuctionConfig): string {
    c.activeBatchId.GetOr("")
  }
}
