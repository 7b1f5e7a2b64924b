/** What `syncAuctionResults` (src/context/GlobalContext.tsx) does to one user's ledger: the first
    Active chit of the settled batch gains a Pending history row and new running totals, and the
    winner's chit records the win. Class Store in GlobalContext applies this to every user in a loop. */
module Settlement {
  import opened Wrappers
  import opened Types
  import opened AuctionRules

  /** The admin-confirmed figures of a round. */
  datatype SyncInput = SyncInput(
    finalLoss: int,
    dividend: int,
    monthlyPayment: int,
    winnerId: Option<string>,
    runningMonth: string)

  /** `x || 0` on an optional amount (an absent or zero amount reads as 0). */
  function OrZero(x: Option<int>): (v: int)
    ensures x.Some? ==> v == x.value
    ensures x.None? ==> v == 0
  {
    x.GetOr(0)
  }

  /** `(bidsInHand || 1) - 1`: an absent or zero count reads as 1 before the decrement. */
  function SpendBid(bidsInHand: Option<int>): (n: int)
    ensures bidsInHand.None? ==> n == 0
    ensures bidsInHand.Some? && bidsInHand.value == 0 ==> n == 0
    ensures bidsInHand.Some? && bidsInHand.value != 0 ==> n == bidsInHand.value - 1
  {
    if bidsInHand.None? || bidsInHand.value == 0 then 0 else bidsInHand.value - 1
  }

  /** The history row every settled chit gains. */
  function SettlementRow(res: SyncInput): HistoryRow {
    HistoryRow(res.runningMonth, res.monthlyPayment, None, Pending)
  }

  /** The settled copy of one chit. */
  function SettledChit(chit: UserChit, isWinner: bool, res: SyncInput): UserChit {
    var c := chit.(history := chit.history + [SettlementRow(res)],
                   totalProfit := Some(OrZero(chit.totalProfit) + res.dividend),
                   currentMonthPayment := Some(res.monthlyPayment),
                   currentMonthDividend := Some(res.dividend),
                   pendingAmount := chit.pendingAmount + res.monthlyPayment);
    if isWinner then
      c.(bidWon := true, bidMonth := Some(res.runningMonth), bidAmount := Some(res.finalLoss),
         bidsInHand := Some(SpendBid(c.bidsInHand)), totalLoss := Some(res.finalLoss))
    else if !c.bidWon then c.(bidsInHand := Some(1))
    else c
  }

  /** One user's ledger after settlement of `batchId`. */
  function SettledFinance(userId: string, fin: UserFinance, batchId: string, res: SyncInput): UserFinance {
    match FindActiveChit(fin.chits, batchId)
    case None => fin
    case Some(i) => fin.(chits := fin.chits[i := SettledChit(fin.chits[i], res.winnerId == Some(userId), res)])
  }

  /** The whole store after settlement. */
  function SettledStore(store: map<string, UserFinance>, batchId: string, res: SyncInput): map<string, UserFinance> {
    map u | u in store :: SettledFinance(u, store[u], batchId, res)
  }

  /** The user holds an Active chit of the batch. */
  predicate InBatch(fin: UserFinance, batchId: string) {
    exists i :: 0 <= i < |fin.chits| && IsActiveIn(fin.chits[i], batchId)
  }

  /** Scope: a user without an Active chit in the batch is untouched; otherwise exactly the first such
      chit changes, in the way stated by SettledChitFields, and loans, deposits and every other chit stay. */
  lemma SettledFinanceScope(userId: string, fin: UserFinance, batchId: string, res: SyncInput)
    ensures var f := SettledFinance(userId, fin, batchId, res);
            && (!InBatch(fin, batchId) ==> f == fin)
            && (InBatch(fin, batchId) ==>
                  exists i :: 0 <= i < |fin.chits| && FirstActiveAt(fin.chits, batchId, i)
                              && f.loans == fin.loans && f.deposits == fin.deposits
                              && |f.chits| == |fin.chits|
                              && (forall j :: 0 <= j < |fin.chits| && j != i ==> f.chits[j] == fin.chits[j])
                              && f.chits[i] == SettledChit(fin.chits[i], res.winnerId == Some(userId), res))
  {
    match FindActiveChit(fin.chits, batchId)
    case None =>
    case Some(i) =>
      assert FirstActiveAt(fin.chits, batchId, i);
  }

  /** The settled chit: one more history row, running totals advanced, the win recorded for the
      winner, eligibility re-affirmed for members who have not won; identity and payments untouched. */
  lemma SettledChitFields(chit: UserChit, isWinner: bool, res: SyncInput)
    ensures var c := SettledChit(chit, isWinner, res);
            && c.history == chit.history + [HistoryRow(res.runningMonth, res.monthlyPayment, None, Pending)]
            && |c.history| == |chit.history| + 1
            && c.totalProfit == Some(OrZero(chit.totalProfit) + res.dividend)
            && c.pendingAmount == chit.pendingAmount + res.monthlyPayment
            && c.currentMonthPayment == Some(res.monthlyPayment)
            && c.currentMonthDividend == Some(res.dividend)
            && c.batchId == chit.batchId && c.status == chit.status && c.value == chit.value
            && c.totalPaid == chit.totalPaid && c.installmentsPaid == chit.installmentsPaid
            && (isWinner ==> c.bidWon && c.bidMonth == Some(res.runningMonth)
                             && c.bidAmount == Some(res.finalLoss) && c.totalLoss == Some(res.finalLoss)
                             && c.bidsInHand == Some(SpendBid(chit.bidsInHand)))
            && (!isWinner && !chit.bidWon ==> !c.bidWon && c.bidsInHand == Some(1))
            && (!isWinner && chit.bidWon ==> c.bidWon && c.bidsInHand == chit.bidsInHand)
            && (!isWinner ==> c.bidMonth == chit.bidMonth && c.bidAmount == chit.bidAmount
                              && c.totalLoss == chit.totalLoss)
  {
  }

  /** The winner's remaining bid count stays non-negative when it was absent or non-negative. */
  lemma WinnerBidsInHandNonNegative(chit: UserChit, res: SyncInput)
    requires chit.bidsInHand.None? || chit.bidsInHand.value >= 0
    ensures var c := SettledChit(chit, true, res); c.bidsInHand.Some? && c.bidsInHand.value >= 0
  {
  }

  /** Completeness: settlement keeps the set of users, and changes exactly the ledgers of users with an
      Active chit in the batch (each of which gains exactly one history row in that chit). */
  lemma SettledStoreChangesExactlyMembers(store: map<string, UserFinance>, batchId: string, res: SyncInput)
    ensures var next := SettledStore(store, batchId, res);
            && next.Keys == store.Keys
            && forall u :: u in store ==> (next[u] != store[u] <==> InBatch(store[u], batchId))
  {
    var next := SettledStore(store, batchId, res);
    forall u | u in store
      ensures next[u] != store[u] <==> InBatch(store[u], batchId)
    {
      SettledFinanceScope(u, store[u], batchId, res);
      if InBatch(store[u], batchId) {
        var i :| 0 <= i < |store[u].chits| && FirstActiveAt(store[u].chits, batchId, i)
                 && next[u].chits[i] == SettledChit(store[u].chits[i], res.winnerId == Some(u), res);
        SettledChitFields(store[u].chits[i], res.winnerId == Some(u), res);
        assert |next[u].chits[i].history| != |store[u].chits[i].history|;
      }
    }
  }

  /** Only the named winner is marked as having won; at most one ledger records the win of this round. */
  lemma OnlyWinnerMarked(store: map<string, UserFinance>, batchId: string, res: SyncInput, u: string)
    requires u in store && res.winnerId != Some(u)
    ensures var next := SettledStore(store, batchId, res);
            forall j :: 0 <= j < |store[u].chits| ==>
              |next[u].chits| == |store[u].chits| && next[u].chits[j].bidWon == store[u].chits[j].bidWon
  {
    var next := SettledStore(store, batchId, res);
    SettledFinanceScope(u, store[u], batchId, res);
    if InBatch(store[u], batchId) {
      var i :| 0 <= i < |store[u].chits| && FirstActiveAt(store[u].chits, batchId, i)
               && next[u].chits[i] == SettledChit(store[u].chits[i], false, res)
               && |next[u].chits| == |store[u].chits|
               && (forall j :: 0 <= j < |store[u].chits| && j != i ==> next[u].chits[j] == store[u].chits[j]);
      SettledChitFields(store[u].chits[i], false, res);
    }
  }

  /** Settlement keeps the ledger invariant: no second Active chit of a batch can appear. */
  lemma SettlementKeepsOneActivePerBatch(userId: string, fin: UserFinance, batchId: string, res: SyncInput)
    requires OneActivePerBatch(fin)
    ensures OneActivePerBatch(SettledFinance(userId, fin, batchId, res))
  {
    var f := SettledFinance(userId, fin, batchId, res);
    SettledFinanceScope(userId, fin, batchId, res);
    if InBatch(fin, batchId) {
      var i :| 0 <= i < |fin.chits| && FirstActiveAt(fin.chits, batchId, i)
               && |f.chits| == |fin.chits|
               && (forall j :: 0 <= j < |fin.chits| && j != i ==> f.chits[j] == fin.chits[j])
               && f.chits[i] == SettledChit(fin.chits[i], res.winnerId == Some(userId), res);
      SettledChitFields(fin.chits[i], res.winnerId == Some(userId), res);
      assert forall j :: 0 <= j < |f.chits| ==>
        f.chits[j].status == fin.chits[j].status && f.chits[j].batchId == fin.chits[j].batchId;
    }
  }
}
