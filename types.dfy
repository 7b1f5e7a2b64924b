/** The records of the portal's shared state (src/types/index.ts), restricted to the fields the
    auction engine, the settlement step and the request approvals read or write. */
module Types {
  import opened Wrappers

  // ----- Users and sessions -----

  /** A registered user: only the id and the name matter to the core. */
  datatype UserLite = UserLite(id: string, name: string, email: Option<string>, phone: Option<string>)

  /** An administrator session. */
  datatype AdminUser = AdminUser(id: string, name: string)

  // ----- Auction -----

  /** One row of the live ranking table. */
  datatype Bidder = Bidder(userId: string, name: string, loss: int)

  /** The outcome recorded by finalization. */
  datatype Winner = Winner(userId: string, name: string, winnerLoss: int, finalLoss: int, monthInHand: int)

  /** The admin-owned parameters of the current round. `commissionRate` is an integer percentage. */
  datatype AuctionConfig = AuctionConfig(
    runningMonth: string,
    term: int,
    chitValue: int,
    commissionRate: int,
    minLoss: int,
    roomCode: string,
    activeBatchId: Option<string>,
    activeBatchName: Option<string>)

  /** The live round. `endTime` is a wall-clock timestamp in milliseconds. */
  datatype AuctionState = AuctionState(
    secondsLeft: int,
    endTime: Option<int>,
    running: bool,
    finished: bool,
    currentLoss: int,
    bidders: seq<Bidder>,
    winner: Option<Winner>)

  // ----- Ledger -----

  datatype ChitStatus = ActiveChit | CompletedChit
  datatype RowStatus = Paid | Pending | Overdue

  /** One line of a chit's payment history. */
  datatype HistoryRow = HistoryRow(month: string, amount: int, paidOn: Option<string>, status: RowStatus)

  /** A user's membership of one chit batch. */
  datatype UserChit = UserChit(
    batchId: string,
    batchName: string,
    value: int,
    term: int,
    status: ChitStatus,
    bidWon: bool,
    bidMonth: Option<string>,
    bidAmount: Option<int>,
    totalPaid: int,
    pendingAmount: int,
    installmentsPaid: int,
    currentMonthPayment: Option<int>,
    currentMonthDividend: Option<int>,
    bidsInHand: Option<int>,
    totalLoss: Option<int>,
    totalProfit: Option<int>,
    history: seq<HistoryRow>)

  datatype LoanKind = Personal | Business
  datatype LoanStatus = ActiveLoan | ClosedLoan

  /** A loan; `interestRate` is a percentage per month. */
  datatype UserLoan = UserLoan(
    id: string,
    kind: LoanKind,
    amount: int,
    date: string,
    interestRate: int,
    status: LoanStatus,
    pendingPrincipal: int,
    interestPaid: int,
    principalPaid: int,
    totalPending: int,
    nextDueDate: Option<string>)

  datatype DepositStatus = ActiveDeposit | Withdrawn

  /** A fixed deposit; `interestRateTenths` is the rate in tenths of a percent (1.5% is 15). */
  datatype UserDeposit = UserDeposit(
    id: string,
    amount: int,
    date: string,
    interestRateTenths: int,
    interestEarned: int,
    maturityDate: Option<string>,
    status: DepositStatus)

  /** Everything the portal records about one user's money. */
  datatype UserFinance = UserFinance(chits: seq<UserChit>, loans: seq<UserLoan>, deposits: seq<UserDeposit>)

  /** The record used when a user has no ledger yet. */
  const EmptyFinance := UserFinance([], [], [])

  datatype BatchStatus = ActiveBatch | CompletedBatch

  /** A chit-fund group. */
  datatype ChitBatch = ChitBatch(
    id: string,
    name: string,
    value: int,
    currentMonth: string,
    subscription: int,
    dividend: int,
    status: BatchStatus,
    nextAuction: string)

  // ----- Requests -----

  datatype RequestKind = JoinChit | NewLoan | NewDeposit | Forex | PortfolioUpdate | Registration | PasswordReset
  datatype RequestStatus = PendingRequest | Approved | Rejected | Completed

  /** The request-specific payload. `amount` is the value of `Number(details.amount)` when that is a
      finite integer, and None when it is NaN (absent or not numeric). */
  datatype RequestDetails = RequestDetails(
    batchId: Option<string>,
    amount: Option<int>,
    email: Option<string>,
    phone: Option<string>)

  datatype UserRequest = UserRequest(
    id: string,
    userId: Option<string>,
    userName: string,
    kind: RequestKind,
    details: RequestDetails,
    status: RequestStatus,
    date: string,
    adminComment: Option<string>)
}
