/** The admin request inbox (src/pages/admin/AdminRequests.tsx): the status filter, and the approval
    or rejection of the selected request with the ledger records an approval produces. */
module AdminRequests {
  import opened Wrappers
  import opened Types
  import opened AuctionRules
  import opened GlobalContext

  // ----- Filter -----

  /** The inbox tabs. */
  datatype RequestFilter = AllRequests | WithStatus(status: RequestStatus)

  predicate Shown(f: RequestFilter, r: UserRequest) {
    f.AllRequests? || r.status == f.status
  }

  /** `userRequests.filter(req => filter === 'All' ? true : req.status === filter)`. */
  function FilterRequests(reqs: seq<UserRequest>, f: RequestFilter): (r: seq<UserRequest>)
    ensures |r| <= |reqs|
  {
    if reqs == [] then []
    else (if Shown(f, reqs[0]) then [reqs[0]] else []) + FilterRequests(reqs[1..], f)
  }

  /** A request is listed exactly when it is in the list and the tab shows it. */
  lemma {:induction false} FilterMembers(reqs: seq<UserRequest>, f: RequestFilter)
    ensures forall x :: x in FilterRequests(reqs, f) <==> x in reqs && Shown(f, x)
  {
    if reqs != [] {
      FilterMembers(reqs[1..], f);
      assert reqs == [reqs[0]] + reqs[1..];
    }
  }

  /** The 'All' tab shows everything, in order. */
  lemma {:induction false} FilterAllIsIdentity(reqs: seq<UserRequest>)
    ensures FilterRequests(reqs, AllRequests) == reqs
  {
    if reqs != [] {
      FilterAllIsIdentity(reqs[1..]);
      assert reqs == [reqs[0]] + reqs[1..];
    }
  }

  /** Filtering keeps the original order: it distributes over concatenation. */
  lemma {:induction false} FilterAppend(a: seq<UserRequest>, b: seq<UserRequest>, f: RequestFilter)
    ensures FilterRequests(a + b, f) == FilterRequests(a, f) + FilterRequests(b, f)
  {
    if a == [] {
      assert a + b == b;
    } else {
      var head := if Shown(f, a[0]) then [a[0]] else [];
      assert (a + b)[0] == a[0] && (a + b)[1..] == a[1..] + b;
      FilterAppend(a[1..], b, f);
      calc {
        FilterRequests(a + b, f);
        head + FilterRequests(a[1..] + b, f);
        head + (FilterRequests(a[1..], f) + FilterRequests(b, f));
        (head + FilterRequests(a[1..], f)) + FilterRequests(b, f);
      }
    }
  }

  /** A status tab shows only requests with that status, and filtering again changes nothing. */
  lemma {:induction false} FilterIdempotent(reqs: seq<UserRequest>, f: RequestFilter)
    ensures FilterRequests(FilterRequests(reqs, f), f) == FilterRequests(reqs, f)
  {
    if reqs != [] {
      FilterIdempotent(reqs[1..], f);
      var head := if Shown(f, reqs[0]) then [reqs[0]] else [];
      FilterAppend(head, FilterRequests(reqs[1..], f), f);
      if Shown(f, reqs[0]) {
        assert FilterRequests(head, f) == [reqs[0]] + FilterRequests([], f);
      }
    }
  }

  // ----- Ledger producers -----

  /** JavaScript truthiness of an optional string: present and non-empty. */
  predicate Present(x: Option<string>) {
    x.Some? && x.value != ""
  }

  /** `allUserFinances[uid] || { chits: [], loans: [], deposits: [] }`. */
  function FinanceOf(store: map<string, UserFinance>, uid: string): (f: UserFinance)
    ensures uid in store ==> f == store[uid]
    ensures uid !in store ==> f == EmptyFinance
  {
    if uid in store then store[uid] else EmptyFinance
  }

  /** `Number(amount) || fallback`: an absent, unparseable or zero amount gives the fallback. */
  function AmountOr(amount: Option<int>, fallback: int): (a: int)
    ensures amount.Some? && amount.value != 0 ==> a == amount.value
    ensures amount.None? || amount.value == 0 ==> a == fallback
    ensures fallback != 0 ==> a != 0
  {
    if amount.Some? && amount.value != 0 then amount.value else fallback
  }

  /** The user already holds a chit of the batch, in any status. */
  predicate HoldsBatch(f: UserFinance, batchId: string) {
    exists i :: 0 <= i < |f.chits| && f.chits[i].batchId == batchId
  }

  /** `batches.find(b => b.id === id)`. */
  function FindBatch(batches: seq<ChitBatch>, id: string): (r: Option<ChitBatch>)
    ensures r.Some? ==> r.value.id == id && r.value in batches
    ensures forall i :: 0 <= i < |batches| && batches[i].id == id && (forall j :: 0 <= j < i ==> batches[j].id != id)
                        ==> r == Some(batches[i])
    ensures r.None? ==> forall i :: 0 <= i < |batches| ==> batches[i].id != id
  {
    if batches == [] then None
    else if batches[0].id == id then Some(batches[0])
    else FindBatch(batches[1..], id)
  }

  /** The chit a Join Chit approval opens: the batch's id, name and value, a term of 20, Active and
      not won, nothing paid, the whole value pending, and this month's subscription and dividend. */
  function NewChit(b: ChitBatch): UserChit {
    UserChit(b.id, b.name, b.value, 20, ActiveChit, false, None, None, 0, b.value, 0,
             Some(b.subscription), Some(b.dividend), None, None, None, [])
  }

  /** The conditions under which a Join Chit approval opens a chit. */
  predicate JoinAdmitted(store: map<string, UserFinance>, batches: seq<ChitBatch>, req: UserRequest) {
    && Present(req.details.batchId) && Present(req.userId)
    && !HoldsBatch(FinanceOf(store, req.userId.value), req.details.batchId.value)
    && FindBatch(batches, req.details.batchId.value).Some?
  }

  /** The ledger after approving a Join Chit request. */
  function JoinApproved(store: map<string, UserFinance>, batches: seq<ChitBatch>, req: UserRequest): (r: map<string, UserFinance>)
    ensures !JoinAdmitted(store, batches, req) ==> r == store
    ensures JoinAdmitted(store, batches, req) ==>
              var uid := req.userId.value;
              var fin := FinanceOf(store, uid);
              && r.Keys == store.Keys + {uid}
              && (forall u :: u in store && u != uid ==> r[u] == store[u])
              && r[uid].loans == fin.loans && r[uid].deposits == fin.deposits
              && |r[uid].chits| == |fin.chits| + 1
              && r[uid].chits[..|fin.chits|] == fin.chits
              && r[uid].chits[|fin.chits|] == NewChit(FindBatch(batches, req.details.batchId.value).value)
  {
    if !JoinAdmitted(store, batches, req) then store
    else
      var uid := req.userId.value;
      var fin := FinanceOf(store, uid);
      var b := FindBatch(batches, req.details.batchId.value).value;
      store[uid := fin.(chits := fin.chits + [NewChit(b)])]
  }

  /** Approving the same Join Chit request twice gives the same ledger as approving it once. */
  lemma JoinApprovedIdempotent(store: map<string, UserFinance>, batches: seq<ChitBatch>, req: UserRequest)
    ensures JoinApproved(JoinApproved(store, batches, req), batches, req) == JoinApproved(store, batches, req)
  {
    var once := JoinApproved(store, batches, req);
    if JoinAdmitted(store, batches, req) {
      var uid := req.userId.value;
      var n := |FinanceOf(store, uid).chits|;
      assert FinanceOf(once, uid).chits[n].batchId == req.details.batchId.value;
      assert HoldsBatch(FinanceOf(once, uid), req.details.batchId.value);
    }
  }

  /** A Join Chit approval keeps every ledger at one Active chit per batch. */
  lemma JoinKeepsOneActivePerBatch(store: map<string, UserFinance>, batches: seq<ChitBatch>, req: UserRequest)
    requires forall u :: u in store ==> OneActivePerBatch(store[u])
    ensures var r := JoinApproved(store, batches, req);
            forall u :: u in r ==> OneActivePerBatch(r[u])
  {
    var r := JoinApproved(store, batches, req);
    if JoinAdmitted(store, batches, req) {
      var uid := req.userId.value;
      var fin := FinanceOf(store, uid);
      var bid := req.details.batchId.value;
      var cs := r[uid].chits;
      forall i, j | 0 <= i < j < |cs| && cs[i].status == ActiveChit && cs[j].status == ActiveChit
        ensures cs[i].batchId != cs[j].batchId
      {
        if j == |fin.chits| {
          assert cs[i] == fin.chits[i];
          assert cs[j].batchId == bid;
          assert fin.chits[i].batchId != bid;
        } else {
          assert cs[i] == fin.chits[i] && cs[j] == fin.chits[j];
        }
      }
    }
  }

  /** The fields of a ledger record an approval takes from the clock: generated ids and dates. */
  datatype Stamp = Stamp(loanId: string, depositId: string, newUserId: string, today: string, nextYear: string)

  /** The loan a New Loan approval opens: a personal loan at 2% for the requested amount (100000 by
      default), all of it pending, nothing paid, next due today. */
  function OpenedLoan(amount: int, stamp: Stamp): UserLoan {
    UserLoan(stamp.loanId, Personal, amount, stamp.today, 2, ActiveLoan, amount, 0, 0, amount, Some(stamp.today))
  }

  /** The deposit a New Deposit approval opens: the requested amount (50000 by default) at 1.5%,
      nothing earned, maturing a year from today. */
  function OpenedDeposit(amount: int, stamp: Stamp): UserDeposit {
    UserDeposit(stamp.depositId, amount, stamp.today, 15, 0, Some(stamp.nextYear), ActiveDeposit)
  }

  /** The ledger after approving a New Loan request. */
  function LoanApproved(store: map<string, UserFinance>, req: UserRequest, stamp: Stamp): (r: map<string, UserFinance>)
    ensures !Present(req.userId) ==> r == store
    ensures Present(req.userId) ==>
              var uid := req.userId.value;
              var fin := FinanceOf(store, uid);
              && r.Keys == store.Keys + {uid}
              && (forall u :: u in store && u != uid ==> r[u] == store[u])
              && r[uid].chits == fin.chits && r[uid].deposits == fin.deposits
              && r[uid].loans == fin.loans + [OpenedLoan(AmountOr(req.details.amount, 100000), stamp)]
  {
    if !Present(req.userId) then store
    else
      var uid := req.userId.value;
      var fin := FinanceOf(store, uid);
      store[uid := fin.(loans := fin.loans + [OpenedLoan(AmountOr(req.details.amount, 100000), stamp)])]
  }

  /** The ledger after approving a New Deposit request. */
  function DepositApproved(store: map<string, UserFinance>, req: UserRequest, stamp: Stamp): (r: map<string, UserFinance>)
    ensures !Present(req.userId) ==> r == store
    ensures Present(req.userId) ==>
              var uid := req.userId.value;
              var fin := FinanceOf(store, uid);
              && r.Keys == store.Keys + {uid}
              && (forall u :: u in store && u != uid ==> r[u] == store[u])
              && r[uid].chits == fin.chits && r[uid].loans == fin.loans
              && r[uid].deposits == fin.deposits + [OpenedDeposit(AmountOr(req.details.amount, 50000), stamp)]
  {
    if !Present(req.userId) then store
    else
      var uid := req.userId.value;
      var fin := FinanceOf(store, uid);
      store[uid := fin.(deposits := fin.deposits + [OpenedDeposit(AmountOr(req.details.amount, 50000), stamp)])]
  }

  /** The admin's decision on a request. */
  datatype Decision = Approve | Reject

  function StatusOf(d: Decision): RequestStatus {
    if d == Approve then Approved else Rejected
  }

  /** The ledger after deciding a request. Only approvals of Join Chit, New Loan and New Deposit
      requests touch it. */
  function LedgerAfter(store: map<string, UserFinance>, batches: seq<ChitBatch>, req: UserRequest, d: Decision, stamp: Stamp): (r: map<string, UserFinance>)
    ensures d == Reject ==> r == store
    ensures req.kind !in {JoinChit, NewLoan, NewDeposit} ==> r == store
  {
    if d == Reject then store
    else match req.kind
      case JoinChit => JoinApproved(store, batches, req)
      case NewLoan => LoanApproved(store, req, stamp)
      case NewDeposit => DepositApproved(store, req, stamp)
      case _ => store
  }

  /** The user a Registration approval adds. */
  function RegisteredUser(req: UserRequest, stamp: Stamp): UserLite {
    UserLite(stamp.newUserId, req.userName, req.details.email, req.details.phone)
  }

  /** The second patch of a Registration approval subsumes the first: the request ends up with the
      decision, the comment and the new user id, and nothing else changes. */
  lemma RegistrationPatches(reqs: seq<UserRequest>, id: string, status: RequestStatus, notes: string, newId: string)
    ensures var once := PatchRequests(reqs, id, RequestPatch(status, notes, None));
            var twice := PatchRequests(once, id, RequestPatch(status, notes, Some(newId)));
            && twice == PatchRequests(reqs, id, RequestPatch(status, notes, Some(newId)))
            && forall i :: 0 <= i < |reqs| && reqs[i].id == id ==>
                 twice[i] == reqs[i].(status := status, adminComment := Some(notes), userId := Some(newId))
  {
  }

  class AdminRequestsPage {
    const store: Store
    var filter: RequestFilter
    var selectedReq: Option<UserRequest>
    var adminNotes: string

    constructor (s: Store)
      ensures store == s && filter == WithStatus(PendingRequest) && selectedReq.None? && adminNotes == ""
    {
      store := s;
      filter, selectedReq, adminNotes := WithStatus(PendingRequest), None, "";
    }

    /** The requests listed under the current tab. */
    function Listed(): seq<UserRequest>
      reads this, store
    {
      FilterRequests(store.requests, filter)
    }

    method SetFilter(f: RequestFilter)
      modifies this`filter
      ensures filter == f
    {
      filter := f;
    }

    /** Opening a request in the review dialog. */
    method Select(r: Option<UserRequest>)
      modifies this`selectedReq
      ensures selectedReq == r
    {
      selectedReq := r;
    }

    method EditNotes(notes: string)
      modifies this`adminNotes
      ensures adminNotes == notes
    {
      adminNotes := notes;
    }

    /** `handleAction(status)`: records the decision and the comment on the selected request, applies
        what an approval produces (a chit, a loan, a deposit or a new user), and closes the dialog.
        Without a selected request nothing happens. */
    method HandleAction(d: Decision, stamp: Stamp)
      modifies this`selectedReq, this`adminNotes, store`requests, store`finances, store`users
      ensures old(selectedReq).None? ==>
                && store.requests == old(store.requests) && store.finances == old(store.finances)
                && store.users == old(store.users) && selectedReq.None? && adminNotes == old(adminNotes)
      ensures old(selectedReq).Some? ==>
                var req := old(selectedReq).value;
                var registers := d == Approve && req.kind == Registration;
                var p := RequestPatch(StatusOf(d), old(adminNotes), if registers then Some(stamp.newUserId) else None);
                && store.requests == PatchRequests(old(store.requests), req.id, p)
                && store.finances == LedgerAfter(old(store.finances), store.batches, req, d, stamp)
                && store.users == old(store.users) + (if registers then [RegisteredUser(req, stamp)] else [])
                && selectedReq.None? && adminNotes == ""
    {
      if selectedReq.None? {
        return;
      }
      var req := selectedReq.value;
      var status := StatusOf(d);
      store.UpdateUserRequest(req.id, RequestPatch(status, adminNotes, None));
      if d == Approve {
        if req.kind == JoinChit {
          if JoinAdmitted(store.finances, store.batches, req) {
            var uid := req.userId.value;
            var finance := FinanceOf(store.finances, uid);
            var batch := FindBatch(store.batches, req.details.batchId.value).value;
            store.UpdateUserFinance(uid, finance.(chits := finance.chits + [NewChit(batch)]));
          }
        } else if req.kind == NewLoan {
          if Present(req.userId) {
            var uid := req.userId.value;
            var amt := AmountOr(req.details.amount, 100000);
            var finance := FinanceOf(store.finances, uid);
            store.UpdateUserFinance(uid, finance.(loans := finance.loans + [OpenedLoan(amt, stamp)]));
          }
        } else if req.kind == Registration {
          store.AddUser(RegisteredUser(req, stamp));
          RegistrationPatches(old(store.requests), req.id, status, adminNotes, stamp.newUserId);
          store.UpdateUserRequest(req.id, RequestPatch(status, adminNotes, Some(stamp.newUserId)));
        } else if req.kind == NewDeposit {
          if Present(req.userId) {
            var uid := req.userId.value;
            var amt := AmountOr(req.details.amount, 50000);
            var finance := FinanceOf(store.finances, uid);
            store.UpdateUserFinance(uid, finance.(deposits := finance.deposits + [OpenedDeposit(amt, stamp)]));
          }
        }
      }
      selectedReq := None;
      adminNotes := "";
    }
  }
}
