/** The expression-only logic of the live-auction page (src/pages/services/ChitFunds.tsx): the bid
    increment, the updater that rebuilds the ranking table, the guards `placeBid` checks in order, the
    room-code comparison and the in-hand figure. Class ChitFundsPage in ChitFunds drives them. */
module BidTable {
  import opened Wrappers
  import opened Types
  import opened AuctionRules

  /** The fixed menu of increments, in tenths of a percent of the chit value: 0.1% ... 0.5% and 1%. */
  const BidMenuTenths: seq<int> := [1, 2, 3, 4, 5, 10]

  /** `Math.floor(chitValue * (percentage / 100))` for a percentage of `tenths` tenths of a percent. */
  function Increment(chitValue: int, tenths: int): (inc: int)
    ensures inc * 1000 <= chitValue * tenths < inc * 1000 + 1000
  {
    (chitValue * tenths) / 1000
  }

  /** A menu increment on a non-negative chit value never lowers the loss, and is positive once the
      chit value is at least 1000 (the 0.1% step of a smaller chit floors to 0). */
  lemma MenuIncrementBounds(chitValue: int, tenths: int)
    requires tenths in BidMenuTenths && chitValue >= 0
    ensures 0 <= Increment(chitValue, tenths) <= chitValue / 100
    ensures chitValue >= 1000 ==> Increment(chitValue, tenths) > 0
  {
    var inc := Increment(chitValue, tenths);
    assert chitValue * tenths <= chitValue * 10;
    assert inc * 1000 <= chitValue * 10;
    assert chitValue >= 1000 ==> chitValue * tenths >= 1000;
  }

  /** The table's order: non-increasing loss. */
  predicate SortedByLoss(s: seq<Bidder>) {
    forall i, j :: 0 <= i < j < |s| ==> s[i].loss >= s[j].loss
  }

  /** No user appears twice. */
  predicate DistinctUsers(s: seq<Bidder>) {
    forall i, j :: 0 <= i < j < |s| ==> s[i].userId != s[j].userId
  }

  /** The shape the table keeps: at most three rows, sorted, one per user. */
  predicate WellFormedTable(s: seq<Bidder>) {
    |s| <= 3 && SortedByLoss(s) && DistinctUsers(s)
  }

  /** No recorded bid exceeds the current loss. */
  predicate Leading(s: AuctionState) {
    forall i :: 0 <= i < |s.bidders| ==> s.bidders[i].loss <= s.currentLoss
  }

  /** `isTop1Bidder(bidders, id)`: the table is non-empty and its first row is `id`'s. */
  predicate IsTopBidder(bidders: seq<Bidder>, id: string) {
    |bidders| > 0 && bidders[0].userId == id
  }

  /** `bidders.filter(b => b.userId !== id)`. */
  function WithoutUser(s: seq<Bidder>, id: string): (r: seq<Bidder>)
    ensures |r| <= |s|
  {
    if s == [] then []
    else if s[0].userId == id then WithoutUser(s[1..], id)
    else [s[0]] + WithoutUser(s[1..], id)
  }
  /** Filtering drops exactly the user's rows. */
  lemma {:induction false} WithoutUserMembers(s: seq<Bidder>, id: string)
    ensures forall b :: b in WithoutUser(s, id) <==> b in s && b.userId != id
  {
    if s != [] {
      WithoutUserMembers(s[1..], id);
      assert s == [s[0]] + s[1..];
    }
  }

  /** Filtering keeps users distinct. */
  lemma {:induction false} WithoutUserDistinct(s: seq<Bidder>, id: string)
    requires DistinctUsers(s)
    ensures DistinctUsers(WithoutUser(s, id))
  {
    if s != [] {
      var tail := s[1..];
      assert forall k :: 0 <= k < |tail| ==> tail[k] == s[k + 1];
      WithoutUserDistinct(tail, id);
      if s[0].userId != id {
        var rest := WithoutUser(tail, id);
        WithoutUserMembers(tail, id);
        forall b | b in rest ensures b.userId != s[0].userId {
          var m :| 0 <= m < |tail| && tail[m] == b;
          assert s[m + 1] == b;
        }
        assert WithoutUser(s, id) == [s[0]] + rest;
      }
    }
  }

  /** Filtering keeps the table sorted. */
  lemma {:induction false} WithoutUserSorted(s: seq<Bidder>, id: string)
    requires SortedByLoss(s)
    ensures SortedByLoss(WithoutUser(s, id))
  {
    if s != [] {
      var tail := s[1..];
      assert forall k :: 0 <= k < |tail| ==> tail[k] == s[k + 1];
      WithoutUserSorted(tail, id);
      if s[0].userId != id {
        var rest := WithoutUser(tail, id);
        WithoutUserMembers(tail, id);
        forall b | b in rest ensures s[0].loss >= b.loss {
          var m :| 0 <= m < |tail| && tail[m] == b;
          assert s[m + 1] == b;
        }
        assert WithoutUser(s, id) == [s[0]] + rest;
      }
    }
  }

  /** Filtering keeps both shape properties of the table. */
  lemma WithoutUserKeeps(s: seq<Bidder>, id: string)
    ensures DistinctUsers(s) ==> DistinctUsers(WithoutUser(s, id))
    ensures SortedByLoss(s) ==> SortedByLoss(WithoutUser(s, id))
  {
    if DistinctUsers(s) { WithoutUserDistinct(s, id); }
    if SortedByLoss(s) { WithoutUserSorted(s, id); }
  }

  /** Places `x` before the first row whose loss is not above its own, so `x` precedes equal losses. */
  function InsertByLoss(x: Bidder, t: seq<Bidder>): (r: seq<Bidder>)
    ensures |r| == |t| + 1
  {
    if t == [] || t[0].loss <= x.loss then [x] + t
    else [t[0]] + InsertByLoss(x, t[1..])
  }

  lemma {:induction false} InsertByLossPerm(x: Bidder, t: seq<Bidder>)
    ensures multiset(InsertByLoss(x, t)) == multiset{x} + multiset(t)
    decreases |t|
  {
    if !(t == [] || t[0].loss <= x.loss) {
      InsertByLossPerm(x, t[1..]);
      assert t == [t[0]] + t[1..];
    }
  }

  /** Every row of the insertion is `x` or a row of `t`. */
  lemma InsertByLossMembers(x: Bidder, t: seq<Bidder>)
    ensures forall b :: b in InsertByLoss(x, t) <==> b == x || b in t
  {
    InsertByLossPerm(x, t);
    SameElements(InsertByLoss(x, t), [x] + t);
  }

  lemma {:induction false} InsertByLossSorted(x: Bidder, t: seq<Bidder>)
    requires SortedByLoss(t)
    ensures SortedByLoss(InsertByLoss(x, t))
    decreases |t|
  {
    if !(t == [] || t[0].loss <= x.loss) {
      var rec := InsertByLoss(x, t[1..]);
      InsertByLossSorted(x, t[1..]);
      InsertByLossMembers(x, t[1..]);
      forall k | 0 <= k < |rec| ensures t[0].loss >= rec[k].loss {
        assert rec[k] in rec;
        if rec[k] != x {
          var m :| 0 <= m < |t[1..]| && t[1..][m] == rec[k];
          assert t[1 + m] == rec[k];
        }
      }
    }
  }

  lemma {:induction false} InsertByLossDistinct(x: Bidder, t: seq<Bidder>)
    requires DistinctUsers(t) && forall b :: b in t ==> b.userId != x.userId
    ensures DistinctUsers(InsertByLoss(x, t))
    decreases |t|
  {
    if !(t == [] || t[0].loss <= x.loss) {
      var rec := InsertByLoss(x, t[1..]);
      assert forall b :: b in t[1..] ==> b in t;
      assert DistinctUsers(t[1..]) by {
        forall i, j | 0 <= i < j < |t[1..]| ensures t[1..][i].userId != t[1..][j].userId {
          assert t[1..][i] == t[i + 1] && t[1..][j] == t[j + 1];
        }
      }
      InsertByLossDistinct(x, t[1..]);
      InsertByLossMembers(x, t[1..]);
      forall k | 0 <= k < |rec| ensures t[0].userId != rec[k].userId {
        assert rec[k] in rec;
        if rec[k] != x {
          var m :| 0 <= m < |t[1..]| && t[1..][m] == rec[k];
          assert t[1 + m] == rec[k];
        }
      }
    }
  }

  /** When no row of `t` beats `x`, the insertion puts `x` first. */
  lemma InsertByLossFront(x: Bidder, t: seq<Bidder>)
    requires forall b :: b in t ==> b.loss <= x.loss
    ensures InsertByLoss(x, t) == [x] + t
  {
    if t != [] {
      assert t[0] in t;
    }
  }

  /** `[...].sort((a, b) => b.loss - a.loss)`: the engine's sort is stable, so this is an insertion sort
      in which an earlier row stays ahead of a later row with the same loss. */
  function SortByLoss(s: seq<Bidder>): (r: seq<Bidder>)
    ensures |r| == |s|
  {
    if s == [] then [] else InsertByLoss(s[0], SortByLoss(s[1..]))
  }

  /** The rows of `s` whose loss is `v`, in table order. */
  function WithLoss(s: seq<Bidder>, v: int): (r: seq<Bidder>)
    ensures |r| <= |s|
  {
    if s == [] then [] else (if s[0].loss == v then [s[0]] else []) + WithLoss(s[1..], v)
  }

  /** Inserting `x` puts it ahead of every row with the same loss and moves no such row. */
  lemma {:induction false} InsertByLossWithLoss(x: Bidder, t: seq<Bidder>, v: int)
    ensures WithLoss(InsertByLoss(x, t), v) == (if x.loss == v then [x] else []) + WithLoss(t, v)
    decreases |t|
  {
    var hx := if x.loss == v then [x] else [];
    if t == [] || t[0].loss <= x.loss {
      var r := [x] + t;
      assert r[0] == x && r[1..] == t;
      assert WithLoss(r, v) == hx + WithLoss(t, v);
    } else {
      var rest := InsertByLoss(x, t[1..]);
      var r := [t[0]] + rest;
      var h0 := if t[0].loss == v then [t[0]] else [];
      InsertByLossWithLoss(x, t[1..], v);
      assert r[0] == t[0] && r[1..] == rest;
      assert WithLoss(r, v) == h0 + WithLoss(rest, v);
      assert WithLoss(t, v) == h0 + WithLoss(t[1..], v);
      assert WithLoss(rest, v) == hx + WithLoss(t[1..], v);
      if x.loss == v {
        assert h0 == [];
      } else {
        assert hx == [];
      }
    }
  }

  /** The sort is stable: rows with the same loss come out in the order they went in. */
  lemma {:induction false} SortByLossStable(s: seq<Bidder>, v: int)
    ensures WithLoss(SortByLoss(s), v) == WithLoss(s, v)
    decreases |s|
  {
    if s != [] {
      SortByLossStable(s[1..], v);
      InsertByLossWithLoss(s[0], SortByLoss(s[1..]), v);
    }
  }

  /** The sort is a permutation into non-increasing order, and keeps users distinct. */
  lemma {:induction false} SortByLossSpec(s: seq<Bidder>)
    ensures multiset(SortByLoss(s)) == multiset(s)
    ensures SortedByLoss(SortByLoss(s))
    ensures DistinctUsers(s) ==> DistinctUsers(SortByLoss(s))
    decreases |s|
  {
    if s != [] {
      var rest := SortByLoss(s[1..]);
      SortByLossSpec(s[1..]);
      InsertByLossPerm(s[0], rest);
      InsertByLossSorted(s[0], rest);
      assert s == [s[0]] + s[1..];
      if DistinctUsers(s) {
        assert DistinctUsers(s[1..]) by {
          forall i, j | 0 <= i < j < |s[1..]| ensures s[1..][i].userId != s[1..][j].userId {
            assert s[1..][i] == s[i + 1] && s[1..][j] == s[j + 1];
          }
        }
        SameElements(rest, s[1..]);
        forall b | b in rest ensures b.userId != s[0].userId {
          var m :| 0 <= m < |s[1..]| && s[1..][m] == b;
          assert s[1 + m] == b;
        }
        InsertByLossDistinct(s[0], rest);
      }
    }
  }

  /** `.slice(0, 3)`. */
  function TopThree(s: seq<Bidder>): (r: seq<Bidder>)
    ensures |r| <= 3 && r <= s
    ensures |r| == if |s| <= 3 then |s| else 3
  {
    if |s| <= 3 then s else s[..3]
  }

  /** Elements of a permutation are the same elements. */
  lemma SameElements(a: seq<Bidder>, b: seq<Bidder>)
    requires multiset(a) == multiset(b)
    ensures forall x :: x in a <==> x in b
  {
    forall x ensures x in a <==> x in b {
      assert x in a <==> x in multiset(a);
      assert x in b <==> x in multiset(b);
    }
  }

  /** The bid updater's new table: the bidder's row at the new loss and all other users' rows, ranked
      and cut to three. */
  function RankBidders(prev: seq<Bidder>, me: Bidder): (r: seq<Bidder>)
    ensures 0 < |r| <= 3
  {
    TopThree(SortByLoss([me] + WithoutUser(prev, me.userId)))
  }

  /** The rebuilt table keeps as many rows as fit: the new row and every other user's row, up to three. */
  lemma RankBiddersLength(prev: seq<Bidder>, me: Bidder)
    ensures var others := WithoutUser(prev, me.userId);
            |RankBidders(prev, me)| == if |others| < 3 then |others| + 1 else 3
  {
  }

  /** The rebuilt table is sorted, and has no duplicate user when the old one had none. */
  lemma RankBiddersSorted(prev: seq<Bidder>, me: Bidder)
    ensures SortedByLoss(RankBidders(prev, me))
    ensures DistinctUsers(prev) ==> DistinctUsers(RankBidders(prev, me))
  {
    var others := WithoutUser(prev, me.userId);
    WithoutUserKeeps(prev, me.userId);
    WithoutUserMembers(prev, me.userId);
    SortByLossSpec([me] + others);
    if DistinctUsers(prev) {
      assert DistinctUsers([me] + others);
    }
  }

  /** The rebuilt table holds the bidder's single new row and otherwise only other users' old rows. */
  lemma RankBiddersMembers(prev: seq<Bidder>, me: Bidder)
    ensures forall b :: b in RankBidders(prev, me) ==> b == me || (b in prev && b.userId != me.userId)
    ensures forall b :: b in RankBidders(prev, me) && b.userId == me.userId ==> b == me
  {
    var others := WithoutUser(prev, me.userId);
    var sorted := SortByLoss([me] + others);
    WithoutUserMembers(prev, me.userId);
    SortByLossSpec([me] + others);
    SameElements(sorted, [me] + others);
    forall b | b in RankBidders(prev, me) ensures b in sorted {
      var k :| 0 <= k < |RankBidders(prev, me)| && RankBidders(prev, me)[k] == b;
      assert sorted[k] == b;
    }
  }

  /** When no earlier row beats the new loss, the bidder heads the table (the stable sort keeps the
      new row, placed first, ahead of equal losses). */
  lemma RankBiddersLeader(prev: seq<Bidder>, me: Bidder)
    requires forall b :: b in prev ==> b.loss <= me.loss
    ensures RankBidders(prev, me)[0] == me
  {
    var others := WithoutUser(prev, me.userId);
    WithoutUserMembers(prev, me.userId);
    SortByLossSpec(others);
    SameElements(SortByLoss(others), others);
    InsertByLossFront(me, SortByLoss(others));
    assert ([me] + others)[1..] == others;
  }

  /** Top three: another user's row is cut only when three rows are kept, and each of them has at
      least its loss. */
  lemma RankBiddersCut(prev: seq<Bidder>, me: Bidder, b: Bidder)
    requires b in prev && b.userId != me.userId && b !in RankBidders(prev, me)
    ensures |RankBidders(prev, me)| == 3
    ensures forall k :: 0 <= k < |RankBidders(prev, me)| ==> RankBidders(prev, me)[k].loss >= b.loss
  {
    var others := WithoutUser(prev, me.userId);
    var sorted := SortByLoss([me] + others);
    SortByLossSpec([me] + others);
    SameElements(sorted, [me] + others);
    WithoutUserMembers(prev, me.userId);
    assert b in [me] + others;
    var m :| 0 <= m < |sorted| && sorted[m] == b;
    var r := RankBidders(prev, me);
    forall k | 0 <= k < |r| ensures sorted[k] != b {
      assert r[k] == sorted[k] && r[k] in r;
    }
    assert |r| <= m;
  }

  /** The accepted bid's updater: the loss grows by `inc` and the table is rebuilt around the bidder. */
  function BidPlaced(s: AuctionState, id: string, name: string, inc: int): (t: AuctionState)
    ensures t.currentLoss == s.currentLoss + inc
    ensures t.bidders == RankBidders(s.bidders, Bidder(id, name, s.currentLoss + inc))
    ensures t.secondsLeft == s.secondsLeft && t.endTime == s.endTime && t.winner == s.winner
    ensures t.running == s.running && t.finished == s.finished
  {
    var next := s.currentLoss + inc;
    s.(bidders := RankBidders(s.bidders, Bidder(id, name, next)), currentLoss := next)
  }

  /** An accepted bid keeps the table well formed; with a non-negative increment it also keeps every
      row at or below the current loss and puts the bidder first, at exactly the new loss. */
  lemma BidPlacedKeepsTable(s: AuctionState, id: string, name: string, inc: int)
    requires WellFormedTable(s.bidders)
    ensures WellFormedTable(BidPlaced(s, id, name, inc).bidders)
    ensures Leading(s) && inc >= 0 ==>
              var t := BidPlaced(s, id, name, inc);
              Leading(t) && IsTopBidder(t.bidders, id) && t.bidders[0] == Bidder(id, name, t.currentLoss)
  {
    var me := Bidder(id, name, s.currentLoss + inc);
    RankBiddersSorted(s.bidders, me);
    if Leading(s) && inc >= 0 {
      var t := BidPlaced(s, id, name, inc);
      forall b | b in s.bidders ensures b.loss <= me.loss {
        var k :| 0 <= k < |s.bidders| && s.bidders[k] == b;
      }
      RankBiddersLeader(s.bidders, me);
      RankBiddersMembers(s.bidders, me);
      forall k | 0 <= k < |t.bidders| ensures t.bidders[k].loss <= t.currentLoss {
        assert t.bidders[k] in t.bidders;
        if t.bidders[k] != me {
          var m :| 0 <= m < |s.bidders| && s.bidders[m] == t.bidders[k];
        }
      }
    }
  }

  /** A sequence of accepted bids, each with its bidder and its increment. */
  datatype Bid = Bid(id: string, name: string, inc: int)

  /** Applies accepted bids in order. */
  function ApplyBids(s: AuctionState, bids: seq<Bid>): AuctionState
    decreases |bids|
  {
    if bids == [] then s
    else ApplyBids(BidPlaced(s, bids[0].id, bids[0].name, bids[0].inc), bids[1..])
  }

  function SumIncrements(bids: seq<Bid>): int
    decreases |bids|
  {
    if bids == [] then 0 else bids[0].inc + SumIncrements(bids[1..])
  }

  /** Monotonicity over a whole round: accepted bids with non-negative increments only raise
      `currentLoss` (by their sum) and keep the table well formed and within the current loss. */
  lemma {:induction false} ApplyBidsMonotone(s: AuctionState, bids: seq<Bid>)
    requires WellFormedTable(s.bidders) && Leading(s)
    requires forall k :: 0 <= k < |bids| ==> bids[k].inc >= 0
    ensures var t := ApplyBids(s, bids);
            && t.currentLoss == s.currentLoss + SumIncrements(bids)
            && t.currentLoss >= s.currentLoss
            && WellFormedTable(t.bidders) && Leading(t)
    decreases |bids|
  {
    if bids != [] {
      var next := BidPlaced(s, bids[0].id, bids[0].name, bids[0].inc);
      BidPlacedKeepsTable(s, bids[0].id, bids[0].name, bids[0].inc);
      assert forall k :: 0 <= k < |bids[1..]| ==> bids[1..][k].inc >= 0 by {
        forall k | 0 <= k < |bids[1..]| ensures bids[1..][k].inc >= 0 {
          assert bids[1..][k] == bids[k + 1];
        }
      }
      ApplyBidsMonotone(next, bids[1..]);
    }
  }

  // ----- Guards -----

  /** Why `placeBid` refused a bid; the first failing check wins. */
  datatype BidRejection = NoSession | NotJoined | NotEligible | NotRunning | AlreadyTop

  /** The checks of `placeBid` in the order the source makes them. None means the bid is accepted. */
  function BidCheck(hasSession: bool, joined: bool, eligible: bool, running: bool,
                    bidders: seq<Bidder>, activeId: string): (r: Option<BidRejection>)
    ensures r.None? <==> hasSession && joined && eligible && running && !IsTopBidder(bidders, activeId)
    ensures r == Some(NoSession) <==> !hasSession
    ensures r == Some(NotJoined) <==> hasSession && !joined
    ensures r == Some(NotEligible) <==> hasSession && joined && !eligible
    ensures r == Some(NotRunning) <==> hasSession && joined && eligible && !running
    ensures r == Some(AlreadyTop) <==> hasSession && joined && eligible && running && IsTopBidder(bidders, activeId)
  {
    if !hasSession then Some(NoSession)
    else if !joined then Some(NotJoined)
    else if !eligible then Some(NotEligible)
    else if !running then Some(NotRunning)
    else if IsTopBidder(bidders, activeId) then Some(AlreadyTop)
    else None
  }

  /** The identity a bid is placed under: the admin session wins over a user session. */
  function ActiveIdentity(user: Option<UserLite>, admin: Option<AdminUser>): (who: (string, string))
    ensures admin.Some? ==> who == ("ADMIN", "Admin")
    ensures admin.None? && user.Some? ==> who == (user.value.id, user.value.name)
    ensures admin.None? && user.None? ==> who == ("", "")
  {
    if admin.Some? then ("ADMIN", "Admin")
    else if user.Some? then (user.value.id, user.value.name)
    else ("", "")
  }

  /** Single eligibility per round: right after an accepted bid (non-negative increment, table within
      the current loss) the same bidder's next bid is refused as AlreadyTop. */
  lemma RepeatBidRejected(s: AuctionState, id: string, name: string, inc: int, eligible: bool)
    requires WellFormedTable(s.bidders) && Leading(s) && inc >= 0
    ensures var t := BidPlaced(s, id, name, inc);
            BidCheck(true, true, eligible, t.running, t.bidders, id) ==
              if !eligible then Some(NotEligible) else if !t.running then Some(NotRunning) else Some(AlreadyTop)
  {
    BidPlacedKeepsTable(s, id, name, inc);
  }

  // ----- Room code -----

  /** The characters `String.prototype.trim` removes: white space and line terminators. */
  predicate IsJsSpace(c: char) {
    c == ' ' || c == '\t' || c == '\n' || c == '\r' || c == '\U{000B}' || c == '\U{000C}' ||
    c == '\U{00A0}' || c == '\U{1680}' || ('\U{2000}' <= c <= '\U{200A}') ||
    c == '\U{2028}' || c == '\U{2029}' || c == '\U{202F}' || c == '\U{205F}' ||
    c == '\U{3000}' || c == '\U{FEFF}'
  }

  /** The first position at or after `i` that is not white space (or the end). */
  function SkipSpaces(s: string, i: nat): (j: nat)
    requires i <= |s|
    ensures i <= j <= |s|
    ensures forall k :: i <= k < j ==> IsJsSpace(s[k])
    ensures j < |s| ==> !IsJsSpace(s[j])
    decreases |s| - i
  {
    if i < |s| && IsJsSpace(s[i]) then SkipSpaces(s, i + 1) else i
  }

  /** The end of the text in `s[lo..hi]` once trailing white space is dropped. */
  function SkipSpacesBack(s: string, lo: nat, hi: nat): (j: nat)
    requires lo <= hi <= |s|
    ensures lo <= j <= hi
    ensures forall k :: j <= k < hi ==> IsJsSpace(s[k])
    ensures lo < j ==> !IsJsSpace(s[j - 1])
    decreases hi
  {
    if lo < hi && IsJsSpace(s[hi - 1]) then SkipSpacesBack(s, lo, hi - 1) else hi
  }

  /** `s.trim()`: the input without its leading and trailing white space. */
  function Trim(s: string): (r: string)
    ensures |r| <= |s|
    ensures r != [] ==> !IsJsSpace(r[0]) && !IsJsSpace(r[|r| - 1])
  {
    var i := SkipSpaces(s, 0);
    s[i..SkipSpacesBack(s, i, |s|)]
  }

  /** Trim is characterised by where the text starts and ends: any cut of `s` into a white-space
      prefix, a middle that neither starts nor ends with white space, and a white-space suffix, has
      the trimmed string as its middle. */
  lemma TrimCharacterized(s: string, i: nat, j: nat)
    requires i <= j <= |s|
    requires forall k :: 0 <= k < i ==> IsJsSpace(s[k])
    requires forall k :: j <= k < |s| ==> IsJsSpace(s[k])
    requires i < j ==> !IsJsSpace(s[i]) && !IsJsSpace(s[j - 1])
    ensures Trim(s) == s[i..j]
  {
    var a := SkipSpaces(s, 0);
    if i < j {
      assert a == i by {
        if a < i { assert false; }
        if a > i { assert false; }
      }
      var b := SkipSpacesBack(s, a, |s|);
      assert b == j by {
        if b < j { assert false; }
        if b > j { assert false; }
      }
    } else {
      assert a == |s| by {
        if a < |s| { assert false; }
      }
    }
  }

  /** Trimming twice is trimming once. */
  lemma TrimIdempotent(s: string)
    ensures Trim(Trim(s)) == Trim(s)
  {
    var r := Trim(s);
    TrimCharacterized(r, 0, |r|);
    assert r[0..|r|] == r;
  }

  /** Joining succeeds exactly when the trimmed input equals the room code; a joined page stays joined. */
  function JoinedAfter(joined: bool, roomInput: string, roomCode: string): (j: bool)
    ensures j <==> joined || Trim(roomInput) == roomCode
  {
    if Trim(roomInput) == roomCode then true else joined
  }

  /** Padding the code with white space on both sides does not matter. */
  lemma JoinIgnoresSurroundingSpace(code: string, pad: string)
    requires code != [] && !IsJsSpace(code[0]) && !IsJsSpace(code[|code| - 1])
    requires forall k :: 0 <= k < |pad| ==> IsJsSpace(pad[k])
    ensures JoinedAfter(false, pad + code + pad, code)
  {
    var s := pad + code + pad;
    var i, j := |pad|, |pad| + |code|;
    forall k | 0 <= k < i ensures IsJsSpace(s[k]) {
      assert s[k] == pad[k];
    }
    forall k | j <= k < |s| ensures IsJsSpace(s[k]) {
      assert s[k] == pad[k - j];
    }
    assert s[i] == code[0] && s[j - 1] == code[|code| - 1];
    TrimCharacterized(s, i, j);
    assert s[i..j] == code;
  }

  // ----- In-hand figure -----

  /** The amount shown "in hand": the chit value less the leading loss (or less the minimum loss when
      nobody has bid), never below 0. */
  function InHand(chitValue: int, minLoss: int, bidders: seq<Bidder>): (r: int)
    ensures r >= 0
    ensures bidders != [] ==> r >= chitValue - bidders[0].loss && (r == 0 || r == chitValue - bidders[0].loss)
    ensures bidders == [] ==> r >= chitValue - minLoss && (r == 0 || r == chitValue - minLoss)
  {
    if bidders != [] then Max(chitValue - bidders[0].loss, 0) else Max(chitValue - minLoss, 0)
  }

  /** The double-counted commission made visible: the in-hand figure shown during bidding exceeds the
      `monthInHand` that finalization records for the same top row by exactly the commission. */
  lemma InHandExceedsSettledByCommission(config: AuctionConfig, bidders: seq<Bidder>)
    requires bidders != [] && config.minLoss >= 0 && config.minLoss + bidders[0].loss <= config.chitValue
    ensures WinnerOf(bidders, config).Some?
    ensures InHand(config.chitValue, config.minLoss, bidders) - WinnerOf(bidders, config).value.monthInHand == config.minLoss
  {
  }

  /** The worked example of a round: 600000 at 5% commission; A bids 0.5%, B bids 1%; finalization
      makes B the winner with final loss 30000 + 39000 = 69000 and 531000 in hand. */
  lemma WorkedRound()
    ensures var config := AuctionConfig("Nov", 24, 600000, 5, MinLoss(600000, 5), "GK-123456", Some("GK-A1"), Some("Alpha Batch"));
            var s0 := FreshRound(600000, 5).(running := true);
            var s1 := BidPlaced(s0, "A", "A", Increment(600000, 5));
            var s2 := BidPlaced(s1, "B", "B", Increment(600000, 10));
            var f := FinalizedState(s2, config);
            && config.minLoss == 30000 && s0.currentLoss == 30000
            && s1.currentLoss == 33000 && s1.bidders == [Bidder("A", "A", 33000)]
            && s2.currentLoss == 39000 && s2.bidders == [Bidder("B", "B", 39000), Bidder("A", "A", 33000)]
            && f.winner == Some(Winner("B", "B", 39000, 69000, 531000))
  {
    var s0 := FreshRound(600000, 5).(running := true);
    assert s0.currentLoss == 30000;
    var s1 := BidPlaced(s0, "A", "A", Increment(600000, 5));
    assert s1.bidders == [Bidder("A", "A", 33000)];
    var s2 := BidPlaced(s1, "B", "B", Increment(600000, 10));
    assert WithoutUser(s1.bidders, "B") == [Bidder("A", "A", 33000)];
    assert SortByLoss([Bidder("B", "B", 39000), Bidder("A", "A", 33000)]) == [Bidder("B", "B", 39000), Bidder("A", "A", 33000)];
  }
}
