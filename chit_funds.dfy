/** The live-auction page (src/pages/services/ChitFunds.tsx): its own state cells (the typed room
    code, whether this page has joined, the current notice) and the two handlers that change them
    and the shared auction state. */
module ChitFunds {
  import opened Wrappers
  import opened Types
  import opened AuctionRules
  import opened BidTable
  import opened TimerDigits
  import opened GlobalContext

  /** The message line of the page. */
  datatype Notice = JoinedRoom | InvalidRoomCode | Refused(reason: BidRejection)

  class ChitFundsPage {
    const store: Store
    var roomInput: string
    var joined: bool
    var err: Option<Notice>

    constructor (s: Store)
      ensures store == s && roomInput == "" && !joined && err.None?
    {
      store := s;
      roomInput, joined, err := "", false, None;
    }

    /** The verdict of `placeBid`'s checks against the current sessions, ledger and round. */
    function Verdict(): Option<BidRejection>
      reads this, store
    {
      var who := ActiveIdentity(store.user, store.adminUser);
      BidCheck(store.user.Some? || store.adminUser.Some?, joined,
               store.CanBidNow(who.0, BatchKey(store.config)),
               store.state.running, store.state.bidders, who.0)
    }

    /** The in-hand figure shown under the bidder table. */
    function InHandShown(): int
      reads store
    {
      InHand(store.config.chitValue, store.config.minLoss, store.state.bidders)
    }

    /** The remaining time shown on the page. */
    function ClockShown(): string
      reads store
    {
      TimerText(store.state.secondsLeft)
    }

    /** Typing into the room-code field. */
    method EditRoomInput(s: string)
      modifies this`roomInput
      ensures roomInput == s
    {
      roomInput := s;
    }

    /** `tryJoin()`: join when the trimmed input is the room code; report either way. */
    method TryJoin()
      modifies this`joined, this`err
      ensures joined == JoinedAfter(old(joined), roomInput, store.config.roomCode)
      ensures err == Some(if Trim(roomInput) == store.config.roomCode then JoinedRoom else InvalidRoomCode)
    {
      if Trim(roomInput) == store.config.roomCode {
        joined := true;
        err := Some(JoinedRoom);
      } else {
        err := Some(InvalidRoomCode);
      }
    }

    /** The four-second timeout of `showErr` clearing the notice. */
    method NoticeExpired()
      modifies this`err
      ensures err.None?
    {
      err := None;
    }

    /** `placeBid(percentage)` with the percentage in tenths of a percent. A refused bid leaves the
        round unchanged and, except when nobody is signed in, shows why; an accepted one applies the
        bidder-table update with the fixed increment. */
    method PlaceBid(tenths: int)
      modifies this`err, store`state
      ensures var who := ActiveIdentity(store.user, store.adminUser);
              old(Verdict()).None? ==>
                store.state == BidPlaced(old(store.state), who.0, who.1, Increment(store.config.chitValue, tenths))
                && err == old(err)
      ensures old(Verdict()) == Some(NoSession) ==> store.state == old(store.state) && err == old(err)
      ensures old(Verdict()).Some? && old(Verdict()) != Some(NoSession) ==>
                store.state == old(store.state) && err == Some(Refused(old(Verdict()).value))
    {
      if store.user.None? && store.adminUser.None? {
        return;
      }
      var who := ActiveIdentity(store.user, store.adminUser);
      var activeId, activeName := who.0, who.1;
      if !joined {
        err := Some(Refused(NotJoined));
        return;
      }
      if !store.CanBidNow(activeId, BatchKey(store.config)) {
        err := Some(Refused(NotEligible));
        return;
      }
      if !store.state.running {
        err := Some(Refused(NotRunning));
        return;
      }
      if IsTopBidder(store.state.bidders, activeId) {
        err := Some(Refused(AlreadyTop));
        return;
      }
      var inc := Increment(store.config.chitValue, tenths);
      store.SetAuctionState(BidPlaced(store.state, activeId, activeName, inc));
    }
  }
}
