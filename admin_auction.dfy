/** The admin auction page (src/pages/admin/AdminAuction.tsx): a configuration form, the reset and
    start/stop controls, and the editable settlement figures sent to the ledgers once a round is
    finished. */
module AdminAuction {
  import opened Wrappers
  import opened Types
  import opened AuctionRules
  import opened Settlement
  import opened TimerDigits
  import opened GlobalContext

  /** The editable settlement figures. */
  datatype Results = Results(finalLoss: int, dividend: int, monthlyPayment: int)

  /** `Math.floor(a / b)`: the quotient rounded toward minus infinity, for a divisor of either sign. */
  function FloorDiv(a: int, b: int): (q: int)
    requires b != 0
    ensures b > 0 ==> q * b <= a < q * b + b
    ensures b < 0 ==> q * b + b < a <= q * b
  {
    if b > 0 then a / b else (-a) / (-b)
  }

  /** The default figures for a finished round's final loss: the dividend is the final loss spread
      over the term, rounded down, and the monthly payment is the per-month share of the chit value
      less that dividend. A zero term yields no figures. */
  function DefaultResults(finalLoss: int, term: int, chitValue: int): (r: Option<Results>)
    ensures r.Some? <==> term != 0
    ensures r.Some? ==> r.value.finalLoss == finalLoss
    ensures r.Some? && term > 0 ==> r.value.dividend * term <= finalLoss < r.value.dividend * term + term
    ensures r.Some? && term < 0 ==> r.value.dividend * term + term < finalLoss <= r.value.dividend * term
    ensures r.Some? && term > 0 ==> var share := r.value.monthlyPayment + r.value.dividend;
                                    share * term <= chitValue < share * term + term
    ensures r.Some? && term < 0 ==> var share := r.value.monthlyPayment + r.value.dividend;
                                    share * term + term < chitValue <= share * term
  {
    if term == 0 then None
    else
      var dividend := FloorDiv(finalLoss, term);
      Some(Results(finalLoss, dividend, FloorDiv(chitValue, term) - dividend))
  }

  /** The "Min Loss (Calc)" figure the settings form shows for its unsaved values. */
  function ShownMinLoss(form: AuctionConfig): (m: int)
    ensures m * 100 <= form.chitValue * form.commissionRate < m * 100 + 100
  {
    MinLoss(form.chitValue, form.commissionRate)
  }

  /** `toggleTimer`'s updater. */
  function Toggled(s: AuctionState): (t: AuctionState)
    ensures t.running == !s.running
    ensures t.(running := s.running) == s
  {
    s.(running := !s.running)
  }

  /** Stopping and restarting the round restores it exactly, deadline included, so the timer effect
      does not set a new deadline for a round that already had one; a finished round is never armed. */
  lemma ToggleRoundTrip(s: AuctionState)
    ensures Toggled(Toggled(s)) == s
    ensures HasEndTime(s) ==> HasEndTime(Toggled(s)) && Toggled(s).endTime == s.endTime
    ensures s.finished ==> !TimerArmed(Toggled(s))
  {
  }

  /** The state a reset installs for the form's figures: a fresh round. */
  lemma ResetIsFreshRound(chitValue: int, commissionRate: int)
    ensures var f := FreshRound(chitValue, commissionRate);
            && DerivedCurrentLoss(f, chitValue, commissionRate) == f.currentLoss
            && f.currentLoss == MinLoss(chitValue, commissionRate)
            && !TimerArmed(f) && f.winner.None? && f.bidders == []
  {
  }

  /** The status banner's clock, `Math.floor(s / 60) + ":" + String(s % 60).padStart(2, '0')`: the
      minutes are not padded. */
  function AdminClock(seconds: int): string {
    IntToString(seconds / 60) + ":" + SecondsText(seconds)
  }

  /** The banner's clock agrees with the room's timer from ten minutes up and lacks only its leading
      zero below that. */
  lemma AdminClockAgreesWithTimer(seconds: int)
    requires 0 <= seconds < 6000
    ensures seconds >= 600 ==> AdminClock(seconds) == TimerText(seconds)
    ensures seconds < 600 ==> "0" + AdminClock(seconds) == TimerText(seconds)
  {
    var m := seconds / 60;
    var digits := NatToString(m);
    var padded := PadStart(digits, 2, '0');
    var ss := SecondsText(seconds);
    assert IntToString(m) == digits;
    assert AdminClock(seconds) == digits + ":" + ss;
    assert TimerText(seconds) == padded + ":" + ss;
    if m >= 10 {
      assert padded == digits;
    } else {
      assert padded == Repeat('0', 1) + digits;
      assert Repeat('0', 1) == "0";
      Regroup("0", digits + ":", ss);
      Regroup("0", digits, ":");
    }
  }

  lemma Regroup(a: string, b: string, c: string)
    ensures a + (b + c) == (a + b) + c
  {
  }

  /** `batches.find(b => b.id === id)?.name || ''`. */
  function BatchName(batches: seq<ChitBatch>, id: string): (name: string)
    ensures (forall i :: 0 <= i < |batches| ==> batches[i].id != id) ==> name == ""
    ensures forall i :: 0 <= i < |batches| && batches[i].id == id && (forall j :: 0 <= j < i ==> batches[j].id != id)
                        ==> name == batches[i].name
  {
    if batches == [] then ""
    else if batches[0].id == id then batches[0].name
    else BatchName(batches[1..], id)
  }

  class AdminAuctionPage {
    const store: Store
    var formData: AuctionConfig
    var isDirty: bool
    var editableResults: Results

    constructor (s: Store)
      ensures store == s && formData == s.config && !isDirty && editableResults == Results(0, 0, 0)
    {
      store := s;
      formData, isDirty, editableResults := s.config, false, Results(0, 0, 0);
    }

    /** `handleChange(key, value)`: any edit of the form's fields. */
    method EditForm(c: AuctionConfig)
      modifies this`formData, this`isDirty
      ensures formData == c && isDirty
    {
      formData, isDirty := c, true;
    }

    /** Choosing a batch in the form: its id and the name of the first batch with that id. */
    method SelectBatch(id: string)
      modifies this`formData, this`isDirty
      ensures formData == old(formData).(activeBatchId := Some(id), activeBatchName := Some(BatchName(store.batches, id)))
      ensures isDirty
    {
      var name := BatchName(store.batches, id);
      formData := formData.(activeBatchId := Some(id), activeBatchName := Some(name));
      isDirty := true;
    }

    /** Typing into one of the settlement figures. */
    method EditResults(r: Results)
      modifies this`editableResults
      ensures editableResults == r
    {
      editableResults := r;
    }

    /** `handleSave`: the form becomes the configuration (with the minimum-loss effect), and the form
        is refreshed from it. */
    method HandleSave()
      modifies this`formData, this`isDirty, store`config, store`state
      ensures var c := old(formData);
              var changed := c.chitValue != old(store.config).chitValue || c.commissionRate != old(store.config).commissionRate;
              && store.config == (if changed then c.(minLoss := MinLoss(c.chitValue, c.commissionRate)) else c)
              && store.state == (if changed then old(store.state).(currentLoss := DerivedCurrentLoss(old(store.state), c.chitValue, c.commissionRate))
                                 else old(store.state))
      ensures formData == store.config && !isDirty
    {
      store.SetAuctionConfig(formData);
      isDirty := false;
      formData := store.config;
    }

    /** `handleResetAuction`: after confirmation, the form becomes the configuration and the round is
        replaced by a fresh one for the form's figures. The minimum-loss effect runs after both
        updates and leaves the fresh round as it is. */
    method HandleResetAuction(confirmed: bool)
      modifies this`formData, store`config, store`state
      ensures !confirmed ==> store.config == old(store.config) && store.state == old(store.state) && formData == old(formData)
      ensures confirmed ==> var c := old(formData);
              && store.state == FreshRound(c.chitValue, c.commissionRate)
              && store.config.(minLoss := c.minLoss) == c
              && store.config.minLoss == (if c.chitValue != old(store.config).chitValue || c.commissionRate != old(store.config).commissionRate
                                          then MinLoss(c.chitValue, c.commissionRate) else c.minLoss)
              && formData == store.config
    {
      if !confirmed {
        return;
      }
      var round := FreshRound(formData.chitValue, formData.commissionRate);
      store.SetAuctionState(round);
      store.SetAuctionConfig(formData);
      formData := store.config;
    }

    /** `toggleTimer`. */
    method ToggleTimer()
      modifies store`state
      ensures store.state == Toggled(old(store.state))
    {
      store.SetAuctionState(Toggled(store.state));
    }

    /** The default-results effect: once the round is finished with a winner, the figures are reset
        to the defaults for the winner's final loss and the form's term and chit value. */
    method RefreshDefaultResults()
      modifies this`editableResults
      ensures var s := store.state;
              var d := if s.winner.Some? then DefaultResults(s.winner.value.finalLoss, formData.term, formData.chitValue) else None;
              editableResults == if s.finished && d.Some? then d.value else old(editableResults)
    {
      if store.state.finished && store.state.winner.Some? {
        var d := DefaultResults(store.state.winner.value.finalLoss, formData.term, formData.chitValue);
        if d.Some? {
          editableResults := d.value;
        }
      }
    }

    /** The figures and identities "Send to Users" passes to the settlement. */
    function SyncRequest(): SyncInput
      reads this, store
    {
      var winnerId := if store.state.winner.Some? then Some(store.state.winner.value.userId) else None;
      SyncInput(editableResults.finalLoss, editableResults.dividend, editableResults.monthlyPayment,
                winnerId, formData.runningMonth)
    }

    /** "Send to Users": offered only for a finished round; after confirmation it settles the form's
        batch with the edited figures and the recorded winner. */
    method SendToUsers(confirmed: bool)
      modifies store`finances, store`state
      ensures var go := confirmed && old(store.state).finished;
              var req := SyncInput(editableResults.finalLoss, editableResults.dividend, editableResults.monthlyPayment,
                                   if old(store.state).winner.Some? then Some(old(store.state).winner.value.userId) else None,
                                   formData.runningMonth);
              && (go ==> store.finances == SettledStore(old(store.finances), BatchKey(formData), req)
                         && store.state == FreshRound(store.config.chitValue, store.config.commissionRate))
              && (!go ==> store.finances == old(store.finances) && store.state == old(store.state))
    {
      if !store.state.finished || !confirmed {
        return;
      }
      store.SyncAuctionResults(BatchKey(formData), SyncRequest());
    }
  }
}
