/** The custody contract between Fence and Publisher as one small ledger. */
module Custody {
  import opened Common
  import opened FenceEntry

  datatype Handoff = Handoff(operationId: string, fenceReservationId: string, announced: bool, fenceActive: bool,
                             publisherReservationId: Option<string>)

  datatype ReservationSnapshot = ReservationSnapshot(fenceCount: int, publisherCount: int)

  function Opened(op: string, fenceReservationId: string): Handoff {
    Handoff(op, fenceReservationId, false, true, None)
  }

  function Announced(h: Handoff): Result<Handoff> {
    if !h.fenceActive || h.announced then Raised else Ok(h.(announced := true))
  }

  function Reserved(h: Handoff, reservationId: string): Result<Handoff> {
    if !h.announced || !h.fenceActive || h.publisherReservationId.Some? || reservationId == "" then Raised
    else Ok(h.(publisherReservationId := Some(reservationId)))
  }

  function Accepted(h: Handoff, receipt: CustodyReceipt): Result<Handoff> {
    if h.publisherReservationId.None? then Raised
    else if receipt != CustodyReceipt(h.operationId, h.fenceReservationId, h.publisherReservationId.value) then Raised
    else Ok(h.(fenceActive := false))
  }

  /** One transition of the contract. */
  ghost predicate Transition(before: Handoff, after: Handoff) {
    || Announced(before) == Ok(after)
    || (exists id :: Reserved(before, id) == Ok(after))
    || (exists receipt :: Accepted(before, receipt) == Ok(after))
  }

  /** What every reachable handoff satisfies: no gap in custody, and no release before a reservation. */
  predicate HandoffInv(h: Handoff) {
    && (h.publisherReservationId.Some? ==> h.announced)
    && (!h.fenceActive ==> h.publisherReservationId.Some?)
  }

  lemma TransitionKeepsInv(before: Handoff, after: Handoff)
    requires HandoffInv(before) && Transition(before, after)
    ensures HandoffInv(after)
    ensures after.operationId == before.operationId && after.fenceReservationId == before.fenceReservationId
  {
  }

  /** A later receipt can neither reactivate Fence nor change the Publisher's reservation. */
  lemma ReleaseIsFinal(before: Handoff, after: Handoff)
    requires HandoffInv(before) && !before.fenceActive && Transition(before, after)
    ensures after == before
  {
  }

  class CustodyLedger {
    const operationId: string
    const fenceReservationId: string
    var announced: bool
    var fenceActive: bool
    var publisherReservationId: Option<string>

    function Value(): Handoff
      reads this
    {
      Handoff(operationId, fenceReservationId, announced, fenceActive, publisherReservationId)
    }

    constructor (operationId: string, fenceReservationId: string)
      ensures Value() == Opened(operationId, fenceReservationId) && HandoffInv(Value())
    {
      this.operationId, this.fenceReservationId := operationId, fenceReservationId;
      announced, fenceActive, publisherReservationId := false, true, None;
    }

    method AnnounceTerminal() returns (r: Result<()>)
      requires HandoffInv(Value())
      modifies this
      ensures HandoffInv(Value())
      ensures if r.Ok? then Announced(old(Value())) == Ok(Value())
              else Announced(old(Value())).Raised? && Value() == old(Value())
    {
      if !fenceActive || announced {
        return Raised;
      }
      announced := true;
      return Ok(());
    }

    method ReservePublisher(reservationId: string) returns (r: Result<()>)
      requires HandoffInv(Value())
      modifies this
      ensures HandoffInv(Value())
      ensures if r.Ok? then Reserved(old(Value()), reservationId) == Ok(Value())
              else Reserved(old(Value()), reservationId).Raised? && Value() == old(Value())
    {
      if !announced || !fenceActive || publisherReservationId.Some? || reservationId == "" {
        return Raised;
      }
      publisherReservationId := Some(reservationId);
      return Ok(());
    }

    method AcceptReceipt(receipt: CustodyReceipt) returns (r: Result<()>)
      requires HandoffInv(Value())
      modifies this
      ensures HandoffInv(Value())
      ensures if r.Ok? then Accepted(old(Value()), receipt) == Ok(Value())
              else Accepted(old(Value()), receipt).Raised? && Value() == old(Value())
    {
      if publisherReservationId.None? {
        return Raised;
      }
      if receipt.operationId != operationId || receipt.fenceReservationId != fenceReservationId
         || receipt.publisherReservationId != publisherReservationId.value {
        return Raised;
      }
      fenceActive := false;
      return Ok(());
    }

    /** At every moment at least one side counts the acquisition. */
    method Snapshot() returns (s: ReservationSnapshot)
      requires HandoffInv(Value())
      ensures s.fenceCount + s.publisherCount >= 1
      ensures s.fenceCount == 0 ==> s.publisherCount == 1
      ensures (s.fenceCount == 1 <==> fenceActive) && (s.publisherCount == 1 <==> publisherReservationId.Some?)
      ensures s.fenceCount in {0, 1} && s.publisherCount in {0, 1}
    {
      s := ReservationSnapshot(if fenceActive then 1 else 0, if publisherReservationId.Some? then 1 else 0);
    }
  }
}
