/** ootle/epoch.go: settling a transaction's mandatory max_epoch. */
module Epochs {
  import opened Prelude
  import opened Fetching

  const DEFAULT_VALIDITY_EPOCHS: nat := 10

  /** What the transport can say about the current epoch. */
  datatype EpochSource = NoEpochs | Epochs(current: Result<uint64, string>)

  datatype Window = Window(minEpoch: uint64, maxEpoch: uint64)

  /** A window the network can sequence a transaction in. */
  predicate Sequenceable(w: Window) {
    w.maxEpoch != 0 && w.minEpoch <= w.maxEpoch
  }

  function CheckWindowIsNonEmpty(maxEpoch: uint64, minEpoch: uint64): (r: Option<Failure>)
    ensures maxEpoch != 0 ==> (r.None? <==> Sequenceable(Window(minEpoch, maxEpoch)))
    ensures r.Some? ==> r.value == Validation
  {
    if minEpoch == 0 || maxEpoch >= minEpoch then None else Some(Validation)
  }

  /**
   * A pin is taken as given unless its window is empty; an unset one is settled ten epochs past the
   * later of the current and the minimum epoch, saturating at the largest uint64.
   */
  function SettleMaxEpoch(maxEpoch: uint64, minEpoch: uint64, source: EpochSource): (r: Result<uint64, Failure>)
    ensures r.Ok? ==> Sequenceable(Window(minEpoch, r.value))
    ensures maxEpoch != 0 ==> r == if minEpoch <= maxEpoch then Ok(maxEpoch) else Err(Validation)
    ensures maxEpoch == 0 && source.Epochs? && source.current.Ok? ==>
              var latest := if source.current.value > minEpoch then source.current.value else minEpoch;
              r == Ok(if latest + 10 < 0xFFFF_FFFF_FFFF_FFFF then latest + 10 else 0xFFFF_FFFF_FFFF_FFFF)
    ensures maxEpoch == 0 && source.Epochs? && source.current.Err? ==> r == Err(Transport(source.current.error))
    ensures maxEpoch == 0 && source.NoEpochs? ==> r == Err(Validation)
  {
    if maxEpoch != 0 then
      match CheckWindowIsNonEmpty(maxEpoch, minEpoch)
      case Some(failure) => Err(failure)
      case None => Ok(maxEpoch)
    else
      match source
      case NoEpochs => Err(Validation)
      case Epochs(Err(why)) => Err(Transport(why))
      case Epochs(Ok(current)) =>
        var base := if minEpoch > current then minEpoch else current;
        if base > MAX_U64 - DEFAULT_VALIDITY_EPOCHS then Ok(MAX_U64) else Ok(base + DEFAULT_VALIDITY_EPOCHS)
  }

  function DerefEpoch(p: Option<uint64>): (epoch: uint64)
    ensures p.Some? ==> p == Some(epoch)
    ensures p.None? ==> epoch == 0
  {
    if p.Some? then p.value else 0
  }
}
