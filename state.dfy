/** The bot's shared state dictionary and the JSON file it is saved to.

    The source keeps one dictionary, loaded from the state file at start-up,
    that both the tick handlers and the trailing-stop engine update in place.
    Each key may be missing, so every field is an `Option`. */
module State {
  import opened Common

  /** The value of the state dictionary at one moment (what `save_state`
      writes and `load_state` reads back). */
  datatype Snapshot = Snapshot(
    buyPrice: Option<real>,
    positionQty: Option<int>,
    firstTargetHit: Option<bool>,
    slOrderId: Option<string>,
    slTrigger: Option<real>,
    modCount: Option<int>,
    lastSlUpdateTime: Option<real>
  )

  /** The empty dictionary `{}`. */
  const EmptySnapshot := Snapshot(None, None, None, None, None, None, None)

  /** `load_state`: a missing or unreadable file (None) loads as `{}`. */
  function LoadState(file: Option<Snapshot>): (s: Snapshot)
    ensures file.None? ==> s == EmptySnapshot
    ensures file.Some? ==> s == file.value
  {
    match file
    case Some(saved) => saved
    case None => EmptySnapshot
  }

  class BotState {
    var buyPrice: Option<real>
    var positionQty: Option<int>
    var firstTargetHit: Option<bool>
    var slOrderId: Option<string>
    var slTrigger: Option<real>
    var modCount: Option<int>
    var lastSlUpdateTime: Option<real>

    function Snap(): Snapshot
      reads this
    {
      Snapshot(buyPrice, positionQty, firstTargetHit, slOrderId, slTrigger, modCount, lastSlUpdateTime)
    }

    /** The module-level `state = load_state(STATE_FILE)`. */
    constructor Load(file: Option<Snapshot>)
      ensures Snap() == LoadState(file)
    {
      var s := LoadState(file);
      buyPrice, positionQty, firstTargetHit := s.buyPrice, s.positionQty, s.firstTargetHit;
      slOrderId, slTrigger, modCount, lastSlUpdateTime := s.slOrderId, s.slTrigger, s.modCount, s.lastSlUpdateTime;
    }
  }

  /** The state file; every `save_state` call rewrites it with a snapshot of
      the whole dictionary. `writes` lists those snapshots in order, the last
      one being the file's content. */
  class StateFile {
    ghost var writes: seq<Snapshot>

    constructor ()
      ensures writes == []
    {
      writes := [];
    }

    method Save(s: BotState)
      modifies this
      ensures writes == old(writes) + [s.Snap()]
    {
      writes := writes + [s.Snap()];
    }
  }
}
