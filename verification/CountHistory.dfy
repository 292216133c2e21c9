// What a log of the counter says happened, read without looking at the state.
module CountHistory {
  import opened Prelude
  import opened Geometry
  import opened CountModel

  // Where a track was last recorded since its memory was created.
  ghost function LastSeen(log: seq<Entry>, id: int): Option<Point> {
    if log == [] then None
    else
      match log[|log| - 1]
      case Detected(i, c) => if i == id then Some(c) else LastSeen(log[..|log| - 1], id)
      case Placed(i, c) => if i == id then Some(c) else LastSeen(log[..|log| - 1], id)
      case Forgotten(i) => if i == id then None else LastSeen(log[..|log| - 1], id)
      case _ => LastSeen(log[..|log| - 1], id)
  }

  // The track, or one it inherited its token from directly or through others,
  // was detected across the gate in the allowed direction from the center
  // recorded just before.
  ghost predicate Evidenced(gate: Gate, log: seq<Entry>, id: int) {
    log != []
    && var before := log[..|log| - 1];
    match log[|log| - 1]
    case Detected(i, c) =>
      Evidenced(gate, before, id)
      || (i == id && LastSeen(before, id).Some? && CrossedAllowed(LastSeen(before, id).value, c, gate))
    case Inherited(child, parent) =>
      Evidenced(gate, before, id) || (child == id && Evidenced(gate, before, parent))
    case Forgotten(i) => i != id && Evidenced(gate, before, id)
    case _ => Evidenced(gate, before, id)
  }

  // How many updates ago the track was last detected, within one memory.
  ghost function UpdatesSinceDetected(log: seq<Entry>, id: int): Option<nat> {
    if log == [] then None
    else
      var before := UpdatesSinceDetected(log[..|log| - 1], id);
      match log[|log| - 1]
      case Tick => if before.Some? then Some(before.value + 1) else None
      case Detected(i, c) => if i == id then Some(0) else before
      case Forgotten(i) => if i == id then None else before
      case _ => before
  }

  // The tokens that authorized counts name.
  ghost function SpentTokens(log: seq<Entry>): set<nat> {
    if log == [] then {}
    else
      var before := SpentTokens(log[..|log| - 1]);
      match log[|log| - 1]
      case Emitted(e, _) =>
        if e.authority.SourceTokenAuthorized? && e.tokenId.Some? then before + {e.tokenId.value} else before
      case _ => before
  }

  ghost function CountedChains(log: seq<Entry>): set<string> {
    if log == [] then {}
    else
      var before := CountedChains(log[..|log| - 1]);
      match log[|log| - 1]
      case Emitted(e, _) => if e.chainId.Some? then before + {e.chainId.value} else before
      case _ => before
  }

  ghost function CountedTracks(log: seq<Entry>): set<int> {
    if log == [] then {}
    else
      var before := CountedTracks(log[..|log| - 1]);
      match log[|log| - 1]
      case Emitted(e, _) => before + {e.trackId}
      case _ => before
  }

  ghost function Ticks(log: seq<Entry>): nat {
    if log == [] then 0
    else Ticks(log[..|log| - 1]) + if log[|log| - 1].Tick? then 1 else 0
  }

  function SumOfCounts(events: seq<Event>): int {
    if events == [] then 0 else SumOfCounts(events[..|events| - 1]) + events[|events| - 1].count
  }

  function WithAuthority(events: seq<Event>, a: Authority): seq<Event> {
    if events == [] then []
    else
      var before := WithAuthority(events[..|events| - 1], a);
      if events[|events| - 1].authority == a then before + [events[|events| - 1]] else before
  }

  // How long a track must be missing before a disappearance counts.
  function Patience(cfg: Config): nat {
    if cfg.disappearFrames >= 1 then cfg.disappearFrames else 1
  }

  // Everything the counter promises about one count, given the log before it.
  ghost predicate Justified(cfg: Config, before: seq<Entry>, e: Event, age: int) {
    && e.count == 1
    && (e.authority.SourceTokenAuthorized? ==> e.tokenId.Some? && e.tokenId.value !in SpentTokens(before))
    && (e.authority.RuntimeInferredOnly? ==> e.reason.ApprovedDeliveryChain?)
    && (e.reason.ApprovedDeliveryChain? <==> e.chainId.Some?)
    && (e.chainId.Some? ==> e.chainId.value !in CountedChains(before))
    && (!e.reason.ApprovedDeliveryChain? && cfg.gate.Some? ==> Evidenced(cfg.gate.value, before, e.trackId))
    && (e.reason.StableInOutput? ==> age == 0 && UpdatesSinceDetected(before, e.trackId) == Some(0))
    && (e.reason.DisappearedInOutput? ==>
          0 <= age <= Patience(cfg) && UpdatesSinceDetected(before, e.trackId) == Some(Patience(cfg)))
  }

  ghost predicate AllJustified(cfg: Config, log: seq<Entry>) {
    log == []
    || (AllJustified(cfg, log[..|log| - 1])
        && match log[|log| - 1]
           case Emitted(e, age) => Justified(cfg, log[..|log| - 1], e, age)
           case _ => true)
  }

  // ----- reading a log with one more entry -----

  lemma OneMore(log: seq<Entry>, e: Entry)
    ensures (log + [e])[..|log + [e]| - 1] == log
    ensures (log + [e])[|log + [e]| - 1] == e
  {
  }

  lemma {:induction false} CountedChainNamed(log: seq<Entry>, i: nat)
    requires i < |log| && log[i].Emitted? && log[i].event.chainId.Some?
    ensures log[i].event.chainId.value in CountedChains(log)
  {
    if i < |log| - 1 {
      CountedChainNamed(log[..|log| - 1], i);
    }
  }

  lemma {:induction false} SpentTokenNamed(log: seq<Entry>, i: nat)
    requires i < |log| && log[i].Emitted?
    requires log[i].event.authority.SourceTokenAuthorized? && log[i].event.tokenId.Some?
    ensures log[i].event.tokenId.value in SpentTokens(log)
  {
    if i < |log| - 1 {
      SpentTokenNamed(log[..|log| - 1], i);
    }
  }

  // Justified holds at each count, not only at the newest.
  lemma {:induction false} JustifiedAt(cfg: Config, log: seq<Entry>, i: nat)
    requires AllJustified(cfg, log)
    requires i < |log| && log[i].Emitted?
    ensures Justified(cfg, log[..i], log[i].event, log[i].age)
  {
    if i < |log| - 1 {
      JustifiedAt(cfg, log[..|log| - 1], i);
      assert log[..|log| - 1][..i] == log[..i];
    }
  }
}
