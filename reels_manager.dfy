/** The reel manager: it owns a fixed, ordered collection of reels, starts them
    all, stops them with a staggered cadence, and then checks whether one symbol
    is visible on every reel.

    Calls into a reel (start, stop, query of its active symbols), the timer and
    the joins on pending handles are not executed here: each is recorded, in
    program order, as an `Event` in the ghost `trace`.  The symbols each reel
    shows once it has settled are an input of `StopSpin`. */
module Reels {
  import opened Intersection

  /** Timer units waited between two consecutive reel stop signals. */
  const StopDelay: nat := 250

  /** A reel as the manager creates it; its animation and symbol state are not
      part of this model. */
  datatype Reel = Reel(symbolsPerReel: int, symbolHeight: int)

  /** What the victory check reports: the common symbols, or that there are none. */
  datatype Outcome = Victory(symbols: seq<int>) | NoMatch

  /** A call of the manager into a collaborator. */
  datatype Event =
    | StartReel(reel: nat)
    | StopReel(reel: nat)
    | Wait(units: nat)
    | JoinStops
    | QueryActive(reel: nat)
    | JoinQueries
    | Report(outcome: Outcome)

  /** Start signals to reels 0 .. n-1, in index order. */
  function StartEvents(n: nat): (es: seq<Event>)
    ensures |es| == n
    ensures forall i :: 0 <= i < n ==> es[i] == StartReel(i)
  {
    if n == 0 then [] else StartEvents(n - 1) + [StartReel(n - 1)]
  }

  /** Each reel is started exactly once by `StartEvents`, and nothing else happens. */
  lemma {:induction false} StartEventsStartEachReelOnce(n: nat, r: nat)
    requires r < n
    ensures multiset(StartEvents(n))[StartReel(r)] == 1
    ensures forall e :: e in StartEvents(n) ==> e.StartReel? && e.reel < n
  {
    if r < n - 1 {
      StartEventsStartEachReelOnce(n - 1, r);
    } else {
      StartEventsNeverStart(n - 1, r);
    }
    assert StartEvents(n) == StartEvents(n - 1) + [StartReel(n - 1)];
  }

  lemma StartEventsNeverStart(n: nat, r: nat)
    requires n <= r
    ensures StartReel(r) !in StartEvents(n)
  {
  }

  /** The staggered stop of reels 0, 1 and 2, then the join on their stop handles. */
  const StopProtocol: seq<Event> :=
    [StopReel(0), Wait(StopDelay), StopReel(1), Wait(StopDelay), StopReel(2), JoinStops]

  /** The queries of the victory check, their join, and the report of `o`. */
  function VictoryEvents(o: Outcome): (es: seq<Event>) {
    [QueryActive(0), QueryActive(1), QueryActive(2), JoinQueries, Report(o)]
  }

  /** The decision of the victory check on the reels' active symbols. */
  ghost function Verdict(active: seq<seq<int>>): (o: Outcome)
    ensures o.Victory? <==> |active| > 0 && exists x :: InAll(x, active)
    ensures o.Victory? ==> forall x :: x in o.symbols <==> InAll(x, active)
    ensures o.Victory? ==> |active| > 0 && NoDuplicates(o.symbols)
  {
    var common := CommonElements(active);
    CommonElementsMembers(active);
    if |common| > 0 then
      assert common[0] in common;
      CommonElementsOrder(active);
      Victory(common)
    else
      NoMatch
  }

  class ReelManager {
    const numberOfReels: int
    const symbolsPerReel: int
    const reelWidth: int
    const symbolHeight: int
    /** The reels, in stop order. */
    var reels: seq<Reel>
    /** Whether a spin cycle is in progress. */
    var spinning: bool
    /** Reels whose stop handle the current stop sequence holds. */
    var stopHandles: seq<nat>
    /** Reels whose active-symbol query the victory check holds. */
    var symbolQueries: seq<nat>
    /** Every collaborator call made so far, oldest first. */
    ghost var trace: seq<Event>

    /** Creates the manager and its reels; no spin is in progress. */
    constructor (numberOfReels: int, symbolsPerReel: int, reelWidth: int, symbolHeight: int)
      ensures this.numberOfReels == numberOfReels && this.symbolsPerReel == symbolsPerReel
      ensures this.reelWidth == reelWidth && this.symbolHeight == symbolHeight
      ensures |reels| == (if numberOfReels < 0 then 0 else numberOfReels)
      ensures forall i :: 0 <= i < |reels| ==> reels[i] == Reel(symbolsPerReel, symbolHeight)
      ensures !spinning && stopHandles == [] && symbolQueries == [] && trace == []
    {
      this.numberOfReels := numberOfReels;
      this.symbolsPerReel := symbolsPerReel;
      this.reelWidth := reelWidth;
      this.symbolHeight := symbolHeight;
      reels := [];
      spinning := false;
      stopHandles := [];
      symbolQueries := [];
      trace := [];
      new;
      CreateReels();
    }

    /** Appends one reel per requested reel to `reels`. */
    method CreateReels()
      modifies this`reels
      ensures |reels| == |old(reels)| + (if numberOfReels < 0 then 0 else numberOfReels)
      ensures reels[..|old(reels)|] == old(reels)
      ensures forall i :: |old(reels)| <= i < |reels| ==> reels[i] == Reel(symbolsPerReel, symbolHeight)
    {
      var i := 0;
      while i < numberOfReels
        invariant i == 0 || i <= numberOfReels
        invariant |reels| == |old(reels)| + i
        invariant reels[..|old(reels)|] == old(reels)
        invariant forall k :: |old(reels)| <= k < |reels| ==> reels[k] == Reel(symbolsPerReel, symbolHeight)
      {
        reels := reels + [Reel(symbolsPerReel, symbolHeight)];
        i := i + 1;
      }
    }

    /** Starts a spin cycle: a no-op while one is in progress, otherwise every
        reel is told to start, in index order. */
    method StartSpin()
      modifies this`spinning, this`trace
      ensures spinning
      ensures trace == if old(spinning) then old(trace) else old(trace) + StartEvents(|reels|)
    {
      if spinning {
        return;
      }
      spinning := true;
      var i := 0;
      while i < |reels|
        invariant 0 <= i <= |reels|
        invariant spinning
        invariant trace == old(trace) + StartEvents(i)
      {
        trace := trace + [StartReel(i)];
        i := i + 1;
      }
    }

    /** Ends a spin cycle: a no-op while none is in progress; otherwise stops
        reels 0, 1 and 2 with `StopDelay` between the signals, waits for all three
        to settle, runs the victory check on the symbols `active` they show, and
        only then clears `spinning`. */
    method StopSpin(active: seq<seq<int>>)
      requires |active| == |reels|
      requires spinning ==> 3 <= |reels|
      modifies this`spinning, this`trace, this`stopHandles, this`symbolQueries
      ensures !spinning
      ensures !old(spinning) ==>
        trace == old(trace) && stopHandles == old(stopHandles) && symbolQueries == old(symbolQueries)
      ensures old(spinning) ==>
        && trace == old(trace) + StopProtocol + VictoryEvents(Verdict(active[..3]))
        && stopHandles == [0, 1, 2]
        && symbolQueries == [0, 1, 2]
    {
      if !spinning {
        return;
      }
      stopHandles := [];
      stopHandles := stopHandles + [0];
      trace := trace + [StopReel(0)];
      trace := trace + [Wait(StopDelay)];
      stopHandles := stopHandles + [1];
      trace := trace + [StopReel(1)];
      trace := trace + [Wait(StopDelay)];
      stopHandles := stopHandles + [2];
      trace := trace + [StopReel(2)];
      trace := trace + [JoinStops];
      var _ := CheckVictory(active);
      spinning := false;
    }

    /** Queries reels 0, 1 and 2 for their active symbols, joins the queries and
        reports the symbols common to the three; `spinning` and the reels are
        left alone. */
    method CheckVictory(active: seq<seq<int>>) returns (outcome: Outcome)
      requires 3 <= |reels| && |active| == |reels|
      modifies this`trace, this`symbolQueries
      ensures outcome == Verdict(active[..3])
      ensures symbolQueries == [0, 1, 2]
      ensures trace == old(trace) + VictoryEvents(outcome)
    {
      symbolQueries := [];
      symbolQueries := symbolQueries + [0];
      trace := trace + [QueryActive(0)];
      symbolQueries := symbolQueries + [1];
      trace := trace + [QueryActive(1)];
      symbolQueries := symbolQueries + [2];
      trace := trace + [QueryActive(2)];
      trace := trace + [JoinQueries];
      var activeSymbols := [active[0], active[1], active[2]];
      assert activeSymbols == active[..3];
      var common := FindCommonElements(activeSymbols);
      if |common| > 0 {
        outcome := Victory(common);
      } else {
        outcome := NoMatch;
      }
      trace := trace + [Report(outcome)];
    }

    /** The distinct values of `arrays[0]`, in first-occurrence order, that occur
        in every array; returns as soon as no candidate is left. */
    static method FindCommonElements(arrays: seq<seq<int>>) returns (r: seq<int>)
      ensures r == CommonElements(arrays)
    {
      if |arrays| == 0 {
        return [];
      }
      var common := Distinct(arrays[0]);
      RunningStart(arrays);
      var i := 1;
      while i < |arrays|
        invariant 1 <= i <= |arrays|
        invariant common == Retain(Distinct(arrays[0]), Shared(arrays[..i]))
      {
        var currentSet := set x | x in arrays[i];
        RunningStep(arrays, i);
        common := Distinct(Retain(common, currentSet));
        if |common| == 0 {
          RunningEmptyStaysEmpty(arrays, i + 1);
          return [];
        }
        i := i + 1;
      }
      assert arrays[..i] == arrays;
      return common;
    }
  }
}
