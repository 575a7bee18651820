/** Concrete reel outcomes of the common-symbol specification, and call
    sequences of the reel manager whose effect follows from its method contracts. */
module Scenarios {
  import opened Intersection
  import opened Reels

  /** Reels showing [1,2,3], [2,3,4] and [2,5,6] have exactly symbol 2 in common. */
  lemma CommonOfOverlappingReels()
    ensures CommonElements([[1, 2, 3], [2, 3, 4], [2, 5, 6]]) == [2]
  {
    var arrays := [[1, 2, 3], [2, 3, 4], [2, 5, 6]];
    assert Distinct([1, 2, 3]) == [1, 2, 3] by {
      assert [1, 2, 3][..2] == [1, 2] && [1, 2][..1] == [1] && [1][..0] == [];
    }
    assert forall x :: InAll(x, arrays) <==> x == 2 by {
      forall x ensures InAll(x, arrays) ==> x == 2 {
        assert x in arrays[0] && x in arrays[1] && x in arrays[2] ==> x == 2;
      }
    }
    assert Shared(arrays) == {2};
    assert Retain([1, 2, 3], {2}) == [2] by {
      assert [1, 2, 3][1..] == [2, 3] && [2, 3][1..] == [3] && [3][1..] == [];
    }
  }

  /** Reels showing [1,2], [3,4] and [5,6] have nothing in common. */
  lemma CommonOfDisjointReels()
    ensures CommonElements([[1, 2], [3, 4], [5, 6]]) == []
  {
    NothingSharedByThreeReels([[1, 2], [3, 4], [5, 6]]);
  }

  lemma NothingSharedByThreeReels(arrays: seq<seq<int>>)
    requires |arrays| == 3
    requires forall x :: !(x in arrays[0] && x in arrays[1] && x in arrays[2])
    ensures CommonElements(arrays) == []
  {
    assert forall x :: InAll(x, arrays) ==> x in arrays[0] && x in arrays[1] && x in arrays[2];
    assert Shared(arrays) == {};
    RetainNothing(Distinct(arrays[0]));
  }

  /** A symbol repeated on one reel is reported once: [7,7,8], [7,9], [7] give [7]. */
  lemma CommonOfRepeatedSymbol()
    ensures CommonElements([[7, 7, 8], [7, 9], [7]]) == [7]
  {
    var arrays := [[7, 7, 8], [7, 9], [7]];
    assert Distinct([7, 7, 8]) == [7, 8] by {
      assert [7, 7, 8][..2] == [7, 7] && [7, 7][..1] == [7] && [7][..0] == [];
    }
    assert forall x :: InAll(x, arrays) <==> x == 7 by {
      forall x ensures InAll(x, arrays) ==> x == 7 {
        assert x in arrays[2] ==> x == 7;
      }
    }
    assert Shared(arrays) == {7};
    assert Retain([7, 8], {7}) == [7] by {
      assert [7, 8][1..] == [8] && [8][1..] == [];
    }
  }

  /** Starting twice without a stop in between starts every reel once. */
  method StartSpinTwice(m: ReelManager)
    requires !m.spinning
    modifies m
    ensures m.spinning
    ensures m.trace == old(m.trace) + StartEvents(|m.reels|)
  {
    m.StartSpin();
    m.StartSpin();
  }

  /** A full cycle from idle: every reel starts, reels 0..2 stop in the staggered
      order, the victory check reports, and the manager is idle again, so the
      next `StartSpin` is accepted. */
  method SpinCycle(m: ReelManager, active: seq<seq<int>>)
    requires !m.spinning
    requires 3 <= |m.reels| && |active| == |m.reels|
    modifies m
    ensures !m.spinning && m.reels == old(m.reels)
    ensures m.trace == old(m.trace) + StartEvents(|m.reels|) + StopProtocol
                       + VictoryEvents(Verdict(active[..3]))
  {
    m.StartSpin();
    m.StopSpin(active);
  }
}
