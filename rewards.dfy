/** The reward tier classifier: a pure map from a credit balance to one of
    five ranks and the fixed message that goes with it (main.py:82-92). */
module Rewards {

  datatype Rank = Newbie | Bronze | Silver | Gold | Champion

  /** The `{rank, message}` pair the classifier returns. */
  datatype Reward = Reward(rank: Rank, message: string)

  /** Lower bounds of Bronze, Silver, Gold and Champion, in ascending order. */
  const Thresholds: seq<int> := [50, 100, 147, 200]

  /** The ranks from the lowest band to the highest. */
  const Ladder: seq<Rank> := [Newbie, Bronze, Silver, Gold, Champion]

  /** Position of a rank on the ladder. */
  function Level(r: Rank): (n: nat)
    ensures n < |Ladder| && Ladder[n] == r
  {
    match r
    case Newbie => 0
    case Bronze => 1
    case Silver => 2
    case Gold => 3
    case Champion => 4
  }

  /** The message shown with each rank (treated as an opaque constant per tier). */
  function MessageOf(r: Rank): (s: string)
  {
    match r
    case Newbie => "You have guts"
    case Bronze => "You can do it!"
    case Silver => "You have potential, one more and you can make it!"
    case Gold => "You are built to develop!"
    case Champion => "You made it!"
  }

  /** Reference definition of a tier: the number of thresholds in `ts` that
      `credit` has reached. */
  function Reached(ts: seq<int>, credit: int): (n: nat)
    ensures n <= |ts|
  {
    if ts == [] then 0
    else (if ts[0] <= credit then 1 else 0) + Reached(ts[1..], credit)
  }

  /** The band of rank `r`: at least the threshold below it (if any) and
      strictly below the threshold above it (if any). */
  predicate InBand(r: Rank, credit: int)
  {
    var i := Level(r);
    (i == 0 || Thresholds[i - 1] <= credit) && (i == |Thresholds| || credit < Thresholds[i])
  }

  lemma ReachedThresholds(credit: int)
    ensures Reached(Thresholds, credit) ==
      if credit < 50 then 0
      else if credit < 100 then 1
      else if credit < 147 then 2
      else if credit < 200 then 3
      else 4
  {
    var ts := Thresholds;
    assert ts[1..] == [100, 147, 200] && ts[1..][1..] == [147, 200];
    assert ts[1..][1..][1..] == [200] && ts[1..][1..][1..][1..] == [];
    assert Reached([200], credit) == if credit < 200 then 0 else 1;
    assert Reached([147, 200], credit) == (if credit < 147 then 0 else 1) + Reached([200], credit);
    assert Reached([100, 147, 200], credit) == (if credit < 100 then 0 else 1) + Reached([147, 200], credit);
  }

  /** get_reward_tier: the if/elif chain of the source. The rank it picks is
      the rung of the ladder given by the number of thresholds reached. */
  function GetRewardTier(credit: int): (r: Reward)
    ensures r.rank == Ladder[Reached(Thresholds, credit)]
    ensures r.message == MessageOf(r.rank)
  {
    ReachedThresholds(credit);
    if credit < 50 then Reward(Newbie, MessageOf(Newbie))
    else if credit < 100 then Reward(Bronze, MessageOf(Bronze))
    else if credit < 147 then Reward(Silver, MessageOf(Silver))
    else if credit < 200 then Reward(Gold, MessageOf(Gold))
    else Reward(Champion, MessageOf(Champion))
  }

  /** The classifier picks rank `r` exactly when `credit` lies in the band of `r`. */
  lemma TierIsBand(credit: int, r: Rank)
    ensures GetRewardTier(credit).rank == r <==> InBand(r, credit)
  {
  }

  /** The five bands partition the integers: every credit lies in exactly one. */
  lemma BandsPartition(credit: int)
    ensures InBand(GetRewardTier(credit).rank, credit)
    ensures forall r :: InBand(r, credit) ==> r == GetRewardTier(credit).rank
  {
  }

  lemma {:induction false} ReachedMonotone(ts: seq<int>, c1: int, c2: int)
    requires c1 <= c2
    ensures Reached(ts, c1) <= Reached(ts, c2)
  {
    if ts != [] {
      ReachedMonotone(ts[1..], c1, c2);
    }
  }

  /** A larger credit never yields a lower rank. */
  lemma TierMonotone(c1: int, c2: int)
    requires c1 <= c2
    ensures Level(GetRewardTier(c1).rank) <= Level(GetRewardTier(c2).rank)
  {
    ReachedMonotone(Thresholds, c1, c2);
  }

  /** Every band is at least two credits wide, so a change of one credit moves
      the rank by at most one rung. */
  lemma TierStepsByAtMostOne(c1: int, c2: int)
    requires c1 - 1 <= c2 <= c1 + 1
    ensures Level(GetRewardTier(c2).rank) - 1 <= Level(GetRewardTier(c1).rank) <= Level(GetRewardTier(c2).rank) + 1
  {
  }

  /** The boundary credits of the table of tiers. */
  lemma Boundaries()
    ensures GetRewardTier(49).rank == Newbie && GetRewardTier(50).rank == Bronze
    ensures GetRewardTier(99).rank == Bronze && GetRewardTier(100).rank == Silver
    ensures GetRewardTier(146).rank == Silver && GetRewardTier(147).rank == Gold
    ensures GetRewardTier(199).rank == Gold && GetRewardTier(200).rank == Champion
  {
  }
}
