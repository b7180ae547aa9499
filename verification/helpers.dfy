/**
 * Game tuning and the pig-game helpers: the growth window a feeding draws from,
 * the default pig names, and the row a new pig starts as.
 */
module Helpers {
  import opened Wrappers
  import opened Schema

  /** The `game` section of the bot configuration. */
  datatype GameConfig = GameConfig(
    feedDelay: nat,
    baseGrowth: real,
    rankFactor: real,
    weightFactor: real,
    saloDelay: nat,
    maxItems: nat,
    basePillsChance: real,
    basePillsChanceGrow: real)

  /** The values used when no configuration file can be read. */
  const DefaultGame := GameConfig(4, 0.5, 0.5, 0.5, 8, 15, 0.33, 0.75)

  /** The tunables the growth window multiplies by are not negative. */
  predicate NonNegativeTunables(c: GameConfig) {
    c.baseGrowth >= 0.0 && c.rankFactor >= 0.0 && c.weightFactor >= 0.0
  }

  /** Rank 1 is the heaviest pig; rank `total` the lightest. */
  predicate RankedPlayer(rank: int, total: int) {
    1 <= rank <= total
  }

  function RankPercentage(rank: int, total: int): real
    requires total != 0
  {
    rank as real / total as real
  }

  /** The divisor of the gain modifier vanishes only at rank == 2 * total. */
  predicate GrowDefined(rank: int, total: int) {
    total != 0 && RankPercentage(rank, total) != 2.0
  }

  function MaxLoss(score: real, rank: int, total: int, c: GameConfig): real
    requires total != 0
  {
    (c.baseGrowth * score) * (c.rankFactor * (1.0 - RankPercentage(rank, total))) + 15.0
  }

  function MaxGain(score: real, rank: int, total: int, c: GameConfig): real
    requires GrowDefined(rank, total)
  {
    (c.weightFactor * score) * (2.0 * 1.0 * (1.0 / (1.0 - RankPercentage(rank, total) + 1.0))) + 35.0
  }

  /** The (least, greatest) growth of one feeding, in kilograms. */
  function CalculateGrowRange(score: real, rank: int, total: int, c: GameConfig): (int, int)
    requires GrowDefined(rank, total)
  {
    (-MaxLoss(score, rank, total, c).Floor, MaxGain(score, rank, total, c).Floor)
  }

  lemma PercentageInUnit(rank: int, total: int)
    requires RankedPlayer(rank, total)
    ensures GrowDefined(rank, total)
    ensures 0.0 < RankPercentage(rank, total) <= 1.0
  {
    var p := RankPercentage(rank, total);
    assert p * total as real == rank as real;
  }

  lemma ProductNonNegative(a: real, b: real)
    requires a >= 0.0 && b >= 0.0
    ensures a * b >= 0.0
  {
  }

  lemma ReciprocalAntitone(a: real, b: real)
    requires 0.0 < a <= b
    ensures 1.0 / b <= 1.0 / a
  {
    assert (1.0 / b) * b == 1.0;
    assert (1.0 / a) * a == 1.0;
    assert (1.0 / b) * a <= (1.0 / b) * b;
  }

  lemma NonNegativeFactor(a: real, b: real)
    requires a * b >= 0.0 && b > 0.0
    ensures a >= 0.0
  {
  }

  lemma FloorShift(x: real, n: int)
    ensures (x + n as real).Floor == x.Floor + n
  {
    var f := x.Floor;
    assert f as real <= x < f as real + 1.0;
    assert (f + n) as real <= x + n as real < (f + n) as real + 1.0;
  }

  lemma FloorMonotone(a: real, b: real)
    requires a <= b
    ensures a.Floor <= b.Floor
  {
  }

  lemma ScaleMonotone(k: real, a: real, b: real)
    requires k >= 0.0 && a <= b
    ensures k * a <= k * b
  {
  }

  /**
   * For a ranked player with a non-negative score, a feeding may lose at least 15
   * and gain at least 35 kilograms, so the window is never empty.
   */
  lemma GrowRangeBounds(score: real, rank: int, total: int, c: GameConfig)
    requires score >= 0.0 && NonNegativeTunables(c) && RankedPlayer(rank, total)
    ensures GrowDefined(rank, total)
    ensures var (lo, hi) := CalculateGrowRange(score, rank, total, c);
      lo <= -15 && 35 <= hi && lo < hi
  {
    PercentageInUnit(rank, total);
    var p := RankPercentage(rank, total);
    ProductNonNegative(c.baseGrowth, score);
    ProductNonNegative(c.rankFactor, 1.0 - p);
    ProductNonNegative(c.baseGrowth * score, c.rankFactor * (1.0 - p));
    assert MaxLoss(score, rank, total, c) >= 15.0;
    var m := 1.0 / (1.0 - p + 1.0);
    assert m > 0.0;
    ProductNonNegative(c.weightFactor, score);
    ProductNonNegative(c.weightFactor * score, 2.0 * 1.0 * m);
    assert MaxGain(score, rank, total, c) >= 35.0;
  }

  /** The lightest pig loses at most 15 kilograms, and gains up to twice its weighted score plus 35. */
  lemma LastPlaceRange(score: real, total: int, c: GameConfig)
    requires total >= 1
    ensures GrowDefined(total, total)
    ensures CalculateGrowRange(score, total, total, c) == (-15, (2.0 * c.weightFactor * score).Floor + 35)
  {
    PercentageInUnit(total, total);
    assert RankPercentage(total, total) == 1.0;
    assert MaxLoss(score, total, total, c) == 15.0;
    assert MaxGain(score, total, total, c) == 2.0 * c.weightFactor * score + 35.0;
    FloorShift(2.0 * c.weightFactor * score, 35);
  }

  /** The first feeding of a lone pig under the default tuning (score 10) ranges over -15..45. */
  lemma LonePigDefaultRange()
    ensures GrowDefined(1, 1)
    ensures CalculateGrowRange(10.0, 1, 1, DefaultGame) == (-15, 45)
  {
    LastPlaceRange(10.0, 1, DefaultGame);
  }

  lemma LossTermAntitone(score: real, c: GameConfig, p1: real, p2: real)
    requires score >= 0.0 && NonNegativeTunables(c) && p1 <= p2
    ensures (c.baseGrowth * score) * (c.rankFactor * (1.0 - p2))
         <= (c.baseGrowth * score) * (c.rankFactor * (1.0 - p1))
  {
    ProductNonNegative(c.baseGrowth, score);
    ScaleMonotone(c.rankFactor, 1.0 - p2, 1.0 - p1);
    ScaleMonotone(c.baseGrowth * score, c.rankFactor * (1.0 - p2), c.rankFactor * (1.0 - p1));
  }

  lemma GainTermMonotone(score: real, c: GameConfig, p1: real, p2: real)
    requires score >= 0.0 && NonNegativeTunables(c) && p1 <= p2 <= 1.0
    ensures (c.weightFactor * score) * (2.0 * 1.0 * (1.0 / (1.0 - p1 + 1.0)))
         <= (c.weightFactor * score) * (2.0 * 1.0 * (1.0 / (1.0 - p2 + 1.0)))
  {
    ReciprocalAntitone(1.0 - p2 + 1.0, 1.0 - p1 + 1.0);
    ScaleMonotone(2.0 * 1.0, 1.0 / (1.0 - p1 + 1.0), 1.0 / (1.0 - p2 + 1.0));
    ProductNonNegative(c.weightFactor, score);
    ScaleMonotone(c.weightFactor * score, 2.0 * 1.0 * (1.0 / (1.0 - p1 + 1.0)), 2.0 * 1.0 * (1.0 / (1.0 - p2 + 1.0)));
  }

  lemma PercentageMonotone(r1: int, r2: int, total: int)
    requires RankedPlayer(r1, total) && RankedPlayer(r2, total) && r1 <= r2
    ensures RankPercentage(r1, total) <= RankPercentage(r2, total)
  {
    var p1 := RankPercentage(r1, total);
    var p2 := RankPercentage(r2, total);
    assert (p2 - p1) * total as real == (r2 - r1) as real;
    NonNegativeFactor(p2 - p1, total as real);
  }

  lemma MaxLossAntitone(score: real, r1: int, r2: int, total: int, c: GameConfig)
    requires score >= 0.0 && NonNegativeTunables(c)
    requires RankedPlayer(r1, total) && RankedPlayer(r2, total) && r1 <= r2
    ensures MaxLoss(score, r2, total, c) <= MaxLoss(score, r1, total, c)
  {
    PercentageMonotone(r1, r2, total);
    LossTermAntitone(score, c, RankPercentage(r1, total), RankPercentage(r2, total));
  }

  lemma MaxGainMonotone(score: real, r1: int, r2: int, total: int, c: GameConfig)
    requires score >= 0.0 && NonNegativeTunables(c)
    requires RankedPlayer(r1, total) && RankedPlayer(r2, total) && r1 <= r2
    ensures GrowDefined(r1, total) && GrowDefined(r2, total)
    ensures MaxGain(score, r1, total, c) <= MaxGain(score, r2, total, c)
  {
    PercentageInUnit(r1, total);
    PercentageInUnit(r2, total);
    PercentageMonotone(r1, r2, total);
    GainTermMonotone(score, c, RankPercentage(r1, total), RankPercentage(r2, total));
  }

  /**
   * Catch-up: a lower-placed pig (larger rank) risks no more loss and may gain no
   * less than a higher-placed one with the same score.
   */
  lemma CatchUp(score: real, r1: int, r2: int, total: int, c: GameConfig)
    requires score >= 0.0 && NonNegativeTunables(c)
    requires RankedPlayer(r1, total) && RankedPlayer(r2, total) && r1 <= r2
    ensures GrowDefined(r1, total) && GrowDefined(r2, total)
    ensures CalculateGrowRange(score, r1, total, c).0 <= CalculateGrowRange(score, r2, total, c).0
    ensures CalculateGrowRange(score, r1, total, c).1 <= CalculateGrowRange(score, r2, total, c).1
  {
    MaxLossAntitone(score, r1, r2, total, c);
    MaxGainMonotone(score, r1, r2, total, c);
    FloorMonotone(MaxLoss(score, r2, total, c), MaxLoss(score, r1, total, c));
    FloorMonotone(MaxGain(score, r1, total, c), MaxGain(score, r2, total, c));
  }

  const DefaultNames: seq<string> := [
    "Хрякоблядь",
    "Свинопидор",
    "Ебаный Кабан",
    "Бекон ебучий",
    "Хрюкало Сраное",
    "Матьегохряк",
    "Пиздохрюк",
    "Свинья в говне",
    "Блядобекон",
    "Хрякотрах"
  ]

  /** The name at a uniformly drawn index of the ten defaults; the draw is a parameter. */
  function DefaultPigName(index: nat): (name: string)
    requires index < |DefaultNames|
    ensures name in DefaultNames && |name| > 0
  {
    DefaultNames[index]
  }

  /** The row `create_new_pig` inserts: a pig of weight 0 with every counter at zero. */
  function NewPig(chat: int, user: int, owner: string, name: string): (p: Pig)
    ensures IsNewborn(p, 0)
    ensures p.chatId == chat && p.userId == user && p.ownerName == owner && p.name == name
  {
    Pig(0, chat, user, 0, name, 0.0, 0.0, owner, 0, false, 0, 0, 0, 0.0, 0, None, 0, 0, 0, 0, 0, 0)
  }
}
