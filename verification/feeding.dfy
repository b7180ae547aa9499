/**
 * `feed_pig`: stamp the feeding time, read the chat size and the pig's rank, draw a
 * growth from the window those give, floor the new weight at 1 and save the pig.
 */
module Feeding {
  import opened Wrappers
  import opened Text
  import opened Schema
  import opened Table
  import opened Helpers
  import opened Db
  import opened Messages

  /** The first `n` store calls from `s` all succeed. */
  predicate Healthy(s: Store, n: nat) {
    forall i | 0 <= i < n && i < |s.faults| :: !s.faults[i]
  }

  /** `pig` is the stored row for its key, in a well-formed store, under usable tuning. */
  predicate Feedable(s: Store, pig: Pig, cfg: GameConfig) {
    WellFormed(s) && Lookup(s.pigs, pig.chatId, pig.userId) == Some(pig) && NonNegativeTunables(cfg)
  }

  function Max(a: int, b: int): int {
    if a >= b then a else b
  }

  /**
   * The growth drawn from [lo, hi]: `lo` when the window is one value wide,
   * otherwise `lo` plus the random 32-bit draw `roll` modulo the window's width.
   */
  function SampleGrowth(lo: int, hi: int, roll: nat): (g: int)
    requires lo <= hi
    ensures lo <= g <= hi
  {
    if lo == hi then lo else lo + roll % (hi - lo + 1)
  }

  /** Every growth in the window is drawn by some roll. */
  lemma SampleReachesEvery(lo: int, hi: int, g: int)
    requires lo <= g <= hi
    ensures SampleGrowth(lo, hi, g - lo) == g
  {
  }

  /** The growth window for the stored pig: its rank among its chat's pigs. */
  function Window(s: Store, pig: Pig, cfg: GameConfig): (w: (int, int))
    requires Feedable(s, pig, cfg)
    ensures w.0 <= -15 && 35 <= w.1
  {
    StandingOf(s, pig, cfg);
    GrowRangeBounds(pig.weight as real, RankOf(s.pigs, pig.chatId, pig.userId).value, CountChat(s.pigs, pig.chatId), cfg);
    CalculateGrowRange(pig.weight as real, RankOf(s.pigs, pig.chatId, pig.userId).value, CountChat(s.pigs, pig.chatId), cfg)
  }

  /** A stored pig has a rank between 1 and its chat's pig count, and a weight of at least 0. */
  lemma StandingOf(s: Store, pig: Pig, cfg: GameConfig)
    requires Feedable(s, pig, cfg)
    ensures RankOf(s.pigs, pig.chatId, pig.userId).Some?
    ensures RankedPlayer(RankOf(s.pigs, pig.chatId, pig.userId).value, CountChat(s.pigs, pig.chatId))
    ensures pig.weight >= 0
  {
    assert pig in s.pigs;
  }

  /** The growth drawn for a pig of weight `weight` at `position` among `total` pigs. */
  function DrawGrowth(weight: int, position: int, total: int, cfg: GameConfig, roll: nat): (g: int)
    requires weight >= 0 && RankedPlayer(position, total) && NonNegativeTunables(cfg)
    ensures GrowDefined(position, total)
    ensures CalculateGrowRange(weight as real, position, total, cfg).0 <= g <= CalculateGrowRange(weight as real, position, total, cfg).1
  {
    GrowRangeBounds(weight as real, position, total, cfg);
    var (lo, hi) := CalculateGrowRange(weight as real, position, total, cfg);
    SampleGrowth(lo, hi, roll)
  }

  /** The pig as the caller holds it afterwards, the store, and what `feed_pig` returned. */
  datatype FeedOutcome = FeedOutcome(store: Store, pig: Pig, result: Result<Note, DbError>)

  /** Adds the growth `g` to the weight, floored at 1, saves the pig and reports it. */
  function SaveGrowth(s: Store, fed: Pig, g: int): FeedOutcome {
    var grown := fed.(weight := Max(fed.weight + g, 1));
    var (t, saved) := UpdatePigOp(s, grown);
    if saved.Err? then FeedOutcome(t, grown, Err(saved.error))
    else FeedOutcome(t, grown, Ok(FeedReport(grown.name, g, grown.weight)))
  }

  function FeedOp(s: Store, pig: Pig, cfg: GameConfig, now: real, roll: nat): FeedOutcome
    requires Feedable(s, pig, cfg)
  {
    var fed := pig.(lastFeed := now);
    var (s1, total) := TotalPlayersOp(s, pig.chatId);
    if total.Err? then FeedOutcome(s1, fed, Err(total.error))
    else
      var (s2, rank) := RankOp(s1, pig.chatId, pig.userId);
      if rank.Err? then FeedOutcome(s2, fed, Err(rank.error))
      else
        StandingOf(s, pig, cfg);
        SaveGrowth(s2, fed, DrawGrowth(pig.weight, rank.value.GetOr(1), total.value, cfg, roll))
  }

  /** The drawn growth, when the store answered both reads. */
  lemma FeedDraws(s: Store, pig: Pig, cfg: GameConfig, now: real, roll: nat)
    requires Feedable(s, pig, cfg)
    ensures var o := FeedOp(s, pig, cfg, now, roll);
            var s2 := Tick(Tick(s));
            (!Fails(s) && !Fails(Tick(s))) ==>
              o == SaveGrowth(s2, pig.(lastFeed := now), SampleGrowth(Window(s, pig, cfg).0, Window(s, pig, cfg).1, roll))
    ensures var o := FeedOp(s, pig, cfg, now, roll);
            (Fails(s) || Fails(Tick(s))) ==>
              o.result == Err(Unavailable) && o.pig == pig.(lastFeed := now) && o.store.pigs == s.pigs
              && o.store.loot == s.loot && o.store.nextPigId == s.nextPigId && o.store.nextLootId == s.nextLootId
  {
    StandingOf(s, pig, cfg);
  }

  lemma FeedDrawsOk(s: Store, pig: Pig, cfg: GameConfig, now: real, roll: nat)
    requires Feedable(s, pig, cfg) && !Fails(s) && !Fails(Tick(s))
    ensures var (lo, hi) := Window(s, pig, cfg);
            FeedOp(s, pig, cfg, now, roll) == SaveGrowth(Tick(Tick(s)), pig.(lastFeed := now), SampleGrowth(lo, hi, roll))
  {
    FeedDraws(s, pig, cfg, now, roll);
  }

  lemma FeedFailsEarly(s: Store, pig: Pig, cfg: GameConfig, now: real, roll: nat)
    requires Feedable(s, pig, cfg) && (Fails(s) || Fails(Tick(s)))
    ensures FeedOp(s, pig, cfg, now, roll).result.Err?
  {
    FeedDraws(s, pig, cfg, now, roll);
  }

  /** What saving a grown pig does, for a pig stored under its key. */
  lemma SaveGrowthEffect(s: Store, fed: Pig, g: int)
    requires WellFormed(s) && Lookup(s.pigs, fed.chatId, fed.userId).Some?
    requires Lookup(s.pigs, fed.chatId, fed.userId).value.id == fed.id
    ensures var o := SaveGrowth(s, fed, g);
            && o.pig == fed.(weight := Max(fed.weight + g, 1))
            && |o.store.pigs| == |s.pigs| && o.store.loot == s.loot
            && o.store.nextPigId == s.nextPigId && o.store.nextLootId == s.nextLootId
            && (forall j | 0 <= j < |s.pigs| && !HasKey(s.pigs[j], fed.chatId, fed.userId) :: o.store.pigs[j] == s.pigs[j])
            && SameKeys(s.pigs, o.store.pigs)
            && WellFormed(o.store)
            && (o.result.Ok? ==>
                  o.result.value == FeedReport(fed.name, g, o.pig.weight)
                  && Lookup(o.store.pigs, fed.chatId, fed.userId) == Some(o.pig))
            && (o.result.Err? ==> o.result.error == Unavailable && o.store.pigs == s.pigs)
            && (!Fails(s) <==> o.result.Ok?)
  {
    var grown := fed.(weight := Max(fed.weight + g, 1));
    UpdateOverwrites(s, grown);
    UpdateKeepsWellFormed(s, grown);
  }

  /** Feeding changes the pig's weight and feeding time and nothing else about it. */
  lemma FeedTouchesWeightAndClock(s: Store, pig: Pig, cfg: GameConfig, now: real, roll: nat)
    requires Feedable(s, pig, cfg)
    ensures var o := FeedOp(s, pig, cfg, now, roll);
            o.pig == pig.(weight := o.pig.weight, lastFeed := now)
  {
    FeedDraws(s, pig, cfg, now, roll);
  }

  /**
   * A successful feeding adds the drawn growth g (lo <= g <= hi) to the weight,
   * flooring it at 1, stores exactly that pig, and reports g and the new weight.
   */
  lemma FeedWeight(s: Store, pig: Pig, cfg: GameConfig, now: real, roll: nat)
    requires Feedable(s, pig, cfg)
    ensures var o := FeedOp(s, pig, cfg, now, roll);
            var (lo, hi) := Window(s, pig, cfg);
            var g := SampleGrowth(lo, hi, roll);
            o.result.Ok? ==>
              && 1 <= o.pig.weight
              && Max(pig.weight + lo, 1) <= o.pig.weight <= Max(pig.weight + hi, 1)
              && o.pig.weight == Max(pig.weight + g, 1)
              && Lookup(o.store.pigs, pig.chatId, pig.userId) == Some(o.pig)
              && o.result.value == FeedReport(pig.name, g, o.pig.weight)
  {
    if Fails(s) || Fails(Tick(s)) {
      FeedFailsEarly(s, pig, cfg, now, roll);
    } else {
      FeedDrawsOk(s, pig, cfg, now, roll);
      var (lo, hi) := Window(s, pig, cfg);
      SavedGrowth(Tick(Tick(s)), pig, now, lo, SampleGrowth(lo, hi, roll), hi);
    }
  }

  /** `SaveGrowth` with a growth drawn from [lo, hi], in the terms of `FeedWeight`. */
  lemma SavedGrowth(s: Store, pig: Pig, now: real, lo: int, g: int, hi: int)
    requires WellFormed(s) && Lookup(s.pigs, pig.chatId, pig.userId) == Some(pig)
    requires lo <= g <= hi
    ensures var o := SaveGrowth(s, pig.(lastFeed := now), g);
            o.result.Ok? ==>
              && 1 <= o.pig.weight
              && Max(pig.weight + lo, 1) <= o.pig.weight <= Max(pig.weight + hi, 1)
              && o.pig.weight == Max(pig.weight + g, 1)
              && Lookup(o.store.pigs, pig.chatId, pig.userId) == Some(o.pig)
              && o.result.value == FeedReport(pig.name, g, o.pig.weight)
  {
    SaveGrowthEffect(s, pig.(lastFeed := now), g);
  }

  /** A feeding fails only when the database does, and then no table changes. */
  lemma FeedFailure(s: Store, pig: Pig, cfg: GameConfig, now: real, roll: nat)
    requires Feedable(s, pig, cfg)
    ensures var o := FeedOp(s, pig, cfg, now, roll);
            o.result.Err? ==> o.result.error == Unavailable && o.store.pigs == s.pigs && o.store.loot == s.loot
  {
    FeedDraws(s, pig, cfg, now, roll);
    if !Fails(s) && !Fails(Tick(s)) {
      var (lo, hi) := Window(s, pig, cfg);
      SaveGrowthEffect(Tick(Tick(s)), pig.(lastFeed := now), SampleGrowth(lo, hi, roll));
    }
  }

  lemma HealthyTick(s: Store, n: nat)
    requires Healthy(s, n + 1)
    ensures !Fails(s) && Healthy(Tick(s), n)
  {
    if |s.faults| > 0 {
      forall i | 0 <= i < n && i < |Tick(s).faults| ensures !Tick(s).faults[i] {
        assert Tick(s).faults[i] == s.faults[i + 1];
      }
    }
  }

  /** With the next three calls healthy, feeding succeeds. */
  lemma FeedSucceeds(s: Store, pig: Pig, cfg: GameConfig, now: real, roll: nat)
    requires Feedable(s, pig, cfg) && Healthy(s, 3)
    ensures FeedOp(s, pig, cfg, now, roll).result.Ok?
  {
    HealthyTick(s, 2);
    HealthyTick(Tick(s), 1);
    HealthyTick(Tick(Tick(s)), 0);
    FeedDraws(s, pig, cfg, now, roll);
    var (lo, hi) := Window(s, pig, cfg);
    SaveGrowthEffect(Tick(Tick(s)), pig.(lastFeed := now), SampleGrowth(lo, hi, roll));
  }

  /** Feeding rewrites only the pig's own row: every other row, the row count and the loot stay. */
  lemma FeedKeepsOthers(s: Store, pig: Pig, cfg: GameConfig, now: real, roll: nat)
    requires Feedable(s, pig, cfg)
    ensures var o := FeedOp(s, pig, cfg, now, roll);
            && |o.store.pigs| == |s.pigs| && o.store.loot == s.loot
            && o.store.nextPigId == s.nextPigId && o.store.nextLootId == s.nextLootId
            && (forall j | 0 <= j < |s.pigs| && !HasKey(s.pigs[j], pig.chatId, pig.userId) :: o.store.pigs[j] == s.pigs[j])
            && SameKeys(s.pigs, o.store.pigs)
            && WellFormed(o.store)
  {
    FeedDraws(s, pig, cfg, now, roll);
    if !Fails(s) && !Fails(Tick(s)) {
      var (lo, hi) := Window(s, pig, cfg);
      SaveGrowthEffect(Tick(Tick(s)), pig.(lastFeed := now), SampleGrowth(lo, hi, roll));
    }
  }

  /** The last step of `feed_pig`: grow the held pig by `g` and save it. */
  method SaveGrowthTo(db: Database, fed: Pig, g: int) returns (grown: Pig, r: Result<Note, DbError>)
    requires db.Valid()
    modifies db
    ensures FeedOutcome(db.State(), grown, r) == SaveGrowth(old(db.State()), fed, g)
    ensures db.Valid()
  {
    grown := fed.(weight := Max(fed.weight + g, 1));
    var saved := db.UpdatePig(grown);
    if saved.Err? {
      return grown, Err(saved.error);
    }
    r := Ok(FeedReport(grown.name, g, grown.weight));
  }

  /** `feed_pig` against the live database. */
  method FeedPig(db: Database, pig: Pig, cfg: GameConfig, now: real, roll: nat) returns (fed: Pig, r: Result<Note, DbError>)
    requires db.Valid() && Feedable(db.State(), pig, cfg)
    modifies db
    ensures FeedOutcome(db.State(), fed, r) == FeedOp(old(db.State()), pig, cfg, now, roll)
    ensures db.Valid()
  {
    ghost var s := db.State();
    fed := pig.(lastFeed := now);
    var total := db.GetChatTotalPlayers(pig.chatId);
    if total.Err? {
      return fed, Err(total.error);
    }
    var rank := db.GetPigRank(pig.chatId, pig.userId);
    if rank.Err? {
      return fed, Err(rank.error);
    }
    StandingOf(s, pig, cfg);
    var g := DrawGrowth(pig.weight, rank.value.GetOr(1), total.value, cfg, roll);
    fed, r := SaveGrowthTo(db, fed, g);
  }
}
