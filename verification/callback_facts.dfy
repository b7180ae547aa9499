/** What the inline buttons promise. */
module CallbackFacts {
  import opened Wrappers
  import opened Text
  import opened Schema
  import opened Table
  import opened Helpers
  import opened Messages
  import opened Transport
  import opened Keyboards
  import opened Feeding
  import opened Commands
  import opened CommandFacts
  import opened Callbacks

  // ---------------------------------------------------------------- keyboards and their data

  /** Data made of `tag` and an argument starts with `tag`, not with a tag of another first letter. */
  lemma TaggedData(tag: string, arg: string, other: string)
    requires 0 < |tag| && 0 < |other| && tag[0] != other[0]
    ensures StartsWith(tag + arg, tag) && (tag + arg)[|tag|..] == arg
    ensures !StartsWith(tag + arg, other)
  {
    assert (tag + arg)[..|tag|] == tag;
    if |other| <= |tag + arg| {
      assert (tag + arg)[..|other|][0] == tag[0];
    }
  }

  /** The buttons of a pig card ask for exactly what they were made for. */
  lemma PigKeyboardRoundTrip(user: int, commandMessage: int)
    requires I64Min <= user <= I64Max && I32Min <= commandMessage <= I32Max
    ensures Classify(PigKeyboard(user, commandMessage)[0][0].data) == GrowButton(user)
    ensures Classify(PigKeyboard(user, commandMessage)[1][0].data) == RemoveButton(Some(commandMessage))
  {
    TaggedData("grow:", FormatInt(user), "back:");
    ParseFormat(user, I64Min, I64Max);
    TaggedData("remove:", FormatInt(commandMessage), "grow:");
    ParseFormat(commandMessage, I32Min, I32Max);
  }

  /** The button under a feeding result asks to go back to that user's card. */
  lemma GrowKeyboardRoundTrip(user: int)
    requires I64Min <= user <= I64Max
    ensures Classify(GrowKeyboard(user)[0][0].data) == BackButton(user)
  {
    TaggedData("back:", FormatInt(user), "grow:");
    TaggedData("back:", FormatInt(user), "remove:");
    ParseFormat(user, I64Min, I64Max);
  }

  // ---------------------------------------------------------------- the owner check and the final answer

  /** The press is a grow or back button made for somebody else. */
  predicate Gated(q: CallbackQuery) {
    q.data.Some? && q.message.Some? &&
    match Classify(q.data.value)
    case GrowButton(owner) => owner != q.from
    case BackButton(owner) => owner != q.from
    case _ => false
  }

  /**
   * Somebody else's grow or back button changes nothing and only tells the
   * presser off; there is no final answer on that path.
   */
  lemma OwnerCheck(s: Store, q: CallbackQuery, cfg: GameConfig, now: real, roll: nat,
                   botStatus: Result<MemberStatus, TransportError>)
    requires WellFormed(s) && NonNegativeTunables(cfg) && Gated(q)
    ensures var (t, e) := CallbackOp(s, q, cfg, now, roll, botStatus);
            t == s && (e == [Answer(q.id, Some(NotYourGrow))] || e == [Answer(q.id, Some(NotYourPig))])
  {
  }

  /** Every press ends with a plain answer to the query exactly when it passed the owner check. */
  lemma AnsweredUnlessGated(s: Store, q: CallbackQuery, cfg: GameConfig, now: real, roll: nat,
                            botStatus: Result<MemberStatus, TransportError>)
    requires WellFormed(s) && NonNegativeTunables(cfg)
    ensures var e := CallbackOp(s, q, cfg, now, roll, botStatus).1;
            |e| >= 1 && (e[|e| - 1] == Answer(q.id, None) <==> !Gated(q))
  {
  }

  // ---------------------------------------------------------------- what each button changes

  /** The owner's grow button runs `GrowButtonOp` and then answers the query. */
  lemma PressGrow(s: Store, q: CallbackQuery, cfg: GameConfig, now: real, roll: nat,
                  botStatus: Result<MemberStatus, TransportError>)
    requires WellFormed(s) && NonNegativeTunables(cfg)
    requires q.data.Some? && q.message.Some? && Classify(q.data.value) == GrowButton(q.from)
    ensures var g := GrowButtonOp(s, q.id, q.message.value.chatId, q.message.value.messageId, q.from, cfg, now, roll);
            CallbackOp(s, q, cfg, now, roll, botStatus) == (g.0, g.1 + [Answer(q.id, None)])
  {
  }

  /** The owner's back button runs `BackButtonOp` and then answers the query. */
  lemma PressBack(s: Store, q: CallbackQuery, cfg: GameConfig, now: real, roll: nat,
                  botStatus: Result<MemberStatus, TransportError>)
    requires WellFormed(s) && NonNegativeTunables(cfg)
    requires q.data.Some? && q.message.Some? && Classify(q.data.value) == BackButton(q.from)
    ensures var b := BackButtonOp(s, q.id, q.message.value.chatId, q.message.value.messageId, q.from);
            CallbackOp(s, q, cfg, now, roll, botStatus) == (b.0, b.1 + [Answer(q.id, None)])
  {
  }

  /** Past the owner check, the grow button touches only the presser's row. */
  lemma GrowButtonOwnRow(s: Store, query: string, chat: int, message: int, user: int, cfg: GameConfig,
                         now: real, roll: nat)
    requires WellFormed(s) && NonNegativeTunables(cfg)
    ensures var t := GrowButtonOp(s, query, chat, message, user, cfg, now, roll).0;
            OwnRowOnly(s, t, chat, user) && WellFormed(t)
  {
    var got := Lookup(s.pigs, chat, user);
    if !Fails(s) && got.Some? {
      var o := FeedOp(Tick(s), got.value, cfg, now, roll);
      assert GrowButtonOp(s, query, chat, message, user, cfg, now, roll).0 == o.store;
      FeedKeepsOthers(Tick(s), got.value, cfg, now, roll);
    }
  }

  /** Past the owner check, the back button changes no table. */
  lemma BackButtonReadOnly(s: Store, query: string, chat: int, message: int, user: int)
    ensures SameTables(s, BackButtonOp(s, query, chat, message, user).0)
  {
  }

  /**
   * A button press changes at most the presser's own pig, and only the grow
   * button changes anything at all.
   */
  lemma ButtonTouchesOnlyOwnRow(s: Store, q: CallbackQuery, cfg: GameConfig, now: real, roll: nat,
                                botStatus: Result<MemberStatus, TransportError>)
    requires WellFormed(s) && NonNegativeTunables(cfg)
    ensures var t := CallbackOp(s, q, cfg, now, roll, botStatus).0;
            && WellFormed(t)
            && (q.message.Some? ==> OwnRowOnly(s, t, q.message.value.chatId, q.from))
            && (q.data.None? || !Classify(q.data.value).GrowButton? ==> SameTables(s, t))
  {
    if q.data.Some? && q.message.Some? {
      var chat, message := q.message.value.chatId, q.message.value.messageId;
      if Classify(q.data.value) == GrowButton(q.from) {
        PressGrow(s, q, cfg, now, roll, botStatus);
        GrowButtonOwnRow(s, q.id, chat, message, q.from, cfg, now, roll);
      } else if Classify(q.data.value) == BackButton(q.from) {
        PressBack(s, q, cfg, now, roll, botStatus);
        BackButtonReadOnly(s, q.id, chat, message, q.from);
      }
    }
  }

  /**
   * The remove button deletes the card it sits under, then the command message
   * too exactly when the bot may delete messages and the data names one.
   */
  lemma RemoveButtonDeletes(s: Store, q: CallbackQuery, cfg: GameConfig, now: real, roll: nat,
                            botStatus: Result<MemberStatus, TransportError>)
    requires WellFormed(s) && NonNegativeTunables(cfg)
    requires q.data.Some? && q.message.Some? && Classify(q.data.value).RemoveButton?
    ensures var (t, e) := CallbackOp(s, q, cfg, now, roll, botStatus);
            var chat, target := q.message.value.chatId, Classify(q.data.value).target;
            && t == s
            && e[0] == Delete(chat, q.message.value.messageId)
            && (|e| == 3 <==> CanDelete(botStatus) && target.Some?)
            && (|e| == 3 ==> e[1] == Delete(chat, target.value))
            && e[|e| - 1] == Answer(q.id, None)
  {
  }

  /** With the store answering, the grow button feeds the stored pig once and reports in place. */
  lemma GrowButtonReport(s: Store, query: string, message: int, cfg: GameConfig, now: real, roll: nat, pig: Pig)
    requires Feedable(s, pig, cfg) && Healthy(s, 4)
    ensures var (t, e) := GrowButtonOp(s, query, pig.chatId, message, pig.userId, cfg, now, roll);
            var (lo, hi) := Window(Tick(s), pig, cfg);
            var g := SampleGrowth(lo, hi, roll);
            var grown := pig.(weight := Max(pig.weight + g, 1), lastFeed := now);
            && Lookup(t.pigs, pig.chatId, pig.userId) == Some(grown)
            && e == [Edit(pig.chatId, message, FeedReport(pig.name, g, grown.weight), GrowKeyboard(pig.userId))]
  {
    HealthyTick(s, 3);
    var s1 := Tick(s);
    assert GetPigOp(s, pig.chatId, pig.userId) == (s1, Ok(Some(pig)));
    var o := FeedOp(s1, pig, cfg, now, roll);
    FeedSucceeds(s1, pig, cfg, now, roll);
    FeedWeight(s1, pig, cfg, now, roll);
    FeedTouchesWeightAndClock(s1, pig, cfg, now, roll);
    var (lo, hi) := Window(s1, pig, cfg);
    assert o.pig == pig.(weight := Max(pig.weight + SampleGrowth(lo, hi, roll), 1), lastFeed := now);
  }

  /**
   * The owner's grow button, with the store answering, feeds the pig once and
   * shows the report in place of the card, under a back button.
   */
  lemma GrowButtonFeeds(s: Store, q: CallbackQuery, cfg: GameConfig, now: real, roll: nat,
                        botStatus: Result<MemberStatus, TransportError>, pig: Pig)
    requires WellFormed(s) && NonNegativeTunables(cfg) && Healthy(s, 4)
    requires q.data.Some? && q.message.Some? && Classify(q.data.value) == GrowButton(q.from)
    requires Lookup(s.pigs, q.message.value.chatId, q.from) == Some(pig)
    ensures var (t, e) := CallbackOp(s, q, cfg, now, roll, botStatus);
            var (lo, hi) := Window(Tick(s), pig, cfg);
            var g := SampleGrowth(lo, hi, roll);
            var grown := pig.(weight := Max(pig.weight + g, 1), lastFeed := now);
            && Lookup(t.pigs, pig.chatId, pig.userId) == Some(grown)
            && e == [Edit(pig.chatId, q.message.value.messageId, FeedReport(pig.name, g, grown.weight), GrowKeyboard(q.from)),
                     Answer(q.id, None)]
  {
    PressGrow(s, q, cfg, now, roll, botStatus);
    GrowButtonReport(s, q.id, q.message.value.messageId, cfg, now, roll, pig);
  }

  /** With the store answering, the back button shows the stored pig's card with its rank. */
  lemma BackButtonCard(s: Store, query: string, message: int, pig: Pig)
    requires WellFormed(s) && Healthy(s, 2) && Lookup(s.pigs, pig.chatId, pig.userId) == Some(pig)
    ensures BackButtonOp(s, query, pig.chatId, message, pig.userId).1
              == [Edit(pig.chatId, message, PigInfo(pig.name, pig.weight, RankOf(s.pigs, pig.chatId, pig.userId).value),
                       PigKeyboard(pig.userId, message))]
  {
    HealthyTick(s, 1);
    HealthyTick(Tick(s), 0);
    RankPosition(s.pigs, pig.chatId, pig.userId);
  }

  /**
   * The owner's back button, with the store answering, shows the pig card again
   * with its rank. Its new remove button names the card itself, not the command
   * message the first card's button named.
   */
  lemma BackButtonShowsCard(s: Store, q: CallbackQuery, cfg: GameConfig, now: real, roll: nat,
                            botStatus: Result<MemberStatus, TransportError>, pig: Pig)
    requires WellFormed(s) && NonNegativeTunables(cfg) && Healthy(s, 2)
    requires q.data.Some? && q.message.Some? && Classify(q.data.value) == BackButton(q.from)
    requires Lookup(s.pigs, q.message.value.chatId, q.from) == Some(pig)
    requires I64Min <= q.from <= I64Max && I32Min <= q.message.value.messageId <= I32Max
    ensures var (t, e) := CallbackOp(s, q, cfg, now, roll, botStatus);
            var card := q.message.value.messageId;
            && SameTables(s, t)
            && e == [Edit(pig.chatId, card, PigInfo(pig.name, pig.weight, RankOf(s.pigs, pig.chatId, pig.userId).value),
                          PigKeyboard(q.from, card)),
                     Answer(q.id, None)]
            && Classify(e[0].keyboard[1][0].data) == RemoveButton(Some(card))
  {
    var card := q.message.value.messageId;
    assert HasKey(pig, q.message.value.chatId, q.from);
    var b := BackButtonOp(s, q.id, pig.chatId, card, pig.userId);
    var edit := Edit(pig.chatId, card, PigInfo(pig.name, pig.weight, RankOf(s.pigs, pig.chatId, pig.userId).value),
                     PigKeyboard(q.from, card));
    PressBack(s, q, cfg, now, roll, botStatus);
    BackButtonReadOnly(s, q.id, pig.chatId, card, pig.userId);
    BackButtonCard(s, q.id, card, pig);
    assert b.1 + [Answer(q.id, None)] == [edit, Answer(q.id, None)];
    PigKeyboardRoundTrip(q.from, card);
  }
}
