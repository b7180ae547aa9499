/** What the pig commands promise, over every store and every fault schedule. */
module CommandFacts {
  import opened Wrappers
  import opened Text
  import opened Schema
  import opened Ranking
  import opened Table
  import opened Helpers
  import opened Messages
  import opened Transport
  import opened Keyboards
  import opened Feeding
  import opened Commands

  /** Same rows, same loot, same serial counters: only the fault schedule moved on. */
  predicate SameTables(a: Store, b: Store) {
    a.pigs == b.pigs && a.loot == b.loot && a.nextPigId == b.nextPigId && a.nextLootId == b.nextLootId
  }

  /**
   * From `s` to `t` only the row keyed (chat, user) changed or was appended:
   * every other row keeps its place and contents, the keyed row keeps its key,
   * at most one row is added and it carries the key, and the loot is untouched.
   */
  predicate OwnRowOnly(s: Store, t: Store, chat: int, user: int) {
    && |s.pigs| <= |t.pigs| <= |s.pigs| + 1
    && (forall j | 0 <= j < |s.pigs| && !HasKey(s.pigs[j], chat, user) :: t.pigs[j] == s.pigs[j])
    && (forall j | 0 <= j < |s.pigs| && HasKey(s.pigs[j], chat, user) :: HasKey(t.pigs[j], chat, user))
    && (forall j | |s.pigs| <= j < |t.pigs| :: HasKey(t.pigs[j], chat, user))
    && t.loot == s.loot
  }

  /** The messages of one command: a single message to `chat`. */
  predicate OneMessageTo(e: seq<Effect>, chat: int) {
    |e| == 1 && (e[0].Send? || e[0].Reply? || e[0].SendWithKeyboard?) && e[0].chat == chat
  }

  lemma {:induction false} OwnRowTrans(a: Store, b: Store, c: Store, chat: int, user: int)
    requires OwnRowOnly(a, b, chat, user) && OwnRowOnly(b, c, chat, user) && |c.pigs| == |b.pigs|
    ensures OwnRowOnly(a, c, chat, user)
  {
    forall j | 0 <= j < |a.pigs| && !HasKey(a.pigs[j], chat, user) ensures c.pigs[j] == a.pigs[j] {
      assert b.pigs[j] == a.pigs[j];
    }
    forall j | |a.pigs| <= j < |c.pigs| ensures HasKey(c.pigs[j], chat, user) {
      assert HasKey(b.pigs[j], chat, user);
    }
  }

  lemma CreateOwnRow(s: Store, draft: Pig)
    requires WellFormed(s) && draft.weight >= 0
    ensures OwnRowOnly(s, CreatePigOp(s, draft).0, draft.chatId, draft.userId)
    ensures WellFormed(CreatePigOp(s, draft).0)
  {
    CreateThenLookup(s, draft);
    CreateKeepsWellFormed(s, draft);
  }

  lemma FeedOwnRow(s: Store, chat: int, pig: Pig, cfg: GameConfig, d: Dice)
    requires Feedable(s, pig, cfg)
    ensures OwnRowOnly(s, FeedReplyOp(s, chat, pig, cfg, d).0, pig.chatId, pig.userId)
    ensures WellFormed(FeedReplyOp(s, chat, pig, cfg, d).0)
    ensures OneMessageTo(FeedReplyOp(s, chat, pig, cfg, d).1, chat)
    ensures SameKeys(s.pigs, FeedReplyOp(s, chat, pig, cfg, d).0.pigs)
  {
    FeedKeepsOthers(s, pig, cfg, d.now, d.roll);
  }

  /** `/pig` touches at most the sender's row and sends one message. */
  lemma PigOwnRow(s: Store, username: string, draft: Pig)
    requires WellFormed(s) && draft.weight >= 0
    ensures OwnRowOnly(s, PigOp(s, username, draft).0, draft.chatId, draft.userId)
    ensures WellFormed(PigOp(s, username, draft).0)
    ensures OneMessageTo(PigOp(s, username, draft).1, draft.chatId)
  {
    CreateOwnRow(Tick(s), draft);
  }

  lemma CreateAndFeedOwnRow(s: Store, chat: int, draft: Pig, cfg: GameConfig, d: Dice)
    requires WellFormed(s) && NonNegativeTunables(cfg) && draft.weight >= 0
    ensures var (t, e) := CreateAndFeedOp(s, chat, draft, cfg, d);
            OwnRowOnly(s, t, draft.chatId, draft.userId) && WellFormed(t) && OneMessageTo(e, chat)
  {
    CreateThenLookup(s, draft);
    CreateKeepsWellFormed(s, draft);
    var (s2, made) := CreatePigOp(s, draft);
    if made.Ok? {
      FedAfterCreate(s, s2, chat, made.value, cfg, d);
    }
  }

  lemma FedAfterCreate(s: Store, s2: Store, chat: int, pig: Pig, cfg: GameConfig, d: Dice)
    requires Feedable(s2, pig, cfg) && OwnRowOnly(s, s2, pig.chatId, pig.userId)
    ensures var (t, e) := FeedReplyOp(s2, chat, pig, cfg, d);
            OwnRowOnly(s, t, pig.chatId, pig.userId) && WellFormed(t) && OneMessageTo(e, chat)
  {
    FeedOwnRow(s2, chat, pig, cfg, d);
    OwnRowTrans(s, s2, FeedReplyOp(s2, chat, pig, cfg, d).0, pig.chatId, pig.userId);
  }

  /** `/grow` touches at most the sender's row and sends one message. */
  lemma GrowOwnRow(s: Store, chat: int, user: int, username: string, name: string, cfg: GameConfig, d: Dice)
    requires WellFormed(s) && NonNegativeTunables(cfg)
    ensures OwnRowOnly(s, GrowOp(s, chat, user, username, name, cfg, d).0, chat, user)
    ensures WellFormed(GrowOp(s, chat, user, username, name, cfg, d).0)
    ensures OneMessageTo(GrowOp(s, chat, user, username, name, cfg, d).1, chat)
  {
    var got := Lookup(s.pigs, chat, user);
    if !Fails(s) && got.Some? {
      FeedOwnRow(Tick(s), chat, got.value, cfg, d);
    } else if !Fails(s) {
      CreateAndFeedOwnRow(Tick(s), chat, NewPig(chat, user, username, name), cfg, d);
    }
  }

  /** `/name` touches at most the sender's row and sends one message. */
  lemma NameOwnRow(s: Store, chat: int, message: int, user: int, owner: string, args: seq<string>,
                   graphemes: string -> nat)
    requires WellFormed(s)
    ensures OwnRowOnly(s, NameOp(s, chat, message, user, owner, args, graphemes).0, chat, user)
    ensures WellFormed(NameOp(s, chat, message, user, owner, args, graphemes).0)
    ensures OneMessageTo(NameOp(s, chat, message, user, owner, args, graphemes).1, chat)
  {
    if |args| > 0 && graphemes(Join(" ", args)) < MaxNameGraphemes && !Fails(s) {
      var name := Join(" ", args);
      if Lookup(s.pigs, chat, user).Some? {
        RenameKeepsWellFormed(Tick(s), chat, user, name);
      } else {
        CreateOwnRow(Tick(s), NewPig(chat, user, owner, name));
      }
    }
  }

  lemma DispatchPig(s: Store, m: Incoming, args: seq<string>, cfg: GameConfig, d: Dice, graphemes: string -> nat)
    requires WellFormed(s) && NonNegativeTunables(cfg)
    ensures PigCommandOp(s, m, "pig", args, cfg, d, graphemes)
              == PigOp(s, Username(m), NewPig(m.chatId, SenderId(m), Username(m), NameArg(args, d.nameDraw)))
  {
  }

  lemma DispatchGrow(s: Store, m: Incoming, command: string, args: seq<string>, cfg: GameConfig, d: Dice,
                     graphemes: string -> nat)
    requires WellFormed(s) && NonNegativeTunables(cfg) && (command == "grow" || command == "гров")
    ensures PigCommandOp(s, m, command, args, cfg, d, graphemes)
              == GrowOp(s, m.chatId, SenderId(m), Username(m), NameArg(args, d.nameDraw), cfg, d)
  {
  }

  lemma DispatchName(s: Store, m: Incoming, args: seq<string>, cfg: GameConfig, d: Dice, graphemes: string -> nat)
    requires WellFormed(s) && NonNegativeTunables(cfg)
    ensures PigCommandOp(s, m, "name", args, cfg, d, graphemes)
              == NameOp(s, m.chatId, m.messageId, SenderId(m), OwnerName(m), args, graphemes)
  {
  }

  /**
   * `/my`, `/pigstats`, `/top` and unknown commands change no table and send one
   * message; an unknown command gets the fixed "unknown pig command" reply and
   * does not touch the store at all.
   */
  lemma ReadOnlyCommands(s: Store, m: Incoming, command: string, args: seq<string>, cfg: GameConfig,
                         d: Dice, graphemes: string -> nat)
    requires WellFormed(s) && NonNegativeTunables(cfg)
    requires command !in {"pig", "grow", "гров", "name"}
    ensures var (t, e) := PigCommandOp(s, m, command, args, cfg, d, graphemes);
            && SameTables(s, t) && OneMessageTo(e, m.chatId)
            && (command !in {"my", "pigstats", "top"} ==> t == s && e == [Send(m.chatId, UnknownPigCommand)])
  {
  }

  /**
   * Every pig command touches only the sender's own row: no other player's pig
   * and no loot changes, at most one pig is added, and the store stays well-formed.
   * It answers with exactly one message, in the chat it came from.
   */
  lemma CommandTouchesOnlyOwnRow(s: Store, m: Incoming, command: string, args: seq<string>, cfg: GameConfig,
                                 d: Dice, graphemes: string -> nat)
    requires WellFormed(s) && NonNegativeTunables(cfg)
    ensures var (t, e) := PigCommandOp(s, m, command, args, cfg, d, graphemes);
            OwnRowOnly(s, t, m.chatId, SenderId(m)) && WellFormed(t) && OneMessageTo(e, m.chatId)
  {
    var chat, user, username := m.chatId, SenderId(m), Username(m);
    if command == "pig" {
      DispatchPig(s, m, args, cfg, d, graphemes);
      PigOwnRow(s, username, NewPig(chat, user, username, NameArg(args, d.nameDraw)));
    } else if command == "grow" || command == "гров" {
      DispatchGrow(s, m, command, args, cfg, d, graphemes);
      GrowOwnRow(s, chat, user, username, NameArg(args, d.nameDraw), cfg, d);
    } else if command == "name" {
      DispatchName(s, m, args, cfg, d, graphemes);
      NameOwnRow(s, chat, m.messageId, user, OwnerName(m), args, graphemes);
    } else {
      ReadOnlyCommands(s, m, command, args, cfg, d, graphemes);
    }
  }

  /**
   * `/pig` creates a pig only for a user without one: with a pig already there no
   * table changes and the existing pig is named; without one, and with the store
   * answering, exactly the draft is stored under a fresh id.
   */
  lemma PigCreatesOnce(s: Store, username: string, draft: Pig)
    requires WellFormed(s)
    ensures var (t, e) := PigOp(s, username, draft);
            var old_ := Lookup(s.pigs, draft.chatId, draft.userId);
            && (old_.Some? ==> SameTables(s, t) && e[0].note in {AlreadyHasPig(old_.value.name, old_.value.weight), DatabaseError})
            && (old_.None? && Healthy(s, 2) ==>
                  Lookup(t.pigs, draft.chatId, draft.userId) == Some(draft.(id := s.nextPigId))
                  && e == [Send(draft.chatId, Congratulations(username, draft.name, draft.weight))])
  {
    var s1 := Tick(s);
    CreateThenLookup(s1, draft);
    if Lookup(s.pigs, draft.chatId, draft.userId).None? && Healthy(s, 2) {
      HealthyTick(s, 1);
      HealthyTick(s1, 0);
    }
  }

  /** `/name` checks its argument before touching the store at all. */
  lemma NameChecksFirst(s: Store, chat: int, message: int, user: int, owner: string, args: seq<string>,
                        graphemes: string -> nat)
    ensures var (t, e) := NameOp(s, chat, message, user, owner, args, graphemes);
            && (|args| == 0 ==> t == s && e == [Reply(chat, message, AskName)])
            && (|args| > 0 && graphemes(Join(" ", args)) >= 32 ==> t == s && e == [Reply(chat, message, NameTooLong)])
  {
  }

  /** A successful `/name` on an existing pig changes its name and nothing else. */
  lemma RenameKeepsPig(s: Store, chat: int, message: int, user: int, owner: string, args: seq<string>,
                       graphemes: string -> nat)
    requires WellFormed(s) && Healthy(s, 2)
    requires |args| > 0 && graphemes(Join(" ", args)) < 32
    requires Lookup(s.pigs, chat, user).Some?
    ensures var (t, e) := NameOp(s, chat, message, user, owner, args, graphemes);
            && Lookup(t.pigs, chat, user) == Some(Lookup(s.pigs, chat, user).value.(name := Join(" ", args)))
            && e == [Reply(chat, message, Renamed(Join(" ", args)))]
  {
    HealthyTick(s, 1);
    HealthyTick(Tick(s), 0);
    RenameKeepsWellFormed(Tick(s), chat, user, Join(" ", args));
  }

  /**
   * A successful `/name` from a user without a pig creates one under the given
   * name (weight 0, the next serial id) and answers with the christening text.
   */
  lemma NameChristens(s: Store, chat: int, message: int, user: int, owner: string, args: seq<string>,
                      graphemes: string -> nat)
    requires WellFormed(s) && Healthy(s, 2)
    requires |args| > 0 && graphemes(Join(" ", args)) < 32
    requires Lookup(s.pigs, chat, user).None?
    ensures var (t, e) := NameOp(s, chat, message, user, owner, args, graphemes);
            && Lookup(t.pigs, chat, user) == Some(NewPig(chat, user, owner, Join(" ", args)).(id := s.nextPigId))
            && CountChat(t.pigs, chat) == CountChat(s.pigs, chat) + 1
            && e == [Reply(chat, message, Christened(Join(" ", args)))]
  {
    HealthyTick(s, 1);
    HealthyTick(Tick(s), 0);
    CreateThenLookup(Tick(s), NewPig(chat, user, owner, Join(" ", args)));
  }

  /**
   * With the store answering, `/grow` always leaves the user with a stored pig of
   * weight at least 1 and reports the feeding.
   */
  lemma GrowLeavesFedPig(s: Store, chat: int, user: int, username: string, name: string, cfg: GameConfig, d: Dice)
    requires WellFormed(s) && NonNegativeTunables(cfg) && Healthy(s, 5)
    ensures var (t, e) := GrowOp(s, chat, user, username, name, cfg, d);
            && Lookup(t.pigs, chat, user).Some? && Lookup(t.pigs, chat, user).value.weight >= 1
            && |e| == 1 && e[0].Send? && e[0].note.FeedReport?
  {
    HealthyTick(s, 4);
    var s1 := Tick(s);
    var got := Lookup(s.pigs, chat, user);
    if got.Some? {
      FeedSucceeds(s1, got.value, cfg, d.now, d.roll);
      FeedWeight(s1, got.value, cfg, d.now, d.roll);
    } else {
      var draft := NewPig(chat, user, username, name);
      HealthyTick(s1, 3);
      CreateThenLookup(s1, draft);
      CreateKeepsWellFormed(s1, draft);
      var (s2, made) := CreatePigOp(s1, draft);
      assert made.Ok?;
      FeedSucceeds(s2, made.value, cfg, d.now, d.roll);
      FeedWeight(s2, made.value, cfg, d.now, d.roll);
    }
  }

  /**
   * `/top` lists the chat's heaviest pigs, heaviest first: at most five, every
   * listed pig belongs to the chat, and no unlisted pig outweighs a listed one.
   */
  lemma TopListsHeaviest(s: Store, chat: int)
    ensures var (t, e) := TopOp(s, chat);
            var ranked := Ranked(s.pigs, chat);
            e[0].note.TopList? ==>
              var shown := e[0].note.entries;
              && 1 <= |shown| <= 5 && |shown| == (if CountChat(s.pigs, chat) < 5 then CountChat(s.pigs, chat) else 5)
              && NonIncreasing(shown)
              && (forall p | p in shown :: p in s.pigs && p.chatId == chat)
              && (forall i, j | 0 <= i < |shown| <= j < |ranked| :: ranked[j].weight <= shown[i].weight)
  {
    var ranked := Ranked(s.pigs, chat);
    forall p | p in Leaders(ranked) ensures p in s.pigs && p.chatId == chat {
      RankedRows(s.pigs, chat, p);
    }
  }

  /**
   * What `/top` sends: the database-error text when the ranking query fails, the
   * empty-chat text when the chat has no pig, and otherwise the first five pigs of
   * the chat's heaviest-first order (all of them when there are fewer).
   */
  lemma TopShows(s: Store, chat: int)
    ensures var (t, e) := TopOp(s, chat);
            var n := CountChat(s.pigs, chat);
            && SameTables(s, t)
            && (Fails(s) ==> e == [Send(chat, DatabaseError)])
            && (!Fails(s) && n == 0 ==> e == [Send(chat, EmptyChat)])
            && (!Fails(s) && n > 0 ==>
                  e == [Send(chat, TopList(Ranked(s.pigs, chat)[..if n < 5 then n else 5]))])
  {
  }

  /** `/my` shows the pig's rank: its place in the chat's heaviest-first order. */
  lemma MyShowsRank(s: Store, chat: int, user: int, commandMessage: int)
    requires WellFormed(s) && Healthy(s, 2) && Lookup(s.pigs, chat, user).Some?
    ensures var p := Lookup(s.pigs, chat, user).value;
            var r := RankOf(s.pigs, chat, user).value;
            && MyOp(s, chat, user, commandMessage).1 == [SendWithKeyboard(chat, PigInfo(p.name, p.weight, r), PigKeyboard(user, commandMessage))]
            && 1 <= r <= CountChat(s.pigs, chat)
            && Ranked(s.pigs, chat)[r - 1] == p
  {
    HealthyTick(s, 1);
    HealthyTick(Tick(s), 0);
    var p := Lookup(s.pigs, chat, user).value;
    assert HasKey(p, chat, user);
    assert GetPigOp(s, chat, user) == (Tick(s), Ok(Some(p)));
    assert RankOp(Tick(s), chat, user).1 == Ok(RankOf(s.pigs, chat, user));
    RankPosition(s.pigs, chat, user);
  }
}
