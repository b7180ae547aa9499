/**
 * The pig game as the module registry runs it (`BotModule for PigGameModule`):
 * `/pig`, `/feed`, `/mypig` and `/pigstats`, with a fixed feeding of five
 * kilograms and new pigs of weight 10.
 */
module LegacyPigGame {
  import opened Wrappers
  import opened Text
  import opened Schema
  import opened Table
  import opened Db
  import opened Messages
  import opened Transport
  import opened Feeding
  import opened Commands

  /** The commands the module declares, with their descriptions. */
  const CommandList: seq<(string, string)> := [
    ("pig", "Создать новую свинью"),
    ("feed", "Покормить свинью"),
    ("mypig", "Посмотреть информацию о своей свинье"),
    ("pigstats", "Посмотреть статистику свиней")
  ]

  /** The kilograms one `/feed` adds. */
  const FeedGain := 5

  /** The row this module's `create_new_pig` inserts: weight 10, every counter at zero. */
  function StarterPig(chat: int, user: int, owner: string, name: string): (p: Pig)
    ensures IsNewborn(p, 10)
    ensures p.chatId == chat && p.userId == user && p.ownerName == owner && p.name == name
  {
    Pig(0, chat, user, 10, name, 0.0, 0.0, owner, 0, false, 0, 0, 0, 0.0, 10, None, 0, 0, 0, 0, 0, 0)
  }

  /** `feed_pig`: stamp the feeding time, add five kilograms and save. */
  function FeedFixedOp(s: Store, pig: Pig, now: real): FeedOutcome {
    var fed := pig.(lastFeed := now, weight := pig.weight + FeedGain);
    var (t, saved) := UpdatePigOp(s, fed);
    if saved.Err? then FeedOutcome(t, fed, Err(saved.error))
    else FeedOutcome(t, fed, Ok(Ate(fed.name, fed.weight)))
  }

  /** `/mypig`: the full card of the user's pig. */
  function MyPigOp(s: Store, chat: int, user: int): (Store, seq<Effect>) {
    var (s1, got) := GetPigOp(s, chat, user);
    if got.Err? then (s1, [Send(chat, DatabaseError)])
    else if got.value.None? then (s1, [Send(chat, NoPigHint)])
    else
      var p := got.value.value;
      (s1, [Send(chat, FullCard(p.name, p.weight, p.barn, p.pigsty, p.vetclinic, p.pills, p.poisoned))])
  }

  /** `/feed`: feed the user's pig, which must exist already. */
  function FeedCommandOp(s: Store, chat: int, user: int, now: real): (Store, seq<Effect>) {
    var (s1, got) := GetPigOp(s, chat, user);
    if got.Err? then (s1, [Send(chat, DatabaseError)])
    else if got.value.None? then (s1, [Send(chat, NoPigHint)])
    else
      var o := FeedFixedOp(s1, got.value.value, now);
      (o.store, [Send(chat, if o.result.Ok? then o.result.value else FeedFailed)])
  }

  /** `handle_command`: dispatch on the command word. */
  function HandleCommandOp(s: Store, m: Incoming, command: string, args: seq<string>, now: real,
                           nameDraw: NameDraw): (Store, seq<Effect>)
  {
    var chat := m.chatId;
    var user := SenderId(m);
    var username := Username(m);
    if command == "pig" then PigOp(s, username, StarterPig(chat, user, username, NameArg(args, nameDraw)))
    else if command == "feed" then FeedCommandOp(s, chat, user, now)
    else if command == "mypig" then MyPigOp(s, chat, user)
    else if command == "pigstats" then PigStatsOp(s, chat, user, args)
    else (s, [Send(chat, UnknownPigCommand)])
  }

  // ---------------------------------------------------------------- properties

  /**
   * Feeding a stored pig adds exactly five kilograms and stamps the time; on
   * failure no row changes. Only a failing store makes it fail.
   */
  lemma FeedAddsFive(s: Store, pig: Pig, now: real)
    requires WellFormed(s) && Lookup(s.pigs, pig.chatId, pig.userId) == Some(pig)
    ensures var o := FeedFixedOp(s, pig, now);
            && o.pig == pig.(lastFeed := now, weight := pig.weight + 5)
            && (o.result.Ok? <==> !Fails(s))
            && (o.result.Ok? ==> && Lookup(o.store.pigs, pig.chatId, pig.userId) == Some(o.pig)
                                 && o.result.value == Ate(pig.name, pig.weight + 5))
            && (o.result.Err? ==> o.store.pigs == s.pigs)
            && |o.store.pigs| == |s.pigs| && o.store.loot == s.loot
            && (forall j | 0 <= j < |s.pigs| && !HasKey(s.pigs[j], pig.chatId, pig.userId) :: o.store.pigs[j] == s.pigs[j])
            && WellFormed(o.store)
  {
    var fed := pig.(lastFeed := now, weight := pig.weight + FeedGain);
    UpdateOverwrites(s, fed);
    UpdateKeepsWellFormed(s, fed);
  }

  /** `/mypig` changes nothing and shows every counter of the stored pig, its poisoning included. */
  lemma MyPigShowsFullCard(s: Store, chat: int, user: int)
    requires Healthy(s, 1) && Lookup(s.pigs, chat, user).Some?
    ensures var (t, e) := MyPigOp(s, chat, user);
            var p := Lookup(s.pigs, chat, user).value;
            && t.pigs == s.pigs && t.loot == s.loot
            && e == [Send(chat, FullCard(p.name, p.weight, p.barn, p.pigsty, p.vetclinic, p.pills, p.poisoned))]
            && e[0].note.poisoned == p.poisoned
  {
    HealthyTick(s, 0);
  }

  /** With the store answering, `/feed` on a stored pig reports its new weight, five more than before. */
  lemma FeedCommandReports(s: Store, chat: int, user: int, now: real)
    requires WellFormed(s) && Healthy(s, 2) && Lookup(s.pigs, chat, user).Some?
    ensures var (t, e) := FeedCommandOp(s, chat, user, now);
            var p := Lookup(s.pigs, chat, user).value;
            && Lookup(t.pigs, chat, user) == Some(p.(lastFeed := now, weight := p.weight + 5))
            && e == [Send(chat, Ate(p.name, p.weight + 5))]
  {
    HealthyTick(s, 1);
    HealthyTick(Tick(s), 0);
    var p := Lookup(s.pigs, chat, user).value;
    assert HasKey(p, chat, user);
    assert GetPigOp(s, chat, user) == (Tick(s), Ok(Some(p)));
    FeedAddsFive(Tick(s), p, now);
    var o := FeedFixedOp(Tick(s), p, now);
    assert o.result == Ok(Ate(p.name, p.weight + 5));
  }

  /** The starter pig of `/pig` weighs 10, where the pig of the command handler weighs 0. */
  lemma StarterWeighsTen(s: Store, m: Incoming, args: seq<string>, now: real, nameDraw: NameDraw)
    requires WellFormed(s) && Healthy(s, 2) && Lookup(s.pigs, m.chatId, SenderId(m)).None?
    ensures var (t, e) := HandleCommandOp(s, m, "pig", args, now, nameDraw);
            && Lookup(t.pigs, m.chatId, SenderId(m)).Some?
            && Lookup(t.pigs, m.chatId, SenderId(m)).value.weight == 10
            && e == [Send(m.chatId, Congratulations(Username(m), NameArg(args, nameDraw), 10))]
  {
    var draft := StarterPig(m.chatId, SenderId(m), Username(m), NameArg(args, nameDraw));
    HealthyTick(s, 1);
    HealthyTick(Tick(s), 0);
    CreateThenLookup(Tick(s), draft);
  }

  // ---------------------------------------------------------------- against the database

  method FeedFixed(db: Database, pig: Pig, now: real) returns (fed: Pig, r: Result<Note, DbError>)
    requires db.Valid() && pig.weight >= 0
    modifies db
    ensures FeedOutcome(db.State(), fed, r) == FeedFixedOp(old(db.State()), pig, now)
    ensures db.Valid()
  {
    fed := pig.(lastFeed := now, weight := pig.weight + FeedGain);
    var saved := db.UpdatePig(fed);
    if saved.Err? {
      r := Err(saved.error);
    } else {
      r := Ok(Ate(fed.name, fed.weight));
    }
  }

  method HandleCommand(db: Database, m: Incoming, command: string, args: seq<string>, now: real,
                       nameDraw: NameDraw) returns (effects: seq<Effect>)
    requires db.Valid()
    modifies db
    ensures (db.State(), effects) == HandleCommandOp(old(db.State()), m, command, args, now, nameDraw)
    ensures db.Valid()
  {
    var chat := m.chatId;
    var user := SenderId(m);
    var username := Username(m);
    if command == "pig" {
      effects := PigCommand(db, username, StarterPig(chat, user, username, NameArg(args, nameDraw)));
    } else if command == "feed" {
      var got := db.GetPig(chat, user);
      if got.Err? {
        return [Send(chat, DatabaseError)];
      }
      if got.value.None? {
        return [Send(chat, NoPigHint)];
      }
      var _, r := FeedFixed(db, got.value.value, now);
      effects := [Send(chat, if r.Ok? then r.value else FeedFailed)];
    } else if command == "mypig" {
      var got := db.GetPig(chat, user);
      if got.Err? {
        return [Send(chat, DatabaseError)];
      }
      if got.value.None? {
        return [Send(chat, NoPigHint)];
      }
      var p := got.value.value;
      effects := [Send(chat, FullCard(p.name, p.weight, p.barn, p.pigsty, p.vetclinic, p.pills, p.poisoned))];
    } else if command == "pigstats" {
      effects := PigStatsCommand(db, chat, user, args);
    } else {
      effects := [Send(chat, UnknownPigCommand)];
    }
  }
}
