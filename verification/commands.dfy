/**
 * `handle_pig_command`: the `/pig`, `/grow` (`/гров`), `/my`, `/pigstats`, `/top`
 * and `/name` commands of the pig game. Each branch is a function from the store
 * to the store afterwards and the messages sent, and a method that does the same
 * against the live database.
 */
module Commands {
  import opened Wrappers
  import opened Text
  import opened Schema
  import opened Table
  import opened Helpers
  import opened Db
  import opened Messages
  import opened Transport
  import opened Keyboards
  import opened Feeding

  /** A draw of the default-name picker. */
  type NameDraw = i: nat | i < |DefaultNames|

  /** The clock and the random draws one command may use. */
  datatype Dice = Dice(now: real, nameDraw: NameDraw, roll: nat)

  /** The pig name the arguments give, a default name when there are none. */
  function NameArg(args: seq<string>, draw: NameDraw): string {
    if |args| == 0 then DefaultPigName(draw) else Join(" ", args)
  }

  /** `/pig`: create the user's pig from `draft` unless they have one. */
  function PigOp(s: Store, username: string, draft: Pig): (Store, seq<Effect>) {
    var chat := draft.chatId;
    var (s1, got) := GetPigOp(s, chat, draft.userId);
    if got.Err? then (s1, [Send(chat, DatabaseError)])
    else if got.value.Some? then (s1, [Send(chat, AlreadyHasPig(got.value.value.name, got.value.value.weight))])
    else
      var (s2, made) := CreatePigOp(s1, draft);
      if made.Err? then (s2, [Send(chat, CreateFailed)])
      else (s2, [Send(chat, Congratulations(username, made.value.name, made.value.weight))])
  }

  /** Feeds a stored pig and sends the report, or the feeding error. */
  function FeedReplyOp(s: Store, chat: int, pig: Pig, cfg: GameConfig, d: Dice): (Store, seq<Effect>)
    requires Feedable(s, pig, cfg)
  {
    var o := FeedOp(s, pig, cfg, d.now, d.roll);
    (o.store, [Send(chat, if o.result.Ok? then o.result.value else FeedFailed)])
  }

  /** The `Ok(None)` branch of `/grow`: create the pig from `draft`, then feed it. */
  function CreateAndFeedOp(s: Store, chat: int, draft: Pig, cfg: GameConfig, d: Dice): (Store, seq<Effect>)
    requires WellFormed(s) && NonNegativeTunables(cfg) && draft.weight >= 0
  {
    CreateThenLookup(s, draft);
    CreateKeepsWellFormed(s, draft);
    var (s2, made) := CreatePigOp(s, draft);
    if made.Err? then (s2, [Send(chat, CreateFailed)])
    else FeedReplyOp(s2, chat, made.value, cfg, d)
  }

  /** `/grow`: feed the user's pig, creating it first when there is none. */
  function GrowOp(s: Store, chat: int, user: int, username: string, name: string, cfg: GameConfig, d: Dice): (Store, seq<Effect>)
    requires WellFormed(s) && NonNegativeTunables(cfg)
  {
    var (s1, got) := GetPigOp(s, chat, user);
    if got.Err? then (s1, [Send(chat, DatabaseError)])
    else if got.value.Some? then FeedReplyOp(s1, chat, got.value.value, cfg, d)
    else CreateAndFeedOp(s1, chat, NewPig(chat, user, username, name), cfg, d)
  }

  /** `format_pig_info`: name, weight and rank, the rank 0 when it cannot be read. */
  function FormatPigInfoOp(s: Store, pig: Pig): (Store, Note) {
    var (s1, rank) := RankOp(s, pig.chatId, pig.userId);
    (s1, PigInfo(pig.name, pig.weight, if rank.Ok? then rank.value.GetOr(0) else 0))
  }

  /** `/my`: the user's pig card with its keyboard. */
  function MyOp(s: Store, chat: int, user: int, commandMessage: int): (Store, seq<Effect>) {
    var (s1, got) := GetPigOp(s, chat, user);
    if got.Err? then (s1, [Send(chat, DatabaseError)])
    else if got.value.None? then (s1, [Send(chat, NoPigHint)])
    else
      var (s2, info) := FormatPigInfoOp(s1, got.value.value);
      (s2, [SendWithKeyboard(chat, info, PigKeyboard(user, commandMessage))])
  }

  /** `/pigstats`: the first pig whose name contains the arguments, or the user's own. */
  function PigStatsOp(s: Store, chat: int, user: int, args: seq<string>): (Store, seq<Effect>) {
    if |args| > 0 then
      var q := Join(" ", args);
      var (s1, found) := FindPigByNameOp(s, chat, q);
      if found.Err? then (s1, [Send(chat, DatabaseError)])
      else if |found.value| == 0 then (s1, [Send(chat, NotFound(q))])
      else
        var p := found.value[0];
        (s1, [Send(chat, FoundCard(p.name, p.ownerName, p.weight, p.barn))])
    else
      var (s1, got) := GetPigOp(s, chat, user);
      if got.Err? then (s1, [Send(chat, DatabaseError)])
      else if got.value.None? then (s1, [Send(chat, NoPig)])
      else
        var p := got.value.value;
        (s1, [Send(chat, OwnCard(p.name, p.weight, p.barn))])
  }

  /** The first five of a ranking. */
  function Leaders(ranked: seq<Pig>): seq<Pig> {
    ranked[..if |ranked| < 5 then |ranked| else 5]
  }

  /** `/top`: the five heaviest pigs of the chat. */
  function TopOp(s: Store, chat: int): (Store, seq<Effect>) {
    var (s1, ranked) := RankedOp(s, chat);
    if ranked.Err? then (s1, [Send(chat, DatabaseError)])
    else if |ranked.value| == 0 then (s1, [Send(chat, EmptyChat)])
    else (s1, [Send(chat, TopList(Leaders(ranked.value)))])
  }

  /** Longest pig name accepted by `/name`, in user-perceived characters, is 31. */
  const MaxNameGraphemes := 32

  /**
   * `/name`: rename the user's pig, or create one with that name. `graphemes`
   * counts the user-perceived characters of a string.
   */
  function NameOp(s: Store, chat: int, message: int, user: int, owner: string, args: seq<string>,
                  graphemes: string -> nat): (Store, seq<Effect>)
  {
    if |args| == 0 then (s, [Reply(chat, message, AskName)])
    else
      var name := Join(" ", args);
      if graphemes(name) >= MaxNameGraphemes then (s, [Reply(chat, message, NameTooLong)])
      else
        var (s1, got) := GetPigOp(s, chat, user);
        if got.Err? then (s1, [Send(chat, Oops)])
        else if got.value.Some? then
          var (s2, renamed) := UpdatePigNameOp(s1, chat, user, name);
          if renamed.Err? then (s2, [Send(chat, Oops)])
          else (s2, [Reply(chat, message, Renamed(name))])
        else
          var (s2, made) := CreatePigOp(s1, NewPig(chat, user, owner, name));
          if made.Err? then (s2, [Reply(chat, message, CreateFailed)])
          else (s2, [Reply(chat, message, Christened(name))])
  }

  /** `handle_pig_command`: dispatch on the command word. */
  function PigCommandOp(s: Store, m: Incoming, command: string, args: seq<string>, cfg: GameConfig,
                        d: Dice, graphemes: string -> nat): (Store, seq<Effect>)
    requires WellFormed(s) && NonNegativeTunables(cfg)
  {
    var chat := m.chatId;
    var user := SenderId(m);
    var username := Username(m);
    if command == "pig" then PigOp(s, username, NewPig(chat, user, username, NameArg(args, d.nameDraw)))
    else if command == "grow" || command == "гров" then GrowOp(s, chat, user, username, NameArg(args, d.nameDraw), cfg, d)
    else if command == "my" then MyOp(s, chat, user, m.messageId)
    else if command == "pigstats" then PigStatsOp(s, chat, user, args)
    else if command == "top" then TopOp(s, chat)
    else if command == "name" then NameOp(s, chat, m.messageId, user, OwnerName(m), args, graphemes)
    else (s, [Send(chat, UnknownPigCommand)])
  }

  // ---------------------------------------------------------------- against the database

  method PigCommand(db: Database, username: string, draft: Pig) returns (effects: seq<Effect>)
    requires db.Valid() && draft.weight >= 0
    modifies db
    ensures (db.State(), effects) == PigOp(old(db.State()), username, draft)
    ensures db.Valid()
  {
    var chat := draft.chatId;
    var got := db.GetPig(chat, draft.userId);
    if got.Err? {
      return [Send(chat, DatabaseError)];
    }
    if got.value.Some? {
      return [Send(chat, AlreadyHasPig(got.value.value.name, got.value.value.weight))];
    }
    var made := db.CreatePig(draft);
    if made.Err? {
      return [Send(chat, CreateFailed)];
    }
    effects := [Send(chat, Congratulations(username, made.value.name, made.value.weight))];
  }

  method FeedReply(db: Database, chat: int, pig: Pig, cfg: GameConfig, d: Dice) returns (effects: seq<Effect>)
    requires db.Valid() && Feedable(db.State(), pig, cfg)
    modifies db
    ensures (db.State(), effects) == FeedReplyOp(old(db.State()), chat, pig, cfg, d)
    ensures db.Valid()
  {
    var _, r := FeedPig(db, pig, cfg, d.now, d.roll);
    effects := [Send(chat, if r.Ok? then r.value else FeedFailed)];
  }

  method GrowCommand(db: Database, chat: int, user: int, username: string, name: string, cfg: GameConfig, d: Dice)
    returns (effects: seq<Effect>)
    requires db.Valid() && NonNegativeTunables(cfg)
    modifies db
    ensures (db.State(), effects) == GrowOp(old(db.State()), chat, user, username, name, cfg, d)
    ensures db.Valid()
  {
    ghost var s := db.State();
    var got := db.GetPig(chat, user);
    if got.Err? {
      return [Send(chat, DatabaseError)];
    }
    if got.value.Some? {
      effects := FeedReply(db, chat, got.value.value, cfg, d);
      return;
    }
    effects := CreateAndFeed(db, chat, NewPig(chat, user, username, name), cfg, d);
  }

  method CreateAndFeed(db: Database, chat: int, draft: Pig, cfg: GameConfig, d: Dice) returns (effects: seq<Effect>)
    requires db.Valid() && NonNegativeTunables(cfg) && draft.weight >= 0
    modifies db
    ensures (db.State(), effects) == CreateAndFeedOp(old(db.State()), chat, draft, cfg, d)
    ensures db.Valid()
  {
    CreateThenLookup(db.State(), draft);
    var made := db.CreatePig(draft);
    if made.Err? {
      return [Send(chat, CreateFailed)];
    }
    effects := FeedReply(db, chat, made.value, cfg, d);
  }

  method FormatPigInfo(db: Database, pig: Pig) returns (info: Note)
    modifies db`faults
    ensures (db.State(), info) == FormatPigInfoOp(old(db.State()), pig)
  {
    var rank := db.GetPigRank(pig.chatId, pig.userId);
    info := PigInfo(pig.name, pig.weight, if rank.Ok? then rank.value.GetOr(0) else 0);
  }

  method MyCommand(db: Database, chat: int, user: int, commandMessage: int) returns (effects: seq<Effect>)
    modifies db`faults
    ensures (db.State(), effects) == MyOp(old(db.State()), chat, user, commandMessage)
  {
    var got := db.GetPig(chat, user);
    if got.Err? {
      return [Send(chat, DatabaseError)];
    }
    if got.value.None? {
      return [Send(chat, NoPigHint)];
    }
    var info := FormatPigInfo(db, got.value.value);
    effects := [SendWithKeyboard(chat, info, PigKeyboard(user, commandMessage))];
  }

  method PigStatsCommand(db: Database, chat: int, user: int, args: seq<string>) returns (effects: seq<Effect>)
    modifies db`faults
    ensures (db.State(), effects) == PigStatsOp(old(db.State()), chat, user, args)
  {
    if |args| > 0 {
      var q := Join(" ", args);
      var found := db.FindPigByName(chat, q);
      if found.Err? {
        return [Send(chat, DatabaseError)];
      }
      if |found.value| == 0 {
        return [Send(chat, NotFound(q))];
      }
      var p := found.value[0];
      return [Send(chat, FoundCard(p.name, p.ownerName, p.weight, p.barn))];
    }
    var got := db.GetPig(chat, user);
    if got.Err? {
      return [Send(chat, DatabaseError)];
    }
    if got.value.None? {
      return [Send(chat, NoPig)];
    }
    var p := got.value.value;
    effects := [Send(chat, OwnCard(p.name, p.weight, p.barn))];
  }

  method TopCommand(db: Database, chat: int) returns (effects: seq<Effect>)
    modifies db`faults
    ensures (db.State(), effects) == TopOp(old(db.State()), chat)
  {
    var ranked := db.GetChatPigsRanked(chat);
    if ranked.Err? {
      return [Send(chat, DatabaseError)];
    }
    if |ranked.value| == 0 {
      return [Send(chat, EmptyChat)];
    }
    effects := [Send(chat, TopList(Leaders(ranked.value)))];
  }

  method NameCommand(db: Database, chat: int, message: int, user: int, owner: string, args: seq<string>,
              graphemes: string -> nat) returns (effects: seq<Effect>)
    requires db.Valid()
    modifies db
    ensures (db.State(), effects) == NameOp(old(db.State()), chat, message, user, owner, args, graphemes)
    ensures db.Valid()
  {
    if |args| == 0 {
      return [Reply(chat, message, AskName)];
    }
    var name := Join(" ", args);
    if graphemes(name) >= MaxNameGraphemes {
      return [Reply(chat, message, NameTooLong)];
    }
    var got := db.GetPig(chat, user);
    if got.Err? {
      return [Send(chat, Oops)];
    }
    if got.value.Some? {
      var renamed := db.UpdatePigName(chat, user, name);
      if renamed.Err? {
        return [Send(chat, Oops)];
      }
      return [Reply(chat, message, Renamed(name))];
    }
    var made := db.CreatePig(NewPig(chat, user, owner, name));
    if made.Err? {
      return [Reply(chat, message, CreateFailed)];
    }
    effects := [Reply(chat, message, Christened(name))];
  }

  method HandlePigCommand(db: Database, m: Incoming, command: string, args: seq<string>, cfg: GameConfig,
                          d: Dice, graphemes: string -> nat) returns (effects: seq<Effect>)
    requires db.Valid() && NonNegativeTunables(cfg)
    modifies db
    ensures (db.State(), effects) == PigCommandOp(old(db.State()), m, command, args, cfg, d, graphemes)
    ensures db.Valid()
  {
    var chat := m.chatId;
    var user := SenderId(m);
    var username := Username(m);
    if command == "pig" {
      effects := PigCommand(db, username, NewPig(chat, user, username, NameArg(args, d.nameDraw)));
    } else if command == "grow" || command == "гров" {
      effects := GrowCommand(db, chat, user, username, NameArg(args, d.nameDraw), cfg, d);
    } else if command == "my" {
      effects := MyCommand(db, chat, user, m.messageId);
    } else if command == "pigstats" {
      effects := PigStatsCommand(db, chat, user, args);
    } else if command == "top" {
      effects := TopCommand(db, chat);
    } else if command == "name" {
      effects := NameCommand(db, chat, m.messageId, user, OwnerName(m), args, graphemes);
    } else {
      effects := [Send(chat, UnknownPigCommand)];
    }
  }
}
