/** What the message endpoint does with each kind of text, end to end. */
module EntryFacts {
  import opened Wrappers
  import opened Text
  import opened Table
  import opened Messages
  import opened Transport
  import opened Commands
  import opened LegacyPigGame
  import opened Reactions
  import opened Router
  import opened RouterFacts
  import opened Entry

  /** A text that does not start with `/` (or no text at all) only goes round the modules. */
  lemma PlainTextGoesRound(s: Store, mods: seq<BotModule>, m: Incoming, now: real, nameDraw: NameDraw,
                           draw: ReactionDraw)
    requires m.text.None? || !StartsWith(m.text.value, "/")
    ensures HandleMessageOp(s, mods, m, now, nameDraw, draw) == (s, MessageRound(mods, m, draw))
  {
  }

  /** A `/` followed only by whitespace carries no command word and also only goes round the modules. */
  lemma BlankCommandGoesRound(s: Store, mods: seq<BotModule>, m: Incoming, rest: string, now: real,
                              nameDraw: NameDraw, draw: ReactionDraw)
    requires m.text == Some("/" + rest) && forall i | 0 <= i < |rest| :: IsWhitespace(rest[i])
    ensures HandleMessageOp(s, mods, m, now, nameDraw, draw) == (s, MessageRound(mods, m, draw))
  {
    SplitEmptyIffBlank(rest);
    assert m.text.value[1..] == rest;
  }

  /** `/help`, with any arguments, is answered with the listing and touches nothing else. */
  lemma HelpAnswered(s: Store, mods: seq<BotModule>, m: Incoming, args: seq<string>, now: real,
                     nameDraw: NameDraw, draw: ReactionDraw)
    requires forall i | 0 <= i < |args| :: IsWord(args[i])
    requires m.text == Some("/" + Join(" ", ["help"] + args))
    ensures HandleMessageOp(s, mods, m, now, nameDraw, draw) == (s, [Send(m.chatId, Help(HelpLines(mods)))])
  {
    ParseWrittenCommand("help", args);
  }

  /**
   * Any other written command: the legacy pig commands are answered by the pig
   * game alone when it is registered; everything else, `/grow`, `/my`, `/top` and
   * `/name` included, leaves the store alone and only goes round the modules.
   */
  lemma CommandRouted(s: Store, mods: seq<BotModule>, m: Incoming, word: string, args: seq<string>, now: real,
                      nameDraw: NameDraw, draw: ReactionDraw)
    requires IsWord(word) && word != "help" && forall i | 0 <= i < |args| :: IsWord(args[i])
    requires m.text == Some("/" + Join(" ", [word] + args))
    ensures PigGame in mods && word in ["pig", "feed", "mypig", "pigstats"] ==>
              HandleMessageOp(s, mods, m, now, nameDraw, draw) == HandleCommandOp(s, m, word, args, now, nameDraw)
    ensures !(PigGame in mods && word in ["pig", "feed", "mypig", "pigstats"]) ==>
              HandleMessageOp(s, mods, m, now, nameDraw, draw) == (s, MessageRound(mods, m, draw))
  {
    ParseWrittenCommand(word, args);
    ParsedCommandRouted(s, mods, m, word, args, now, nameDraw, draw);
    RoutesToPigGame(s, mods, m, word, args, now, nameDraw);
    var r := RouteCommandOp(s, mods, m, word, args, now, nameDraw);
    if !r.handled {
      assert r.effects + MessageRound(mods, m, draw) == MessageRound(mods, m, draw);
    }
  }

  /** A parsed command other than `help` goes to the registry, and on to the modules when none handles it. */
  lemma ParsedCommandRouted(s: Store, mods: seq<BotModule>, m: Incoming, word: string, args: seq<string>,
                            now: real, nameDraw: NameDraw, draw: ReactionDraw)
    requires ParseCommand(m.text) == Some(Command(word, args)) && word != "help"
    ensures var r := RouteCommandOp(s, mods, m, word, args, now, nameDraw);
            HandleMessageOp(s, mods, m, now, nameDraw, draw)
              == if r.handled then (r.store, r.effects) else (r.store, r.effects + MessageRound(mods, m, draw))
  {
  }
}
