/** What routing through the module registry promises, whatever order the registry is visited in. */
module RouterFacts {
  import opened Wrappers
  import opened Table
  import opened Transport
  import opened Messages
  import opened Text
  import opened Commands
  import opened LegacyPigGame
  import opened Nahruk
  import opened Reactions
  import opened Router

  /** The command words some module declares: those of the pig game's list. */
  lemma DeclaredWords(b: BotModule, command: string)
    ensures Declares(b, command) <==> b.PigGame? && command in ["pig", "feed", "mypig", "pigstats"]
  {
    if b.PigGame? && command in ["pig", "feed", "mypig", "pigstats"] {
      var i :| 0 <= i < 4 && ["pig", "feed", "mypig", "pigstats"][i] == command;
      assert CommandsOf(b)[i].0 == command;
    }
  }

  /**
   * A command is handled exactly when a registered module declares it, and then
   * by the pig game's `handle_command`: nothing else declares commands.
   */
  lemma RoutesToPigGame(s: Store, mods: seq<BotModule>, m: Incoming, command: string, args: seq<string>,
                        now: real, nameDraw: NameDraw)
    ensures var r := RouteCommandOp(s, mods, m, command, args, now, nameDraw);
            && (r.handled <==> PigGame in mods && command in ["pig", "feed", "mypig", "pigstats"])
            && (r.handled ==> (r.store, r.effects) == HandleCommandOp(s, m, command, args, now, nameDraw))
            && (!r.handled ==> r.store == s && r.effects == [])
  {
    forall j | 0 <= j < |mods| ensures Declares(mods[j], command) <==> mods[j].PigGame? && command in ["pig", "feed", "mypig", "pigstats"] {
      DeclaredWords(mods[j], command);
    }
    if PigGame in mods && command in ["pig", "feed", "mypig", "pigstats"] {
      var j :| 0 <= j < |mods| && mods[j] == PigGame;
      assert Declares(mods[j], command);
    }
  }

  /**
   * `/grow`, `/my`, `/top` and `/name` are declared by no module, so the registry
   * never routes them: the command handler that serves them is not reachable.
   */
  lemma NewerCommandsUnrouted(s: Store, mods: seq<BotModule>, m: Incoming, command: string, args: seq<string>,
                              now: real, nameDraw: NameDraw)
    requires command in ["grow", "гров", "my", "top", "name"]
    ensures !RouteCommandOp(s, mods, m, command, args, now, nameDraw).handled
  {
    RoutesToPigGame(s, mods, m, command, args, now, nameDraw);
  }

  /** The registry of `main` files each module under its own name. */
  lemma RegistryByName(b: BotModule)
    ensures Name(b) in Registry && Registry[Name(b)] == b
  {
    assert Name(PigGame)[0] == 'P' && Name(PowerfulNahruk)[1] == 'o' && Name(ReactionsModule)[0] == 'R';
    assert Name(PigGame)[1] == 'i';
  }

  /** Whatever order the registry of `main` is visited in, each of its modules comes up. */
  lemma RegistryVisitsEach(order: seq<string>, b: BotModule)
    requires forall k | k in order :: k in Registry
    requires forall k | k in Registry :: k in order
    ensures b in InOrder(Registry, order)
  {
    RegistryByName(b);
    var i :| 0 <= i < |order| && order[i] == Name(b);
    assert InOrder(Registry, order)[i] == b;
  }

  /** A module that declines a message sends nothing. */
  lemma DeclinedSendsNothing(b: BotModule, m: Incoming, draw: ReactionDraw)
    ensures !OnMessage(b, m, draw).handled ==> OnMessage(b, m, draw).effects == []
  {
    HandledIffReplied(m);
    ReactsIffLowByte(m, draw);
  }

  /** Position of the first module that takes the message. */
  function FirstTaker(mods: seq<BotModule>, m: Incoming, draw: ReactionDraw): (r: Option<nat>)
    ensures r.Some? ==> r.value < |mods| && OnMessage(mods[r.value], m, draw).handled
    ensures r.Some? ==> forall j | 0 <= j < r.value :: !OnMessage(mods[j], m, draw).handled
    ensures r.None? <==> forall j | 0 <= j < |mods| :: !OnMessage(mods[j], m, draw).handled
  {
    if mods == [] then None
    else if OnMessage(mods[0], m, draw).handled then Some(0)
    else
      match FirstTaker(mods[1..], m, draw)
      case None => None
      case Some(i) => Some(i + 1)
  }

  /**
   * Exactly one module answers a message: the first that takes it, whose
   * messages are all that is sent; when none takes it nothing is sent.
   */
  lemma {:induction false} FirstTakerAnswers(mods: seq<BotModule>, m: Incoming, draw: ReactionDraw)
    ensures MessageRound(mods, m, draw)
              == match FirstTaker(mods, m, draw)
                 case None => []
                 case Some(i) => OnMessage(mods[i], m, draw).effects
  {
    if mods != [] {
      DeclinedSendsNothing(mods[0], m, draw);
      FirstTakerAnswers(mods[1..], m, draw);
    }
  }

  /**
   * The visiting order decides which module answers: a message with a trigger
   * word is blocked when the nahruk module comes first, and only gets a
   * reaction when the reactions module comes first and its draw fires.
   */
  lemma OrderDecides(m: Incoming, draw: ReactionDraw)
    requires m.text.Some? && Contains(m.text.value, "хохол") && draw.byte < 25
    ensures MessageRound([PowerfulNahruk, ReactionsModule], m, draw) == [Reply(m.chatId, m.messageId, Blocked)]
    ensures MessageRound([ReactionsModule, PowerfulNahruk], m, draw) == [React(m.chatId, m.messageId, Emoji[draw.pick])]
  {
    assert Triggers[1] == "хохол";
    HandledIffReplied(m);
    ReactsIffLowByte(m, draw);
  }

  /** The help holds a name line and a blank line per module, and one line per command. */
  lemma {:induction false} HelpLength(mods: seq<BotModule>)
    ensures |HelpLines(mods)| == 2 * |mods| + CommandCount(mods)
  {
    if mods != [] {
      HelpLength(mods[1..]);
    }
  }

  /** Every command a module declares is listed in the help, with its description. */
  lemma {:induction false} HelpListsEveryCommand(mods: seq<BotModule>, j: nat, i: nat)
    requires j < |mods| && i < |CommandsOf(mods[j])|
    ensures "/" + CommandsOf(mods[j])[i].0 + " - " + CommandsOf(mods[j])[i].1 in HelpLines(mods)
  {
    if j == 0 {
      assert ModuleLines(mods[0])[1 + i] == "/" + CommandsOf(mods[0])[i].0 + " - " + CommandsOf(mods[0])[i].1;
    } else {
      HelpListsEveryCommand(mods[1..], j - 1, i);
    }
  }

  /** Every module has its name line in the help. */
  lemma {:induction false} HelpNamesEveryModule(mods: seq<BotModule>, j: nat)
    requires j < |mods|
    ensures Name(mods[j]) + ":" in HelpLines(mods)
  {
    if j > 0 {
      HelpNamesEveryModule(mods[1..], j - 1);
    }
  }

  /** The help has no lines, so `main` prints "No commands available", exactly when no module is registered. */
  lemma HelpEmptyIffNoModules(mods: seq<BotModule>)
    ensures HelpLines(mods) == [] <==> mods == []
  {
    HelpLength(mods);
  }
}
