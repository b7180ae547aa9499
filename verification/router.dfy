/**
 * The module registry (`ModuleManager`): modules keyed by name, a command
 * routed to the first module that declares it, a plain message offered to the
 * modules in turn until one takes it, and the help listing.
 *
 * The registry is a hash map, so the order the modules are visited in is not
 * fixed by the program; every operation takes that order as `order`, a
 * duplicate-free listing of the registered names.
 */
module Router {
  import opened Wrappers
  import opened Table
  import opened Db
  import opened Transport
  import opened Commands
  import opened LegacyPigGame
  import opened Nahruk
  import opened Reactions

  /** The three modules the bot is built with. */
  datatype BotModule = PigGame | PowerfulNahruk | ReactionsModule

  function Name(b: BotModule): string {
    match b
    case PigGame => "Pig Game"
    case PowerfulNahruk => "Powerfull Nahruk"
    case ReactionsModule => "Reactions Module"
  }

  /** The (command, description) pairs a module declares; only the pig game declares any. */
  function CommandsOf(b: BotModule): seq<(string, string)> {
    if b.PigGame? then CommandList else []
  }

  predicate Declares(b: BotModule, command: string) {
    exists i | 0 <= i < |CommandsOf(b)| :: CommandsOf(b)[i].0 == command
  }

  /** A module's `handle_command`; the two modules without commands do nothing. */
  function InvokeCommand(s: Store, b: BotModule, m: Incoming, command: string, args: seq<string>, now: real,
                         nameDraw: NameDraw): (Store, seq<Effect>)
  {
    if b.PigGame? then HandleCommandOp(s, m, command, args, now, nameDraw) else (s, [])
  }

  /** A module's `handle_message`; the pig game keeps the default, which declines. */
  function OnMessage(b: BotModule, m: Incoming, draw: ReactionDraw): Handling {
    match b
    case PigGame => Handling(false, [])
    case PowerfulNahruk => NahrukOp(m)
    case ReactionsModule => ReactOp(m, draw)
  }

  /** Position of the first module in `mods` that declares `command`. */
  function FirstDeclaring(mods: seq<BotModule>, command: string): (r: Option<nat>)
    ensures r.Some? ==> r.value < |mods| && Declares(mods[r.value], command)
    ensures r.Some? ==> forall j | 0 <= j < r.value :: !Declares(mods[j], command)
    ensures r.None? <==> forall j | 0 <= j < |mods| :: !Declares(mods[j], command)
  {
    if mods == [] then None
    else if Declares(mods[0], command) then Some(0)
    else
      match FirstDeclaring(mods[1..], command)
      case None => None
      case Some(i) => Some(i + 1)
  }

  /** What routing a command did: the store after, whether a module took it, and what was sent. */
  datatype Routed = Routed(store: Store, handled: bool, effects: seq<Effect>)

  /** `handle_command`: the first module declaring the command handles it. */
  function RouteCommandOp(s: Store, mods: seq<BotModule>, m: Incoming, command: string, args: seq<string>,
                          now: real, nameDraw: NameDraw): Routed
  {
    match FirstDeclaring(mods, command)
    case None => Routed(s, false, [])
    case Some(i) =>
      var (t, e) := InvokeCommand(s, mods[i], m, command, args, now, nameDraw);
      Routed(t, true, e)
  }

  /** `handle_message`: offer the message to each module in turn, stopping after the first that takes it. */
  function MessageRound(mods: seq<BotModule>, m: Incoming, draw: ReactionDraw): seq<Effect> {
    if mods == [] then []
    else
      var h := OnMessage(mods[0], m, draw);
      if h.handled then h.effects else h.effects + MessageRound(mods[1..], m, draw)
  }

  /** The round so far plus the module at `i`: either the whole round, or the prefix before `i + 1`. */
  lemma RoundAdvance(mods: seq<BotModule>, i: nat, sofar: seq<Effect>, m: Incoming, draw: ReactionDraw)
    requires i < |mods| && sofar + MessageRound(mods[i..], m, draw) == MessageRound(mods, m, draw)
    ensures var h := OnMessage(mods[i], m, draw);
            && (h.handled ==> sofar + h.effects == MessageRound(mods, m, draw))
            && (!h.handled ==> (sofar + h.effects) + MessageRound(mods[i + 1..], m, draw) == MessageRound(mods, m, draw))
  {
    assert mods[i..][1..] == mods[i + 1..];
    Regroup(sofar, OnMessage(mods[i], m, draw).effects, MessageRound(mods[i + 1..], m, draw));
  }

  function CommandLines(cs: seq<(string, string)>): (lines: seq<string>)
    ensures |lines| == |cs|
  {
    seq(|cs|, i requires 0 <= i < |cs| => "/" + cs[i].0 + " - " + cs[i].1)
  }

  /** A module's block of the help: its name, one line per command, then a blank line. */
  function ModuleLines(b: BotModule): seq<string> {
    [Name(b) + ":"] + CommandLines(CommandsOf(b)) + [""]
  }

  /** `get_all_commands`: every module's block, in visiting order. */
  function HelpLines(mods: seq<BotModule>): seq<string> {
    if mods == [] then [] else ModuleLines(mods[0]) + HelpLines(mods[1..])
  }

  /** The number of commands the modules declare between them. */
  function CommandCount(mods: seq<BotModule>): nat {
    if mods == [] then 0 else |CommandsOf(mods[0])| + CommandCount(mods[1..])
  }

  /** The modules of `registry` listed in `order`. */
  function InOrder(registry: map<string, BotModule>, order: seq<string>): (mods: seq<BotModule>)
    requires forall k | k in order :: k in registry
    ensures |mods| == |order|
    ensures forall i | 0 <= i < |order| :: mods[i] == registry[order[i]]
  {
    seq(|order|, i requires 0 <= i < |order| => registry[order[i]])
  }

  /** The registry `main` builds: the three modules under their names. */
  const Registry: map<string, BotModule> :=
    map[Name(PigGame) := PigGame, Name(PowerfulNahruk) := PowerfulNahruk, Name(ReactionsModule) := ReactionsModule]

  class ModuleManager {
    var modules: map<string, BotModule>

    /** `ModuleManager::new`: no modules. */
    constructor()
      ensures modules == map[]
    {
      modules := map[];
    }

    /** `order` lists every registered name exactly once. */
    predicate IterationOrder(order: seq<string>)
      reads this
    {
      && (forall k | k in order :: k in modules) && (forall k | k in modules :: k in order)
      && (forall i, j | 0 <= i < j < |order| :: order[i] != order[j])
    }

    /** The registered modules in visiting order. */
    function Visit(order: seq<string>): (mods: seq<BotModule>)
      reads this
      requires IterationOrder(order)
      ensures |mods| == |order|
    {
      InOrder(modules, order)
    }

    /** What `main` does before dispatching: register the pig game, the nahruk module and the reactions. */
    static method BuildRegistry() returns (manager: ModuleManager)
      ensures fresh(manager)
      ensures manager.modules == Registry
    {
      manager := new ModuleManager();
      manager.RegisterModule(PigGame);
      manager.RegisterModule(PowerfulNahruk);
      manager.RegisterModule(ReactionsModule);
    }

    /** `register_module`: file the module under its name, replacing one of the same name. */
    method RegisterModule(b: BotModule)
      modifies this
      ensures modules == old(modules)[Name(b) := b]
    {
      modules := modules[Name(b) := b];
    }

    /** `module.commands().iter().any(|(cmd, _)| *cmd == command)` */
    static method DeclaresCommand(b: BotModule, command: string) returns (found: bool)
      ensures found <==> Declares(b, command)
    {
      var cs := CommandsOf(b);
      var i := 0;
      while i < |cs|
        invariant 0 <= i <= |cs|
        invariant forall j | 0 <= j < i :: cs[j].0 != command
      {
        if cs[i].0 == command {
          return true;
        }
        i := i + 1;
      }
      return false;
    }

    method HandleCommand(db: Database, m: Incoming, command: string, args: seq<string>, order: seq<string>,
                         now: real, nameDraw: NameDraw) returns (handled: bool, effects: seq<Effect>)
      requires IterationOrder(order) && db.Valid()
      modifies db
      ensures Routed(db.State(), handled, effects)
                == RouteCommandOp(old(db.State()), Visit(order), m, command, args, now, nameDraw)
      ensures db.Valid()
    {
      ghost var s := db.State();
      var mods := Visit(order);
      var i := 0;
      while i < |mods|
        invariant 0 <= i <= |mods|
        invariant forall j | 0 <= j < i :: !Declares(mods[j], command)
        invariant db.State() == s && db.Valid()
      {
        var found := DeclaresCommand(mods[i], command);
        if found {
          RouteAt(s, mods, m, command, args, now, nameDraw, i);
          if mods[i].PigGame? {
            effects := LegacyPigGame.HandleCommand(db, m, command, args, now, nameDraw);
          } else {
            effects := [];
          }
          return true, effects;
        }
        i := i + 1;
      }
      RouteNone(s, mods, m, command, args, now, nameDraw);
      return false, [];
    }

    method HandleMessage(m: Incoming, order: seq<string>, draw: ReactionDraw) returns (effects: seq<Effect>)
      requires IterationOrder(order)
      ensures effects == MessageRound(Visit(order), m, draw)
    {
      var mods := Visit(order);
      effects := [];
      var i := 0;
      while i < |mods|
        invariant 0 <= i <= |mods|
        invariant effects + MessageRound(mods[i..], m, draw) == MessageRound(mods, m, draw)
      {
        var h := OnMessage(mods[i], m, draw);
        RoundAdvance(mods, i, effects, m, draw);
        effects := effects + h.effects;
        if h.handled {
          return;
        }
        i := i + 1;
      }
      assert mods[i..] == [];
      assert effects + [] == effects;
    }

    /** One module's block of the help, built line by line. */
    static method Block(name: string, cs: seq<(string, string)>) returns (block: seq<string>)
      ensures block == [name + ":"] + CommandLines(cs) + [""]
    {
      block := [name + ":"];
      var k := 0;
      while k < |cs|
        invariant 0 <= k <= |cs|
        invariant block == [name + ":"] + CommandLines(cs[..k])
      {
        CommandLinesSnoc(cs, k);
        block := block + ["/" + cs[k].0 + " - " + cs[k].1];
        k := k + 1;
      }
      assert cs[..k] == cs;
      block := block + [""];
    }

    method GetAllCommands(order: seq<string>) returns (lines: seq<string>)
      requires IterationOrder(order)
      ensures lines == HelpLines(Visit(order))
    {
      var mods := Visit(order);
      lines := [];
      var i := 0;
      while i < |mods|
        invariant 0 <= i <= |mods|
        invariant lines + HelpLines(mods[i..]) == HelpLines(mods)
      {
        var block := Block(Name(mods[i]), CommandsOf(mods[i]));
        HelpAdvance(mods, i, lines);
        lines := lines + block;
        i := i + 1;
      }
      assert mods[i..] == [];
      assert lines + [] == lines;
    }
  }

  /** The help so far plus the block of the module at `i`. */
  lemma HelpAdvance(mods: seq<BotModule>, i: nat, sofar: seq<string>)
    requires i < |mods| && sofar + HelpLines(mods[i..]) == HelpLines(mods)
    ensures (sofar + ModuleLines(mods[i])) + HelpLines(mods[i + 1..]) == HelpLines(mods)
  {
    HelpAt(mods, i);
    Regroup(sofar, ModuleLines(mods[i]), HelpLines(mods[i + 1..]));
  }

  lemma HelpAt(mods: seq<BotModule>, i: nat)
    requires i < |mods|
    ensures HelpLines(mods[i..]) == ModuleLines(mods[i]) + HelpLines(mods[i + 1..])
  {
    assert mods[i..][1..] == mods[i + 1..];
  }

  lemma Regroup<T>(a: seq<T>, b: seq<T>, c: seq<T>)
    ensures (a + b) + c == a + (b + c)
  {
  }

  /** Routing when the module at `i` is the first to declare the command. */
  lemma RouteAt(s: Store, mods: seq<BotModule>, m: Incoming, command: string, args: seq<string>, now: real,
                nameDraw: NameDraw, i: nat)
    requires i < |mods| && Declares(mods[i], command)
    requires forall j | 0 <= j < i :: !Declares(mods[j], command)
    ensures var (t, e) := InvokeCommand(s, mods[i], m, command, args, now, nameDraw);
            RouteCommandOp(s, mods, m, command, args, now, nameDraw) == Routed(t, true, e)
  {
    assert FirstDeclaring(mods, command) == Some(i);
  }

  /** Routing when no module declares the command. */
  lemma RouteNone(s: Store, mods: seq<BotModule>, m: Incoming, command: string, args: seq<string>, now: real,
                  nameDraw: NameDraw)
    requires forall j | 0 <= j < |mods| :: !Declares(mods[j], command)
    ensures RouteCommandOp(s, mods, m, command, args, now, nameDraw) == Routed(s, false, [])
  {
  }

  lemma CommandLinesSnoc(cs: seq<(string, string)>, k: nat)
    requires k < |cs|
    ensures CommandLines(cs[..k + 1]) == CommandLines(cs[..k]) + ["/" + cs[k].0 + " - " + cs[k].1]
  {
  }
}
