/**
 * The bot's message endpoint (`handle_message` in `main`): a text starting with
 * `/` is split into a command word and arguments; `/help` is answered with the
 * help listing; another command goes to the module registry; whatever no module
 * handled as a command is offered to the modules as a plain message.
 */
module Entry {
  import opened Wrappers
  import opened Text
  import opened Table
  import opened Db
  import opened Messages
  import opened Transport
  import opened Commands
  import opened Reactions
  import opened Router

  /** `char::is_whitespace`: the Unicode White_Space characters, by code point. */
  predicate IsWhitespace(c: char) {
    var n := c as int;
    || 0x09 <= n <= 0x0D || n == 0x20 || n == 0x85 || n == 0xA0 || n == 0x1680
    || 0x2000 <= n <= 0x200A || n == 0x2028 || n == 0x2029 || n == 0x202F || n == 0x205F || n == 0x3000
  }

  /** A word: at least one character and no whitespace. */
  predicate IsWord(w: string) {
    |w| > 0 && forall i | 0 <= i < |w| :: !IsWhitespace(w[i])
  }

  /** The length of the run of non-whitespace characters `s` starts with. */
  function WordLength(s: string): (n: nat)
    ensures n <= |s|
    ensures forall i | 0 <= i < n :: !IsWhitespace(s[i])
    ensures n < |s| ==> IsWhitespace(s[n])
  {
    if s == [] || IsWhitespace(s[0]) then 0 else 1 + WordLength(s[1..])
  }

  /** `str::split_whitespace`: the maximal runs of non-whitespace characters, in order. */
  function SplitWhitespace(s: string): seq<string>
    decreases |s|
  {
    if s == [] then []
    else if IsWhitespace(s[0]) then SplitWhitespace(s[1..])
    else
      var n := WordLength(s);
      [s[..n]] + SplitWhitespace(s[n..])
  }

  /** The characters of `s` that are not whitespace, in order. */
  function NonBlank(s: string): string {
    if s == [] then [] else (if IsWhitespace(s[0]) then [] else [s[0]]) + NonBlank(s[1..])
  }

  function Concat(words: seq<string>): string {
    if words == [] then [] else words[0] + Concat(words[1..])
  }

  datatype Command = Command(word: string, args: seq<string>)

  /** A text starting with `/` whose remainder holds at least one word. */
  function ParseCommand(text: Option<string>): Option<Command> {
    if text.None? || !StartsWith(text.value, "/") then None
    else
      var parts := SplitWhitespace(text.value[1..]);
      if parts == [] then None else Some(Command(parts[0], parts[1..]))
  }

  /** The whole endpoint, against the store, for a registry visited as `mods`. */
  function HandleMessageOp(s: Store, mods: seq<BotModule>, m: Incoming, now: real, nameDraw: NameDraw,
                           draw: ReactionDraw): (Store, seq<Effect>)
  {
    match ParseCommand(m.text)
    case Some(Command(word, args)) =>
      if word == "help" then (s, [Send(m.chatId, Help(HelpLines(mods)))])
      else
        var r := RouteCommandOp(s, mods, m, word, args, now, nameDraw);
        if r.handled then (r.store, r.effects) else (r.store, r.effects + MessageRound(mods, m, draw))
    case None => (s, MessageRound(mods, m, draw))
  }

  // ---------------------------------------------------------------- splitting

  /** Every piece `split_whitespace` gives is a word. */
  lemma {:induction false} SplitGivesWords(s: string)
    ensures forall i | 0 <= i < |SplitWhitespace(s)| :: IsWord(SplitWhitespace(s)[i])
    decreases |s|
  {
    if s != [] {
      if IsWhitespace(s[0]) {
        SplitGivesWords(s[1..]);
      } else {
        SplitGivesWords(s[WordLength(s)..]);
      }
    }
  }

  /** The words together hold every non-whitespace character of the text, in order, and nothing else. */
  lemma {:induction false} SplitKeepsText(s: string)
    ensures Concat(SplitWhitespace(s)) == NonBlank(s)
    decreases |s|
  {
    if s != [] {
      if IsWhitespace(s[0]) {
        SplitKeepsText(s[1..]);
      } else {
        var n := WordLength(s);
        SplitKeepsText(s[n..]);
        WordIsNonBlank(s, n);
        assert SplitWhitespace(s) == [s[..n]] + SplitWhitespace(s[n..]);
      }
    }
  }

  /** A leading run of `n` non-whitespace characters survives `NonBlank` whole. */
  lemma {:induction false} WordIsNonBlank(s: string, n: nat)
    requires n <= |s| && forall i | 0 <= i < n :: !IsWhitespace(s[i])
    ensures NonBlank(s) == s[..n] + NonBlank(s[n..])
    decreases n
  {
    if n > 0 {
      WordIsNonBlank(s[1..], n - 1);
      assert s[1..][..n - 1] == s[1..n];
      assert s[1..][n - 1..] == s[n..];
    }
  }

  /** Splitting what was joined with single spaces gives the words back. */
  lemma {:induction false} SplitJoin(words: seq<string>)
    requires forall i | 0 <= i < |words| :: IsWord(words[i])
    ensures SplitWhitespace(Join(" ", words)) == words
    decreases |words|
  {
    if |words| == 1 {
      WordRun(words[0], "");
      assert words[0] + "" == words[0];
    } else if |words| > 1 {
      var rest := Join(" ", words[1..]);
      SplitJoin(words[1..]);
      WordRun(words[0], " " + rest);
      SpaceSkipped(rest);
      assert Join(" ", words) == words[0] + (" " + rest);
    }
  }

  lemma SpaceSkipped(rest: string)
    ensures SplitWhitespace(" " + rest) == SplitWhitespace(rest)
  {
    assert (" " + rest)[1..] == rest;
  }

  /** `split_whitespace` finds nothing exactly in an all-whitespace text. */
  lemma {:induction false} SplitEmptyIffBlank(s: string)
    ensures SplitWhitespace(s) == [] <==> forall i | 0 <= i < |s| :: IsWhitespace(s[i])
    decreases |s|
  {
    if s != [] && IsWhitespace(s[0]) {
      SplitEmptyIffBlank(s[1..]);
      forall i | 0 < i < |s| ensures s[i] == s[1..][i - 1] { }
    }
  }

  /** A word followed by whitespace or nothing is split off first. */
  lemma {:induction false} WordRun(w: string, tail: string)
    requires IsWord(w) && (tail == [] || IsWhitespace(tail[0]))
    ensures WordLength(w + tail) == |w|
    ensures SplitWhitespace(w + tail) == [w] + SplitWhitespace(tail)
    decreases |w|
  {
    var s := w + tail;
    if |w| == 1 {
      assert s[1..] == tail;
    } else {
      WordRun(w[1..], tail);
      assert s[1..] == w[1..] + tail;
    }
    assert s[..|w|] == w && s[|w|..] == tail;
  }

  /** A command written as `/word arg arg…` parses back into that word and those arguments. */
  lemma ParseWrittenCommand(word: string, args: seq<string>)
    requires IsWord(word) && forall i | 0 <= i < |args| :: IsWord(args[i])
    ensures ParseCommand(Some("/" + Join(" ", [word] + args))) == Some(Command(word, args))
  {
    var words := [word] + args;
    var body := Join(" ", words);
    forall i | 0 <= i < |words| ensures IsWord(words[i]) {
      if i > 0 {
        assert words[i] == args[i - 1];
      }
    }
    SplitJoin(words);
    var text := "/" + body;
    assert text[..1] == "/" && text[1..] == body;
    assert SplitWhitespace(text[1..]) == words;
    assert words[0] == word && words[1..] == args;
  }

  // ---------------------------------------------------------------- the endpoint

  method HandleMessage(manager: ModuleManager, db: Database, m: Incoming, order: seq<string>, now: real,
                       nameDraw: NameDraw, draw: ReactionDraw) returns (effects: seq<Effect>)
    requires manager.IterationOrder(order) && db.Valid()
    modifies db
    ensures (db.State(), effects) == HandleMessageOp(old(db.State()), manager.Visit(order), m, now, nameDraw, draw)
    ensures db.Valid()
  {
    ghost var s := db.State();
    ghost var mods := manager.Visit(order);
    var command := ParseCommand(m.text);
    if command.None? {
      effects := manager.HandleMessage(m, order, draw);
      return;
    }
    var Command(word, args) := command.value;
    if word == "help" {
      var lines := manager.GetAllCommands(order);
      return [Send(m.chatId, Help(lines))];
    }
    var handled, routed := manager.HandleCommand(db, m, word, args, order, now, nameDraw);
    if handled {
      return routed;
    }
    var plain := manager.HandleMessage(m, order, draw);
    effects := routed + plain;
    ghost var r := RouteCommandOp(s, mods, m, word, args, now, nameDraw);
    assert r == Routed(db.State(), false, routed);
  }
}
