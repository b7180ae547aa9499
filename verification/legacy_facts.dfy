/** What the registry's pig commands promise, over every store and every fault schedule. */
module LegacyFacts {
  import opened Wrappers
  import opened Text
  import opened Schema
  import opened Table
  import opened Messages
  import opened Transport
  import opened Commands
  import opened CommandFacts
  import opened LegacyPigGame

  /** The fixed feeding rewrites only the fed pig's row and keeps the store well-formed. */
  lemma FeedFixedOwnRow(s: Store, pig: Pig, now: real)
    requires WellFormed(s) && Lookup(s.pigs, pig.chatId, pig.userId) == Some(pig)
    ensures OwnRowOnly(s, FeedFixedOp(s, pig, now).store, pig.chatId, pig.userId)
    ensures WellFormed(FeedFixedOp(s, pig, now).store)
  {
    var fed := pig.(lastFeed := now, weight := pig.weight + FeedGain);
    UpdateOverwrites(s, fed);
    UpdateKeepsWellFormed(s, fed);
  }

  /** `/feed` for a user without a pig creates none: no table changes and the answer is the hint or the error. */
  lemma FeedNeverCreates(s: Store, chat: int, user: int, now: real)
    requires Lookup(s.pigs, chat, user).None?
    ensures var (t, e) := FeedCommandOp(s, chat, user, now);
            && SameTables(s, t)
            && e == [Send(chat, if Fails(s) then DatabaseError else NoPigHint)]
  {
  }

  /** `/feed` touches at most the sender's row and sends one message. */
  lemma FeedCommandOwnRow(s: Store, chat: int, user: int, now: real)
    requires WellFormed(s)
    ensures var (t, e) := FeedCommandOp(s, chat, user, now);
            OwnRowOnly(s, t, chat, user) && WellFormed(t) && OneMessageTo(e, chat)
  {
    var got := Lookup(s.pigs, chat, user);
    if !Fails(s) && got.Some? {
      assert HasKey(got.value, chat, user);
      FeedFixedOwnRow(Tick(s), got.value, now);
    }
  }

  /**
   * `/mypig`, `/pigstats` and unknown words change no table and send one message;
   * an unknown word gets the fixed "unknown pig command" reply without a store call.
   */
  lemma LegacyReadOnly(s: Store, m: Incoming, command: string, args: seq<string>, now: real, nameDraw: NameDraw)
    requires command != "pig" && command != "feed"
    ensures var (t, e) := HandleCommandOp(s, m, command, args, now, nameDraw);
            && SameTables(s, t) && OneMessageTo(e, m.chatId)
            && (command != "mypig" && command != "pigstats" ==> t == s && e == [Send(m.chatId, UnknownPigCommand)])
  {
  }

  /**
   * Each registry command touches only the sender's own row, answers with one
   * message in the chat it came from, and only `/pig` and `/feed` change a table.
   */
  lemma LegacyTouchesOnlyOwnRow(s: Store, m: Incoming, command: string, args: seq<string>, now: real,
                                nameDraw: NameDraw)
    requires WellFormed(s)
    ensures var (t, e) := HandleCommandOp(s, m, command, args, now, nameDraw);
            && OwnRowOnly(s, t, m.chatId, SenderId(m)) && WellFormed(t) && OneMessageTo(e, m.chatId)
            && (command != "pig" && command != "feed" ==> SameTables(s, t))
  {
    var chat, user := m.chatId, SenderId(m);
    if command == "pig" {
      var draft := StarterPig(chat, user, Username(m), NameArg(args, nameDraw));
      assert HandleCommandOp(s, m, command, args, now, nameDraw) == PigOp(s, Username(m), draft);
      PigOwnRow(s, Username(m), draft);
    } else if command == "feed" {
      assert HandleCommandOp(s, m, command, args, now, nameDraw) == FeedCommandOp(s, chat, user, now);
      FeedCommandOwnRow(s, chat, user, now);
    } else {
      LegacyReadOnly(s, m, command, args, now, nameDraw);
    }
  }
}
