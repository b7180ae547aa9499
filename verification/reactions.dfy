/** The reactions module: now and then puts an emoji reaction on a message. */
module Reactions {
  import opened Transport

  /** The emoji it picks from. */
  const Emoji: seq<string> := ["🤡", "💩", "🤣", "💊", "😁", "😨"]

  /** A random byte. */
  type Byte = b: nat | b < 256

  /** A random index into `Emoji`. */
  type Pick = i: nat | i < 6

  /** The two random draws `react_to_message` makes. */
  datatype ReactionDraw = ReactionDraw(byte: Byte, pick: Pick)

  /** `react_to_message`: an emoji when the byte is below 25, nothing otherwise. */
  function ReactToMessage(d: ReactionDraw): (emoji: string)
    ensures emoji == "" || emoji in Emoji
  {
    if d.byte < 25 then Emoji[d.pick] else ""
  }

  /** `handle_message`: react with the chosen emoji, which counts as handling the message. */
  function ReactOp(m: Incoming, d: ReactionDraw): Handling {
    var emoji := ReactToMessage(d);
    if emoji != "" then Handling(true, [React(m.chatId, m.messageId, emoji)]) else Handling(false, [])
  }

  /** The module reacts exactly when the byte is below 25, with the picked emoji. */
  lemma ReactsIffLowByte(m: Incoming, d: ReactionDraw)
    ensures var Handling(handled, e) := ReactOp(m, d);
            && (handled <==> d.byte < 25)
            && (handled ==> e == [React(m.chatId, m.messageId, Emoji[d.pick])])
            && (!handled ==> e == [])
  {
    if d.byte < 25 {
      assert |Emoji[d.pick]| > 0;
    }
  }

  /** Every emoji can come up. */
  lemma EveryEmojiReachable(m: Incoming, i: nat)
    requires i < |Emoji|
    ensures ReactOp(m, ReactionDraw(0, i)).effects == [React(m.chatId, m.messageId, Emoji[i])]
  {
    ReactsIffLowByte(m, ReactionDraw(0, i));
  }
}
