/** The "powerful nahruk" module: replies to messages that contain a trigger word. */
module Nahruk {
  import opened Wrappers
  import opened Text
  import opened Messages
  import opened Transport

  /** The words that get a message blocked, matched case-sensitively anywhere in the text. */
  const Triggers: seq<string> := ["украина", "хохол", "хохл"]

  /** `check_nahruk`: the block notice when some trigger word occurs in the text. */
  function CheckNahruk(text: string): Option<Note> {
    if exists i | 0 <= i < |Triggers| :: Contains(text, Triggers[i]) then Some(Blocked) else None
  }

  /**
   * `handle_message`: a missing text counts as empty; a blocked message gets the
   * notice as a reply and counts as handled.
   */
  function NahrukOp(m: Incoming): Handling {
    match CheckNahruk(m.text.GetOr(""))
    case Some(n) => Handling(true, [Reply(m.chatId, m.messageId, n)])
    case None => Handling(false, [])
  }

  /** A message is blocked exactly when a trigger word occurs in it at some offset. */
  lemma BlockedIffTriggerOccurs(text: string)
    ensures CheckNahruk(text).Some? <==> exists i, k | 0 <= i < |Triggers| :: OccursAt(text, Triggers[i], k)
    ensures CheckNahruk(text).Some? ==> CheckNahruk(text).value == Blocked
  {
    forall i | 0 <= i < |Triggers| ensures Contains(text, Triggers[i]) <==> exists k :: OccursAt(text, Triggers[i], k) {
      ContainsAt(text, Triggers[i]);
    }
  }

  /** The module handles a message exactly when it replies to it, once, in its chat. */
  lemma HandledIffReplied(m: Incoming)
    ensures var Handling(handled, e) := NahrukOp(m);
            && (handled <==> e == [Reply(m.chatId, m.messageId, Blocked)])
            && (!handled <==> e == [])
            && (m.text.None? ==> !handled)
  {
    if m.text.None? {
      forall i | 0 <= i < |Triggers| ensures !Contains("", Triggers[i]) {
        assert |Triggers[i]| > 0;
      }
    }
  }
}
