/**
 * `handle_callback_query`: the inline buttons under pig cards. A button's data
 * is `grow:<user>`, `remove:<message>` or `back:<user>`; the grow and back
 * buttons only answer the user they were made for.
 */
module Callbacks {
  import opened Wrappers
  import opened Text
  import opened Schema
  import opened Table
  import opened Helpers
  import opened Db
  import opened Messages
  import opened Transport
  import opened Keyboards
  import opened Feeding
  import opened Commands

  /** What a button's data asks for, its argument already parsed. */
  datatype Action =
    | GrowButton(owner: int)
    | RemoveButton(target: Option<int>)
    | BackButton(owner: int)
    | OtherButton

  /**
   * The prefix tests in source order. The grow and back owners are parsed as
   * `i64`, 0 when that fails; the remove target as `i32`, absent when that fails.
   */
  function Classify(data: string): Action {
    if StartsWith(data, "grow:") then GrowButton(ParseInt(data[5..], I64Min, I64Max).GetOr(0))
    else if StartsWith(data, "remove:") then RemoveButton(ParseInt(data[7..], I32Min, I32Max))
    else if StartsWith(data, "back:") then BackButton(ParseInt(data[5..], I64Min, I64Max).GetOr(0))
    else OtherButton
  }

  /** The bot may delete other people's messages when it owns or administers the chat. */
  predicate CanDelete(botStatus: Result<MemberStatus, TransportError>) {
    botStatus.Ok? && (botStatus.value == Owner || botStatus.value == Administrator)
  }

  /** The remove button: the card always goes, the command message only when allowed and parsed. */
  function RemoveEffects(chat: int, message: int, target: Option<int>, canDelete: bool): seq<Effect> {
    [Delete(chat, message)] + (if canDelete && target.Some? then [Delete(chat, target.value)] else [])
  }

  /** The grow button, past the owner check: feed the presser's pig and show the result in place. */
  function GrowButtonOp(s: Store, query: string, chat: int, message: int, user: int, cfg: GameConfig,
                        now: real, roll: nat): (Store, seq<Effect>)
    requires WellFormed(s) && NonNegativeTunables(cfg)
  {
    var (s1, got) := GetPigOp(s, chat, user);
    if got.Err? then (s1, [Answer(query, Some(DatabaseError))])
    else if got.value.None? then (s1, [Answer(query, Some(NoPig))])
    else
      var o := FeedOp(s1, got.value.value, cfg, now, roll);
      if o.result.Ok? then (o.store, [Edit(chat, message, o.result.value, GrowKeyboard(user))])
      else (o.store, [Answer(query, Some(FeedFailed))])
  }

  /** The back button, past the owner check: show the pig card again in place. */
  function BackButtonOp(s: Store, query: string, chat: int, message: int, user: int): (Store, seq<Effect>) {
    var (s1, got) := GetPigOp(s, chat, user);
    if got.Err? then (s1, [Answer(query, Some(DatabaseError))])
    else if got.value.None? then (s1, [Answer(query, Some(NoPig))])
    else
      var (s2, info) := FormatPigInfoOp(s1, got.value.value);
      (s2, [Edit(chat, message, info, PigKeyboard(user, message))])
  }

  /**
   * A press of an inline button. `botStatus` is the bot's own membership in the
   * chat, read only for the remove button. Every path ends with a plain answer to
   * the query except the two owner checks, which answer with a notice and return.
   */
  function CallbackOp(s: Store, q: CallbackQuery, cfg: GameConfig, now: real, roll: nat,
                      botStatus: Result<MemberStatus, TransportError>): (Store, seq<Effect>)
    requires WellFormed(s) && NonNegativeTunables(cfg)
  {
    var ack := Answer(q.id, None);
    if q.data.None? || q.message.None? then (s, [ack])
    else
      var chat, message, user := q.message.value.chatId, q.message.value.messageId, q.from;
      match Classify(q.data.value)
      case GrowButton(owner) =>
        if user != owner then (s, [Answer(q.id, Some(NotYourGrow))])
        else
          var (t, e) := GrowButtonOp(s, q.id, chat, message, user, cfg, now, roll);
          (t, e + [ack])
      case RemoveButton(target) => (s, RemoveEffects(chat, message, target, CanDelete(botStatus)) + [ack])
      case BackButton(owner) =>
        if user != owner then (s, [Answer(q.id, Some(NotYourPig))])
        else
          var (t, e) := BackButtonOp(s, q.id, chat, message, user);
          (t, e + [ack])
      case OtherButton => (s, [Answer(q.id, Some(UnknownButton)), ack])
  }

  // ---------------------------------------------------------------- against the database

  method GrowButtonPress(db: Database, query: string, chat: int, message: int, user: int, cfg: GameConfig,
                         now: real, roll: nat) returns (effects: seq<Effect>)
    requires db.Valid() && NonNegativeTunables(cfg)
    modifies db
    ensures (db.State(), effects) == GrowButtonOp(old(db.State()), query, chat, message, user, cfg, now, roll)
    ensures db.Valid()
  {
    var got := db.GetPig(chat, user);
    if got.Err? {
      return [Answer(query, Some(DatabaseError))];
    }
    if got.value.None? {
      return [Answer(query, Some(NoPig))];
    }
    var _, r := FeedPig(db, got.value.value, cfg, now, roll);
    if r.Ok? {
      effects := [Edit(chat, message, r.value, GrowKeyboard(user))];
    } else {
      effects := [Answer(query, Some(FeedFailed))];
    }
  }

  method BackButtonPress(db: Database, query: string, chat: int, message: int, user: int) returns (effects: seq<Effect>)
    modifies db`faults
    ensures (db.State(), effects) == BackButtonOp(old(db.State()), query, chat, message, user)
  {
    var got := db.GetPig(chat, user);
    if got.Err? {
      return [Answer(query, Some(DatabaseError))];
    }
    if got.value.None? {
      return [Answer(query, Some(NoPig))];
    }
    var info := FormatPigInfo(db, got.value.value);
    effects := [Edit(chat, message, info, PigKeyboard(user, message))];
  }

  method HandleCallbackQuery(db: Database, q: CallbackQuery, cfg: GameConfig, now: real, roll: nat,
                             botStatus: Result<MemberStatus, TransportError>) returns (effects: seq<Effect>)
    requires db.Valid() && NonNegativeTunables(cfg)
    modifies db
    ensures (db.State(), effects) == CallbackOp(old(db.State()), q, cfg, now, roll, botStatus)
    ensures db.Valid()
  {
    var ack := Answer(q.id, None);
    if q.data.None? || q.message.None? {
      return [ack];
    }
    var chat, message, user := q.message.value.chatId, q.message.value.messageId, q.from;
    match Classify(q.data.value)
    case GrowButton(owner) =>
      if user != owner {
        return [Answer(q.id, Some(NotYourGrow))];
      }
      effects := GrowButtonPress(db, q.id, chat, message, user, cfg, now, roll);
      effects := effects + [ack];
    case RemoveButton(target) =>
      effects := RemoveEffects(chat, message, target, CanDelete(botStatus)) + [ack];
    case BackButton(owner) =>
      if user != owner {
        return [Answer(q.id, Some(NotYourPig))];
      }
      effects := BackButtonPress(db, q.id, chat, message, user);
      effects := effects + [ack];
    case OtherButton =>
      effects := [Answer(q.id, Some(UnknownButton)), ack];
  }
}
