/**
 * `Database`: the connection to the `pigs` and `loot` tables, held here as the
 * tables themselves. Every method is one SQL statement; its effect and result are
 * the `Table` function of the same name applied to the state before the call.
 */
module Db {
  import opened Wrappers
  import opened Schema
  import opened Table

  class Database {
    var pigs: seq<Pig>
    var loot: seq<Loot>
    var nextPigId: int
    var nextLootId: int
    var faults: seq<bool>

    function State(): Store
      reads this
    {
      Store(pigs, loot, nextPigId, nextLootId, faults)
    }

    predicate Valid()
      reads this
    {
      WellFormed(State())
    }

    /** Empty tables whose serial columns start at 1, failing as `faults` says. */
    constructor (faults: seq<bool>)
      ensures State() == Store([], [], 1, 1, faults)
      ensures Valid()
    {
      pigs := [];
      loot := [];
      nextPigId := 1;
      nextLootId := 1;
      this.faults := faults;
    }

    /** Uses up one entry of the fault schedule; true when this call fails. */
    method Consume() returns (failed: bool)
      modifies this`faults
      ensures failed == Fails(old(State()))
      ensures State() == Tick(old(State()))
    {
      failed := |faults| > 0 && faults[0];
      faults := if |faults| > 0 then faults[1..] else [];
    }

    /** Scans the table for the row keyed (chat, user). */
    method FindRow(chat: int, user: int) returns (ix: Option<nat>)
      ensures ix == KeyIndex(pigs, chat, user)
    {
      var i := 0;
      while i < |pigs|
        invariant 0 <= i <= |pigs|
        invariant forall j | 0 <= j < i :: !HasKey(pigs[j], chat, user)
      {
        if HasKey(pigs[i], chat, user) {
          return Some(i);
        }
        i := i + 1;
      }
      return None;
    }

    method GetPig(chat: int, user: int) returns (r: Result<Option<Pig>, DbError>)
      modifies this`faults
      ensures (State(), r) == GetPigOp(old(State()), chat, user)
    {
      var failed := Consume();
      if failed {
        return Err(Unavailable);
      }
      r := Ok(Lookup(pigs, chat, user));
    }

    method GetChatTotalPlayers(chat: int) returns (r: Result<int, DbError>)
      modifies this`faults
      ensures (State(), r) == TotalPlayersOp(old(State()), chat)
    {
      var failed := Consume();
      if failed {
        return Err(Unavailable);
      }
      r := Ok(CountChat(pigs, chat));
    }

    method GetPigRank(chat: int, user: int) returns (r: Result<Option<int>, DbError>)
      modifies this`faults
      ensures (State(), r) == RankOp(old(State()), chat, user)
    {
      var failed := Consume();
      if failed {
        return Err(Unavailable);
      }
      r := Ok(RankOf(pigs, chat, user));
    }

    method GetChatPigsRanked(chat: int) returns (r: Result<seq<Pig>, DbError>)
      modifies this`faults
      ensures (State(), r) == RankedOp(old(State()), chat)
    {
      var failed := Consume();
      if failed {
        return Err(Unavailable);
      }
      r := Ok(Ranked(pigs, chat));
    }

    method FindPigByName(chat: int, name: string) returns (r: Result<seq<Pig>, DbError>)
      modifies this`faults
      ensures (State(), r) == FindPigByNameOp(old(State()), chat, name)
    {
      var failed := Consume();
      if failed {
        return Err(Unavailable);
      }
      r := Ok(SearchByName(pigs, chat, name));
    }

    method GetUserLoot(chat: int, owner: int) returns (r: Result<seq<Loot>, DbError>)
      modifies this`faults
      ensures (State(), r) == UserLootOp(old(State()), chat, owner)
    {
      var failed := Consume();
      if failed {
        return Err(Unavailable);
      }
      r := Ok(OwnedLoot(loot, chat, owner));
    }

    method CreatePig(draft: Pig) returns (r: Result<Pig, DbError>)
      requires Valid() && draft.weight >= 0
      modifies this
      ensures (State(), r) == CreatePigOp(old(State()), draft)
      ensures Valid()
    {
      CreateKeepsWellFormed(State(), draft);
      var failed := Consume();
      if failed {
        return Err(Unavailable);
      }
      var existing := FindRow(draft.chatId, draft.userId);
      if existing.Some? {
        return Err(UniqueViolation);
      }
      var row := draft.(id := nextPigId);
      pigs := pigs + [row];
      nextPigId := nextPigId + 1;
      r := Ok(row);
    }

    method UpdatePig(p: Pig) returns (r: Result<Pig, DbError>)
      requires Valid() && p.weight >= 0
      modifies this
      ensures (State(), r) == UpdatePigOp(old(State()), p)
      ensures Valid()
    {
      UpdateKeepsWellFormed(State(), p);
      var failed := Consume();
      if failed {
        return Err(Unavailable);
      }
      var ix := FindRow(p.chatId, p.userId);
      match ix {
        case None =>
          r := Err(RowNotFound);
        case Some(i) =>
          var row := p.(id := pigs[i].id);
          pigs := pigs[i := row];
          r := Ok(row);
      }
    }

    method UpdatePigName(chat: int, user: int, name: string) returns (r: Result<Pig, DbError>)
      requires Valid()
      modifies this
      ensures (State(), r) == UpdatePigNameOp(old(State()), chat, user, name)
      ensures Valid()
    {
      RenameKeepsWellFormed(State(), chat, user, name);
      var failed := Consume();
      if failed {
        return Err(Unavailable);
      }
      var ix := FindRow(chat, user);
      match ix {
        case None =>
          r := Err(RowNotFound);
        case Some(i) =>
          var row := pigs[i].(name := name);
          pigs := pigs[i := row];
          r := Ok(row);
      }
    }

    method AddLoot(draft: Loot) returns (r: Result<Loot, DbError>)
      requires Valid()
      modifies this
      ensures (State(), r) == AddLootOp(old(State()), draft)
      ensures Valid()
    {
      var failed := Consume();
      if failed {
        return Err(Unavailable);
      }
      var row := draft.(id := nextLootId);
      loot := loot + [row];
      nextLootId := nextLootId + 1;
      r := Ok(row);
    }
  }
}
