/**
 * The database as a value: the `pigs` and `loot` tables, the ids their serial
 * columns hand out next, and a fault schedule. Every store call consumes one entry
 * of the schedule; an entry `true` makes that call fail as an unreachable database
 * would, changing nothing. Each query of `Database` is written here as a function
 * from the store before the call to the store after it and the call's result.
 */
module Table {
  import opened Wrappers
  import opened Text
  import opened Schema
  import opened Ranking
  import opened Ilike

  datatype DbError = Unavailable | RowNotFound | UniqueViolation

  datatype Store = Store(
    pigs: seq<Pig>,
    loot: seq<Loot>,
    nextPigId: int,
    nextLootId: int,
    faults: seq<bool>)

  /** The next store call fails. */
  predicate Fails(s: Store) {
    |s.faults| > 0 && s.faults[0]
  }

  /** A store call has been made: one entry of the fault schedule is used up. */
  function Tick(s: Store): (t: Store)
    ensures t.pigs == s.pigs && t.loot == s.loot
    ensures t.nextPigId == s.nextPigId && t.nextLootId == s.nextLootId
  {
    s.(faults := if |s.faults| > 0 then s.faults[1..] else [])
  }

  predicate HasKey(p: Pig, chat: int, user: int) {
    p.chatId == chat && p.userId == user
  }

  /** At most one pig per (chat, user). */
  predicate UniqueKeys(pigs: seq<Pig>) {
    forall i, j | 0 <= i < j < |pigs| :: !HasKey(pigs[j], pigs[i].chatId, pigs[i].userId)
  }

  /** Row for row, `b` holds the same (chat, user) keys as `a`. */
  predicate SameKeys(a: seq<Pig>, b: seq<Pig>) {
    |a| == |b| && forall j | 0 <= j < |a| :: a[j].chatId == b[j].chatId && a[j].userId == b[j].userId
  }

  /** What every reachable store satisfies: unique keys and no negative weight. */
  predicate WellFormed(s: Store) {
    UniqueKeys(s.pigs) && forall i | 0 <= i < |s.pigs| :: s.pigs[i].weight >= 0
  }

  // ---------------------------------------------------------------- queries

  /** Position of the row keyed (chat, user), the first one if there were several. */
  function KeyIndex(pigs: seq<Pig>, chat: int, user: int): (r: Option<nat>)
    ensures r.Some? ==> r.value < |pigs| && HasKey(pigs[r.value], chat, user)
    ensures r.Some? ==> forall j | 0 <= j < r.value :: !HasKey(pigs[j], chat, user)
    ensures r.None? <==> forall j | 0 <= j < |pigs| :: !HasKey(pigs[j], chat, user)
  {
    if pigs == [] then None
    else if HasKey(pigs[0], chat, user) then Some(0)
    else
      match KeyIndex(pigs[1..], chat, user)
      case None => None
      case Some(i) => Some(i + 1)
  }

  /** `get_pig`: the row keyed (chat, user), if any. */
  function Lookup(pigs: seq<Pig>, chat: int, user: int): (r: Option<Pig>)
    ensures r.Some? ==> r.value in pigs && HasKey(r.value, chat, user)
    ensures r.None? <==> forall p | p in pigs :: !HasKey(p, chat, user)
  {
    match KeyIndex(pigs, chat, user)
    case None => None
    case Some(i) => Some(pigs[i])
  }

  /** The rows of one chat, in table order. */
  function ChatPigs(pigs: seq<Pig>, chat: int): (r: seq<Pig>)
    ensures forall p :: p in r <==> p in pigs && p.chatId == chat
    ensures |r| <= |pigs|
  {
    if pigs == [] then []
    else (if pigs[0].chatId == chat then [pigs[0]] else []) + ChatPigs(pigs[1..], chat)
  }

  /** `get_chat_total_players`: `SELECT COUNT(*) ... WHERE chat_id = $1`. */
  function CountChat(pigs: seq<Pig>, chat: int): nat {
    |ChatPigs(pigs, chat)|
  }

  /** `get_chat_pigs_ranked`: the chat's rows, heaviest first; ties in table order. */
  function Ranked(pigs: seq<Pig>, chat: int): (r: seq<Pig>)
    ensures NonIncreasing(r)
    ensures multiset(r) == multiset(ChatPigs(pigs, chat))
    ensures |r| == CountChat(pigs, chat)
  {
    SortByWeight(ChatPigs(pigs, chat))
  }

  /** Position of the first row owned by `user`. */
  function UserIndex(ranked: seq<Pig>, user: int): (r: Option<nat>)
    ensures r.Some? ==> r.value < |ranked| && ranked[r.value].userId == user
    ensures r.None? <==> forall j | 0 <= j < |ranked| :: ranked[j].userId != user
  {
    if ranked == [] then None
    else if ranked[0].userId == user then Some(0)
    else
      match UserIndex(ranked[1..], user)
      case None => None
      case Some(i) => Some(i + 1)
  }

  /**
   * `get_pig_rank`: `ROW_NUMBER() OVER (ORDER BY weight DESC)` of the user's row,
   * computed over the same order as `Ranked`.
   */
  function RankOf(pigs: seq<Pig>, chat: int, user: int): (r: Option<int>)
    ensures r.Some? <==> Lookup(pigs, chat, user).Some?
    ensures r.Some? ==> 1 <= r.value <= CountChat(pigs, chat)
    ensures r.Some? ==> Ranked(pigs, chat)[r.value - 1].userId == user
  {
    RankedHasUser(pigs, chat, user);
    match UserIndex(Ranked(pigs, chat), user)
    case None => None
    case Some(i) => Some(i + 1)
  }

  /** The ranking holds exactly the chat's rows. */
  lemma RankedRows(pigs: seq<Pig>, chat: int, p: Pig)
    ensures p in Ranked(pigs, chat) <==> p in pigs && p.chatId == chat
  {
    var ranked := Ranked(pigs, chat);
    assert p in ranked <==> p in multiset(ranked);
    assert p in ChatPigs(pigs, chat) <==> p in multiset(ChatPigs(pigs, chat));
  }

  /** A user is ranked in a chat exactly when they have a pig there. */
  lemma RankedHasUser(pigs: seq<Pig>, chat: int, user: int)
    ensures UserIndex(Ranked(pigs, chat), user).Some? <==> Lookup(pigs, chat, user).Some?
  {
    var ranked := Ranked(pigs, chat);
    var ix := UserIndex(ranked, user);
    if ix.Some? {
      RankedRows(pigs, chat, ranked[ix.value]);
    }
    if Lookup(pigs, chat, user).Some? {
      var p := Lookup(pigs, chat, user).value;
      RankedRows(pigs, chat, p);
      var j :| 0 <= j < |ranked| && ranked[j] == p;
    }
  }

  /** `find_pig_by_name`: the chat's rows whose name is `ILIKE '%name%'`. */
  function SearchByName(pigs: seq<Pig>, chat: int, name: string): (r: seq<Pig>)
    ensures forall p :: p in r <==> p in pigs && p.chatId == chat && ILike("%" + name + "%", p.name)
  {
    if pigs == [] then []
    else
      (if pigs[0].chatId == chat && ILike("%" + name + "%", pigs[0].name) then [pigs[0]] else [])
      + SearchByName(pigs[1..], chat, name)
  }

  /** `get_user_loot`: the loot rows of one owner in one chat. */
  function OwnedLoot(loot: seq<Loot>, chat: int, owner: int): (r: seq<Loot>)
    ensures forall x :: x in r <==> x in loot && x.chatId == chat && x.owner == owner
  {
    if loot == [] then []
    else
      (if loot[0].chatId == chat && loot[0].owner == owner then [loot[0]] else [])
      + OwnedLoot(loot[1..], chat, owner)
  }

  // ---------------------------------------------------------------- calls

  function GetPigOp(s: Store, chat: int, user: int): (Store, Result<Option<Pig>, DbError>) {
    if Fails(s) then (Tick(s), Err(Unavailable)) else (Tick(s), Ok(Lookup(s.pigs, chat, user)))
  }

  function TotalPlayersOp(s: Store, chat: int): (Store, Result<int, DbError>) {
    if Fails(s) then (Tick(s), Err(Unavailable)) else (Tick(s), Ok(CountChat(s.pigs, chat)))
  }

  function RankOp(s: Store, chat: int, user: int): (Store, Result<Option<int>, DbError>) {
    if Fails(s) then (Tick(s), Err(Unavailable)) else (Tick(s), Ok(RankOf(s.pigs, chat, user)))
  }

  function RankedOp(s: Store, chat: int): (Store, Result<seq<Pig>, DbError>) {
    if Fails(s) then (Tick(s), Err(Unavailable)) else (Tick(s), Ok(Ranked(s.pigs, chat)))
  }

  function FindPigByNameOp(s: Store, chat: int, name: string): (Store, Result<seq<Pig>, DbError>) {
    if Fails(s) then (Tick(s), Err(Unavailable)) else (Tick(s), Ok(SearchByName(s.pigs, chat, name)))
  }

  function UserLootOp(s: Store, chat: int, owner: int): (Store, Result<seq<Loot>, DbError>) {
    if Fails(s) then (Tick(s), Err(Unavailable)) else (Tick(s), Ok(OwnedLoot(s.loot, chat, owner)))
  }

  /**
   * `create_pig`: inserts every column of the draft except `id`, which the serial
   * column assigns; the (chat, user) unique constraint refuses a second row.
   */
  function CreatePigOp(s: Store, draft: Pig): (Store, Result<Pig, DbError>) {
    if Fails(s) then (Tick(s), Err(Unavailable))
    else if Lookup(s.pigs, draft.chatId, draft.userId).Some? then (Tick(s), Err(UniqueViolation))
    else
      var row := draft.(id := s.nextPigId);
      (Tick(s).(pigs := s.pigs + [row], nextPigId := s.nextPigId + 1), Ok(row))
  }

  /**
   * `update_pig`: `UPDATE ... WHERE chat_id AND user_id` of every non-key column,
   * returning the row; `fetch_one` fails when no row matched.
   */
  function UpdatePigOp(s: Store, p: Pig): (Store, Result<Pig, DbError>) {
    if Fails(s) then (Tick(s), Err(Unavailable))
    else
      match KeyIndex(s.pigs, p.chatId, p.userId)
      case None => (Tick(s), Err(RowNotFound))
      case Some(i) =>
        var row := p.(id := s.pigs[i].id);
        (Tick(s).(pigs := s.pigs[i := row]), Ok(row))
  }

  /** `update_pig_name` (called by the `name` command): the name column only. */
  function UpdatePigNameOp(s: Store, chat: int, user: int, name: string): (Store, Result<Pig, DbError>) {
    if Fails(s) then (Tick(s), Err(Unavailable))
    else
      match KeyIndex(s.pigs, chat, user)
      case None => (Tick(s), Err(RowNotFound))
      case Some(i) =>
        var row := s.pigs[i].(name := name);
        (Tick(s).(pigs := s.pigs[i := row]), Ok(row))
  }

  /** `add_loot`: inserts the draft with a fresh id. */
  function AddLootOp(s: Store, draft: Loot): (Store, Result<Loot, DbError>) {
    if Fails(s) then (Tick(s), Err(Unavailable))
    else
      var row := draft.(id := s.nextLootId);
      (Tick(s).(loot := s.loot + [row], nextLootId := s.nextLootId + 1), Ok(row))
  }

  // ---------------------------------------------------------------- facts

  lemma LookupAtIndex(pigs: seq<Pig>, i: nat)
    requires UniqueKeys(pigs) && i < |pigs|
    ensures Lookup(pigs, pigs[i].chatId, pigs[i].userId) == Some(pigs[i])
  {
    var k := KeyIndex(pigs, pigs[i].chatId, pigs[i].userId);
    assert k.Some?;
    assert k.value <= i;
  }

  /**
   * The user's row sits at position rank - 1 of the ranking: every row before it
   * is at least as heavy, every row after it at most as heavy.
   */
  lemma RankPosition(pigs: seq<Pig>, chat: int, user: int)
    requires UniqueKeys(pigs)
    requires Lookup(pigs, chat, user).Some?
    ensures var r := RankOf(pigs, chat, user).value;
            var ranked := Ranked(pigs, chat);
            var w := Lookup(pigs, chat, user).value.weight;
            && ranked[r - 1] == Lookup(pigs, chat, user).value
            && (forall j | 0 <= j < r - 1 :: ranked[j].weight >= w)
            && (forall j | r - 1 < j < |ranked| :: ranked[j].weight <= w)
  {
    RankedRowIsUsers(pigs, chat, user);
  }

  lemma RankedRowIsUsers(pigs: seq<Pig>, chat: int, user: int)
    requires UniqueKeys(pigs)
    requires Lookup(pigs, chat, user).Some?
    ensures Ranked(pigs, chat)[RankOf(pigs, chat, user).value - 1] == Lookup(pigs, chat, user).value
  {
    var p := Ranked(pigs, chat)[RankOf(pigs, chat, user).value - 1];
    RankedRows(pigs, chat, p);
    StoredRowIsFound(pigs, p);
  }

  lemma StoredRowIsFound(pigs: seq<Pig>, p: Pig)
    requires UniqueKeys(pigs) && p in pigs
    ensures Lookup(pigs, p.chatId, p.userId) == Some(p)
  {
    var k :| 0 <= k < |pigs| && pigs[k] == p;
    LookupAtIndex(pigs, k);
  }

  /** A successful create adds exactly the draft, under a fresh id, at its key. */
  lemma CreateThenLookup(s: Store, draft: Pig)
    requires UniqueKeys(s.pigs)
    ensures var (t, r) := CreatePigOp(s, draft);
            && (r.Ok? ==> && r.value == draft.(id := s.nextPigId)
                          && t.pigs == s.pigs + [r.value]
                          && Lookup(t.pigs, draft.chatId, draft.userId) == Some(r.value)
                          && CountChat(t.pigs, draft.chatId) == CountChat(s.pigs, draft.chatId) + 1)
            && (r.Err? ==> t.pigs == s.pigs)
            && UniqueKeys(t.pigs)
            && (!Fails(s) ==> (r.Err? <==> Lookup(s.pigs, draft.chatId, draft.userId).Some?))
  {
    var (t, r) := CreatePigOp(s, draft);
    if r.Ok? {
      assert !Fails(s) && Lookup(s.pigs, draft.chatId, draft.userId).None?;
      var rows := s.pigs + [r.value];
      forall i, j | 0 <= i < j < |rows| ensures !HasKey(rows[j], rows[i].chatId, rows[i].userId) {
        if j == |rows| - 1 {
          assert rows[i] in s.pigs;
        } else {
          assert rows[i] == s.pigs[i] && rows[j] == s.pigs[j];
        }
      }
      LookupAtIndex(rows, |rows| - 1);
      ChatPigsAppend(s.pigs, r.value);
    }
  }

  lemma {:induction false} ChatPigsAppend(pigs: seq<Pig>, p: Pig)
    ensures ChatPigs(pigs + [p], p.chatId) == ChatPigs(pigs, p.chatId) + [p]
    decreases |pigs|
  {
    if pigs == [] {
      assert ChatPigs([p], p.chatId) == [p] + ChatPigs([], p.chatId);
    } else {
      assert (pigs + [p])[1..] == pigs[1..] + [p];
      ChatPigsAppend(pigs[1..], p);
    }
  }

  lemma {:induction false} OwnedAppend(loot: seq<Loot>, x: Loot, chat: int, owner: int)
    ensures OwnedLoot(loot + [x], chat, owner)
         == OwnedLoot(loot, chat, owner) + (if x.chatId == chat && x.owner == owner then [x] else [])
    decreases |loot|
  {
    if loot == [] {
      assert OwnedLoot([x], chat, owner)
          == (if x.chatId == chat && x.owner == owner then [x] else []) + OwnedLoot([], chat, owner);
    } else {
      assert (loot + [x])[1..] == loot[1..] + [x];
      OwnedAppend(loot[1..], x, chat, owner);
    }
  }

  /**
   * `add_loot` followed by `get_user_loot`: a successful insert stores the draft
   * under a fresh id, its owner's loot list grows by exactly that row at the end,
   * every other owner's list is unchanged and the pigs table is untouched.
   */
  lemma AddThenOwned(s: Store, draft: Loot)
    requires !Fails(s)
    ensures var (t, r) := AddLootOp(s, draft);
            && r == Ok(draft.(id := s.nextLootId))
            && t.pigs == s.pigs
            && OwnedLoot(t.loot, draft.chatId, draft.owner)
               == OwnedLoot(s.loot, draft.chatId, draft.owner) + [r.value]
            && forall chat, owner | chat != draft.chatId || owner != draft.owner ::
                 OwnedLoot(t.loot, chat, owner) == OwnedLoot(s.loot, chat, owner)
  {
    var row := draft.(id := s.nextLootId);
    OwnedAppend(s.loot, row, draft.chatId, draft.owner);
    forall chat, owner | chat != draft.chatId || owner != draft.owner
      ensures OwnedLoot(s.loot + [row], chat, owner) == OwnedLoot(s.loot, chat, owner)
    {
      OwnedAppend(s.loot, row, chat, owner);
    }
  }

  /**
   * A successful update overwrites the keyed row with the given pig, keeping the
   * row's id, and leaves every other row and the row count alone; it fails with
   * RowNotFound exactly when no row has the key.
   */
  lemma UpdateOverwrites(s: Store, p: Pig)
    requires UniqueKeys(s.pigs)
    ensures var (t, r) := UpdatePigOp(s, p);
            && |t.pigs| == |s.pigs|
            && (r.Ok? ==> && Lookup(s.pigs, p.chatId, p.userId).Some?
                          && r.value == p.(id := Lookup(s.pigs, p.chatId, p.userId).value.id)
                          && Lookup(t.pigs, p.chatId, p.userId) == Some(r.value)
                          && forall j | 0 <= j < |s.pigs| && !HasKey(s.pigs[j], p.chatId, p.userId) ::
                               t.pigs[j] == s.pigs[j])
            && (r.Err? ==> t.pigs == s.pigs)
            && (r == Err(RowNotFound) <==> !Fails(s) && Lookup(s.pigs, p.chatId, p.userId).None?)
            && SameKeys(s.pigs, t.pigs)
            && UniqueKeys(t.pigs)
  {
    var (t, r) := UpdatePigOp(s, p);
    if r.Ok? {
      var i := KeyIndex(s.pigs, p.chatId, p.userId).value;
      assert SameKeys(s.pigs, t.pigs);
      LookupAtIndex(t.pigs, i);
    }
  }

  lemma UpdateKeepsWellFormed(s: Store, p: Pig)
    requires WellFormed(s) && p.weight >= 0
    ensures WellFormed(UpdatePigOp(s, p).0)
  {
    UpdateOverwrites(s, p);
  }

  lemma CreateKeepsWellFormed(s: Store, draft: Pig)
    requires WellFormed(s) && draft.weight >= 0
    ensures WellFormed(CreatePigOp(s, draft).0)
  {
    CreateThenLookup(s, draft);
  }

  lemma RenameKeepsWellFormed(s: Store, chat: int, user: int, name: string)
    requires WellFormed(s)
    ensures WellFormed(UpdatePigNameOp(s, chat, user, name).0)
    ensures UpdatePigNameOp(s, chat, user, name).1.Ok? ==>
              Lookup(UpdatePigNameOp(s, chat, user, name).0.pigs, chat, user)
                == Some(Lookup(s.pigs, chat, user).value.(name := name))
    ensures var t := UpdatePigNameOp(s, chat, user, name).0;
            && SameKeys(s.pigs, t.pigs) && t.loot == s.loot
            && t.nextPigId == s.nextPigId && t.nextLootId == s.nextLootId
            && (forall j | 0 <= j < |s.pigs| && !HasKey(s.pigs[j], chat, user) :: t.pigs[j] == s.pigs[j])
  {
    var (t, r) := UpdatePigNameOp(s, chat, user, name);
    if r.Ok? {
      var i := KeyIndex(s.pigs, chat, user).value;
      assert SameKeys(s.pigs, t.pigs);
      LookupAtIndex(s.pigs, i);
      LookupAtIndex(t.pigs, i);
    }
  }
}
