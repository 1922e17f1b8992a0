/** The session controller of the fishing game (class FishingGame in script.js):
    the active player, the in-memory game state, the stored user list, the
    leaderboard, and the fishing state machine whose timer callbacks are modelled
    as explicit events. */
module Game {
  import opened Util
  import opened Economy
  import opened Profiles
  import opened Ranking

  /** The phases of a cast. `Unset` is a game state that has no fishingState entry
      at all, which is what registration leaves behind: no phase test matches it. */
  datatype FishingState = Idle | Casting | Waiting | FishOn | Unset

  /** The in-memory game state of the active player (`gameData`). */
  datatype GameData = GameData(
    money: int,
    score: int,
    inventory: Inventory,
    upgrades: Upgrades,
    fishingState: FishingState)
  {
    predicate Valid() {
      money >= 0 && score >= 0 && inventory.Valid() && upgrades.Valid()
    }
  }

  /** The game state a new game starts with. */
  const INITIAL_GAME_DATA: GameData := GameData(100, 0, EMPTY_INVENTORY, STARTING_UPGRADES, Idle)

  /** The game state right after registration: a copy of the new user record,
      which carries no fishingState. It differs from what a later login loads
      from that record only in the phase. */
  function RegisteredGameData(username: string, password: string): (g: GameData)
    ensures var u := NewUser(username, password);
            && g.money == u.money && g.score == u.score
            && u.inventory == Some(g.inventory) && u.upgrades == Some(g.upgrades)
    ensures g.fishingState == Unset
    ensures g.Valid()
    ensures LoadedGameData(NewUser(username, password)) == g.(fishingState := Idle)
  {
    var u := NewUser(username, password);
    GameData(u.money, u.score, u.inventory.value, u.upgrades.value, Unset)
  }

  /** The game state loaded from a stored record: a stored money of 0 becomes 100,
      a missing inventory or upgrade record takes its default, and the phase is
      reset to Idle. */
  function LoadedGameData(u: UserRecord): (g: GameData)
    ensures u.Valid() ==> g.Valid()
    ensures g.fishingState == Idle && g.money != 0
  {
    GameData(
      if u.money == 0 then 100 else u.money,
      u.score,
      u.inventory.GetOr(EMPTY_INVENTORY),
      u.upgrades.GetOr(STARTING_UPGRADES),
      Idle)
  }

  /** A stored record with the game state spread over it. */
  function Merge(u: UserRecord, g: GameData): (r: UserRecord)
    ensures r.username == u.username && r.password == u.password
    ensures r.score == g.score && r.money == g.money
    ensures r.inventory == Some(g.inventory) && r.upgrades == Some(g.upgrades)
    ensures u.Valid() && g.Valid() ==> r.Valid()
  {
    u.(score := g.score, money := g.money, inventory := Some(g.inventory), upgrades := Some(g.upgrades))
  }

  /** Saving and loading again gives back the game state, except that the phase
      is Idle and a balance of 0 comes back as 100. */
  lemma SaveThenLoad(u: UserRecord, g: GameData)
    ensures LoadedGameData(Merge(u, g))
            == g.(fishingState := Idle, money := if g.money == 0 then 100 else g.money)
  {
  }

  /** The stored user list after saving the game state `g` of `player`. A guest,
      or no player at all, leaves the store as it is; otherwise only the player's
      own record changes. */
  function StoreAfterSave(users: seq<UserRecord>, player: Option<string>, guest: bool, g: GameData): (r: seq<UserRecord>)
    ensures guest || player == None ==> r == users
    ensures |r| == |users|
    ensures forall j :: 0 <= j < |users| && (player == None || users[j].username != player.value) ==> r[j] == users[j]
    ensures player != None ==>
              forall j :: 0 <= j < |users| && j != UserIndex(users, player.value) ==> r[j] == users[j]
    ensures !guest && player != None && HasUser(users, player.value) ==>
              var i := UserIndex(users, player.value);
              0 <= i && r[i] == Merge(users[i], g)
    ensures g.Valid() && (forall j :: 0 <= j < |users| ==> users[j].Valid()) ==>
              forall j :: 0 <= j < |r| ==> r[j].Valid()
  {
    if guest || player == None then users
    else UpdateFirstNamed(users, player.value, (u: UserRecord) => Merge(u, g))
  }

  /** The game state after landing a fish of rarity `r`: exactly that count grows
      by one and the score by the fish's reward; nothing else changes. */
  function WithCatch(g: GameData, r: Rarity): (g': GameData)
    ensures g'.inventory.Count(r) == g.inventory.Count(r) + 1
    ensures forall o :: o != r ==> g'.inventory.Count(o) == g.inventory.Count(o)
    ensures g'.score == g.score + CatchScore(r)
    ensures g'.money == g.money && g'.upgrades == g.upgrades && g'.fishingState == g.fishingState
    ensures g.Valid() ==> g'.Valid()
  {
    g.(inventory := g.inventory.With(r, g.inventory.Count(r) + 1), score := g.score + CatchScore(r))
  }

  /** What reeling in reports. */
  datatype ReelOutcome = NotBiting | Escaped | Caught(rarity: Rarity)

  class FishingGame {
    /** The name of the active player (a stored user or a guest), if any. */
    var currentUser: Option<string>
    var isGuest: bool
    var gameData: GameData
    /** The stored user list ('fishing_users'). */
    var users: seq<UserRecord>
    var leaderboard: seq<Entry>
    /** Scheduled timer callbacks that have not fired yet, by kind. */
    var pendingSettle: nat
    var pendingBite: nat
    var pendingEscape: nat

    /** The object invariant. Besides the bounds on money, score, counts and levels,
        every phase that waits for a timer has one scheduled, so no cast can get stuck. */
    ghost predicate Valid()
      reads this
    {
      && gameData.Valid()
      && (forall j :: 0 <= j < |users| ==> users[j].Valid())
      && (isGuest ==> currentUser != None)
      && (gameData.fishingState == Casting ==> pendingSettle > 0)
      && (gameData.fishingState == Waiting ==> pendingBite > 0)
      && (gameData.fishingState == FishOn ==> pendingEscape > 0)
    }

    /** A new game over the user list found in storage. */
    constructor (stored: seq<UserRecord>)
      requires forall j :: 0 <= j < |stored| ==> stored[j].Valid()
      ensures Valid()
      ensures currentUser == None && !isGuest && gameData == INITIAL_GAME_DATA
      ensures users == stored && leaderboard == []
      ensures pendingSettle == 0 && pendingBite == 0 && pendingEscape == 0
    {
      currentUser := None;
      isGuest := false;
      gameData := INITIAL_GAME_DATA;
      users := stored;
      leaderboard := [];
      pendingSettle, pendingBite, pendingEscape := 0, 0, 0;
    }

    // -------------------------------------------------------------------------
    // Fishing state machine

    /** Casts the line, only from Idle; in any other phase nothing happens. */
    method CastLine() returns (started: bool)
      requires Valid()
      modifies this`gameData, this`pendingSettle
      ensures Valid()
      ensures started <==> old(gameData.fishingState) == Idle
      ensures started ==> gameData == old(gameData).(fishingState := Casting)
                          && pendingSettle == old(pendingSettle) + 1
      ensures !started ==> gameData == old(gameData) && pendingSettle == old(pendingSettle)
    {
      if gameData.fishingState != Idle {
        return false;
      }
      gameData := gameData.(fishingState := Casting);
      pendingSettle := pendingSettle + 1;
      started := true;
    }

    /** The settle timer of a cast fires: the line is in the water and the bite
        timer starts. This callback sets Waiting without looking at the phase. */
    method SettleTimerFires()
      requires Valid() && pendingSettle > 0
      modifies this`gameData, this`pendingSettle, this`pendingBite
      ensures Valid()
      ensures gameData == old(gameData).(fishingState := Waiting)
      ensures pendingSettle == old(pendingSettle) - 1 && pendingBite == old(pendingBite) + 1
    {
      gameData := gameData.(fishingState := Waiting);
      pendingSettle := pendingSettle - 1;
      pendingBite := pendingBite + 1;
    }

    /** The bite timer fires: a fish bites, and the escape timer starts, only if
        the phase is still Waiting. */
    method BiteTimerFires() returns (bitten: bool)
      requires Valid() && pendingBite > 0
      modifies this`gameData, this`pendingBite, this`pendingEscape
      ensures Valid()
      ensures bitten <==> old(gameData.fishingState) == Waiting
      ensures pendingBite == old(pendingBite) - 1
      ensures bitten ==> gameData == old(gameData).(fishingState := FishOn)
                         && pendingEscape == old(pendingEscape) + 1
      ensures !bitten ==> gameData == old(gameData) && pendingEscape == old(pendingEscape)
    {
      pendingBite := pendingBite - 1;
      bitten := gameData.fishingState == Waiting;
      if bitten {
        gameData := gameData.(fishingState := FishOn);
        pendingEscape := pendingEscape + 1;
      }
    }

    /** The escape timer fires: the fish gets away, only if it is still on the line. */
    method EscapeTimerFires() returns (escaped: bool)
      requires Valid() && pendingEscape > 0
      modifies this`gameData, this`pendingEscape
      ensures Valid()
      ensures escaped <==> old(gameData.fishingState) == FishOn
      ensures pendingEscape == old(pendingEscape) - 1
      ensures escaped ==> gameData == old(gameData).(fishingState := Idle)
      ensures !escaped ==> gameData == old(gameData)
    {
      pendingEscape := pendingEscape - 1;
      escaped := gameData.fishingState == FishOn;
      if escaped {
        gameData := gameData.(fishingState := Idle);
      }
    }

    /** Reels in, only while a fish is on: the phase returns to Idle and the fish is
        landed when the draw falls below the catch chance of the rod. The reel
        button exists only on the game screen, so a player is signed in. */
    method ReelIn(catchDraw: int, rarityDraw: int) returns (outcome: ReelOutcome)
      requires Valid() && currentUser != None
      requires 0 <= catchDraw < 100 && 0 <= rarityDraw < 100
      modifies this`gameData, this`users, this`leaderboard
      ensures Valid()
      ensures old(gameData.fishingState) != FishOn ==>
                outcome == NotBiting && unchanged(this)
      ensures old(gameData.fishingState) == FishOn ==> gameData.fishingState == Idle
      ensures old(gameData.fishingState) == FishOn && CatchChance(old(gameData.upgrades.rod)) <= catchDraw ==>
                outcome == Escaped && unchanged(this`users, this`leaderboard) && gameData == old(gameData).(fishingState := Idle)
      ensures old(gameData.fishingState) == FishOn && catchDraw < CatchChance(old(gameData.upgrades.rod)) ==>
                && outcome == Caught(RarityOf(rarityDraw, old(gameData.upgrades.bait)))
                && gameData == WithCatch(old(gameData).(fishingState := Idle), outcome.rarity)
                && (if isGuest then users == old(users) && leaderboard == old(leaderboard)
                    else users == WriteBack(old(users), currentUser.value, gameData.score, gameData.money)
                         && leaderboard == Leaderboard(users))
    {
      if gameData.fishingState != FishOn {
        return NotBiting;
      }
      gameData := gameData.(fishingState := Idle);
      if catchDraw < CatchChance(gameData.upgrades.rod) {
        var kind := CatchFish(rarityDraw);
        outcome := Caught(kind);
      } else {
        outcome := Escaped;
      }
    }

    /** Lands a fish: the rarity comes from the bait level and the draw, its count
        and the score grow, and the leaderboard is brought up to date. */
    method CatchFish(rarityDraw: int) returns (kind: Rarity)
      requires Valid() && currentUser != None
      requires 0 <= rarityDraw < 100
      modifies this`gameData, this`users, this`leaderboard
      ensures Valid()
      ensures kind == RarityOf(rarityDraw, old(gameData.upgrades.bait))
      ensures gameData == WithCatch(old(gameData), kind)
      ensures isGuest ==> users == old(users) && leaderboard == old(leaderboard)
      ensures !isGuest ==> users == WriteBack(old(users), currentUser.value, gameData.score, gameData.money)
                           && leaderboard == Leaderboard(users)
    {
      kind := RarityOf(rarityDraw, gameData.upgrades.bait);
      gameData := gameData.(inventory := gameData.inventory.With(kind, gameData.inventory.Count(kind) + 1));
      gameData := gameData.(score := gameData.score + CatchScore(kind));
      UpdateLeaderboard();
    }

    // -------------------------------------------------------------------------
    // Economy

    /** Sells every fish: each positive count is paid at its price and zeroed; the
        money grows by the total and the game is saved when the total is positive. */
    method SellAllFish() returns (total: int)
      requires Valid()
      modifies this`gameData, this`users
      ensures Valid()
      ensures total == SaleValue(old(gameData.inventory), RARITIES)
      ensures gameData == old(gameData).(inventory := EMPTY_INVENTORY, money := old(gameData.money) + total)
      ensures users == if total > 0 then StoreAfterSave(old(users), currentUser, isGuest, gameData) else old(users)
    {
      total := 0;
      var i := 0;
      while i < |RARITIES|
        invariant 0 <= i <= |RARITIES|
        invariant total == SaleValue(old(gameData.inventory), RARITIES[..i])
        invariant gameData == old(gameData).(inventory := gameData.inventory)
        invariant forall j :: 0 <= j < i ==> gameData.inventory.Count(RARITIES[j]) == 0
        invariant forall j :: i <= j < |RARITIES| ==>
                    gameData.inventory.Count(RARITIES[j]) == old(gameData.inventory).Count(RARITIES[j])
        invariant users == old(users)
      {
        var kind := RARITIES[i];
        var count := gameData.inventory.Count(kind);
        if count > 0 {
          total := total + count * FishPrice(kind);
          gameData := gameData.(inventory := gameData.inventory.With(kind, 0));
        }
        assert RARITIES[..i + 1][..i] == RARITIES[..i];
        i := i + 1;
      }
      assert RARITIES[..i] == RARITIES;
      assert gameData.inventory == EMPTY_INVENTORY by {
        assert RARITIES[0] == Common && RARITIES[1] == Rare && RARITIES[2] == Epic && RARITIES[3] == Legendary;
      }
      if total > 0 {
        gameData := gameData.(money := gameData.money + total);
        SaveGame();
      }
    }

    /** Buys the next level of an upgrade: refused for lack of money first, then at
        the maximum level; otherwise the price is paid, the level rises by one, a
        tenth of the price is added to the score and the game is saved. */
    method BuyUpgrade(item: UpgradeKind) returns (err: Option<ShopError>)
      requires Valid()
      modifies this`gameData, this`users
      ensures Valid()
      ensures err == PurchaseError(old(gameData.money), old(gameData.upgrades.Level(item)), item)
      ensures err != None ==> unchanged(this)
      ensures err == None ==>
                var level := old(gameData.upgrades.Level(item));
                var price := UpgradePrice(item, level);
                && gameData == old(gameData).(money := old(gameData.money) - price,
                                               upgrades := old(gameData.upgrades).With(item, level + 1),
                                               score := old(gameData.score) + price / 10)
                && users == StoreAfterSave(old(users), currentUser, isGuest, gameData)
    {
      var level := gameData.upgrades.Level(item);
      var price := UpgradePrice(item, level);
      err := PurchaseError(gameData.money, level, item);
      if err != None {
        return;
      }
      gameData := gameData.(money := gameData.money - price);
      gameData := gameData.(upgrades := gameData.upgrades.With(item, level + 1));
      gameData := gameData.(score := gameData.score + price / 10);
      SaveGame();
    }

    // -------------------------------------------------------------------------
    // Accounts and persistence

    /** Registers a new user and makes it the active player. The game state becomes
        a copy of the new record, which has no fishing phase. */
    method Register(username: string, password: string) returns (err: Option<AuthError>)
      requires Valid()
      modifies this`users, this`currentUser, this`gameData
      ensures Valid()
      ensures err == RegistrationError(old(users), username, password)
      ensures err != None ==> unchanged(this)
      ensures err == None ==>
                && users == old(users) + [NewUser(username, password)]
                && currentUser == Some(username)
                && gameData == RegisteredGameData(username, password)
    {
      err := RegistrationError(users, username, password);
      if err != None {
        return;
      }
      users := users + [NewUser(username, password)];
      currentUser := Some(username);
      gameData := RegisteredGameData(username, password);
    }

    /** Logs in with a username and password and loads that user's game state. */
    method Login(username: string, password: string) returns (err: Option<AuthError>)
      requires Valid()
      modifies this`currentUser, this`gameData
      ensures Valid()
      ensures err == LoginError(users, username, password)
      ensures err != None ==> unchanged(this)
      ensures err == None ==>
                && currentUser == Some(username)
                && 0 <= UserIndex(users, username)
                && gameData == LoadedGameData(users[UserIndex(users, username)])
    {
      err := LoginError(users, username, password);
      if err != None {
        return;
      }
      var i := CredentialsIndex(users, username, password);
      currentUser := Some(users[i].username);
      LoadGameData();
    }

    /** Loads the game state of the first stored record named like the active player. */
    method LoadGameData()
      requires Valid() && currentUser != None
      modifies this`gameData
      ensures Valid()
      ensures UserIndex(users, currentUser.value) == -1 ==> gameData == old(gameData)
      ensures 0 <= UserIndex(users, currentUser.value) ==>
                gameData == LoadedGameData(users[UserIndex(users, currentUser.value)])
    {
      var i := UserIndex(users, currentUser.value);
      if i != -1 {
        gameData := LoadedGameData(users[i]);
      }
    }

    /** Starts a guest session under the given name. The game state is kept as it is. */
    method PlayAsGuest(guestName: string)
      requires Valid()
      modifies this`currentUser, this`isGuest
      ensures Valid()
      ensures currentUser == Some(guestName) && isGuest
    {
      currentUser := Some(guestName);
      isGuest := true;
    }

    /** Writes the game state over the active player's stored record; nothing for a
        guest or when nobody is signed in. */
    method SaveGame()
      requires Valid()
      modifies this`users
      ensures Valid()
      ensures users == StoreAfterSave(old(users), currentUser, isGuest, gameData)
    {
      if isGuest || currentUser == None {
        return;
      }
      var i := UserIndex(users, currentUser.value);
      if i != -1 {
        users := users[i := Merge(users[i], gameData)];
      }
    }

    /** Copies score and money into the player's stored record and recomputes the
        leaderboard; nothing at all for a guest. */
    method UpdateLeaderboard()
      requires Valid() && currentUser != None
      modifies this`users, this`leaderboard
      ensures Valid()
      ensures isGuest ==> users == old(users) && leaderboard == old(leaderboard)
      ensures !isGuest ==> users == WriteBack(old(users), currentUser.value, gameData.score, gameData.money)
                           && leaderboard == Leaderboard(users)
    {
      if isGuest {
        return;
      }
      var i := UserIndex(users, currentUser.value);
      if i != -1 {
        users := users[i := users[i].(score := gameData.score, money := gameData.money)];
      }
      leaderboard := Leaderboard(users);
    }

    /** Saves, then signs the player out. The game state is not reset. */
    method Logout()
      requires Valid()
      modifies this`users, this`currentUser, this`isGuest
      ensures Valid()
      ensures users == StoreAfterSave(old(users), old(currentUser), old(isGuest), gameData)
      ensures currentUser == None && !isGuest
    {
      SaveGame();
      currentUser := None;
      isGuest := false;
    }
  }

  /** A freshly registered player cannot cast until logging in again, because the
      copied record has no fishing phase; with the starting 100 the rod (price 500)
      cannot be bought. */
  method RegisteredPlayerCastsAfterRelogin() {
    var game := new FishingGame([]);
    var err := game.Register("angler", "secret");
    assert err == None;
    var cast := game.CastLine();
    assert !cast;
    var refused := game.BuyUpgrade(Rod);
    assert refused == Some(NotEnoughMoney);
    game.Logout();
    err := game.Login("angler", "secret");
    assert err == None;
    cast := game.CastLine();
    assert cast;
  }
}
