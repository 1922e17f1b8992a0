# Fishing game: game state and economy, modelled in Dafny

This project models the core of a browser fishing game (the `FishingGame` class of
`script.js`). It covers five parts:

- **Fishing state machine.** A player casts from `idle`. After a settle delay the line is
  `waiting`. A bite moves it to `fish_on`. From there the player reels in, or an escape
  timer returns the line to `idle`.
- **Catch resolver.** It decides whether the fish is landed and picks its rarity.
- **Economy.** Selling the catch and buying rod, bait and line upgrades.
- **Profile store and session.** Registration, login, loading, saving, guest play and logout.
- **Leaderboard and rank.** A leaderboard built from the stored users, and the player's rank on it.

Modules, one per component:

- `util.dfy` (`Util`): an `Option` type and `FindIndex`, which is the game's
  `Array.prototype.findIndex`.
- `economy.dfy` (`Economy`): the price and reward tables, the inventory and upgrade records,
  the catch chance and rarity draw, the value of a sale and the purchase check.
- `profiles.dfy` (`Profiles`): the stored user records, the registration and login rules, and
  the write-back of progress into the user list.
- `ranking.dfy` (`Ranking`): the leaderboard and the player's rank.
- `game.dfy` (`Game`): the session controller. This is class `FishingGame`, with the fields
  of the source (`currentUser`, `isGuest`, `gameData`) plus the stored user list and the
  leaderboard. Every operation is a method that updates these fields in place.

Randomness is passed in as integer hundredths. A draw `d` with `0 <= d < 100` stands for a
`Math.random()` value in `[d/100, (d+1)/100)`. The fish is caught when
`d < min(70 + 5*rod, 95)`. The rarity uses the thresholds `60`, `85 + 5*bait` and
`95 + 5*bait`.

Each timer callback is an explicit event method: `SettleTimerFires`, `BiteTimerFires` and
`EscapeTimerFires`. A method may fire only while a callback of its kind is scheduled. The
class counts the scheduled callbacks of each kind. The object invariant `Valid()` states that
every phase that waits for a timer has one scheduled, so a cast never gets stuck in
`casting`, `waiting` or `fish_on`.

These quirks of the code are reproduced, not fixed:

- `buyUpgrade` checks money before the maximum level. At level 5 with too little money the
  answer is "not enough money".
- Registration copies the new record into the game state. That record has no
  `fishingState` (`FishingState.Unset`), so casting is refused until a login reloads
  `idle`, or until a settle callback left over from an earlier cast fires and sets
  `waiting`. The client method `Game.RegisteredPlayerCastsAfterRelogin` shows the first way.
- Loading turns a stored money of 0 into 100.
- `playAsGuest` and `logout` leave the game state as it is.
- The `line` upgrade has no effect. Neither the catch chance nor the rarity reads it.
- From bait level 3 on, only common and rare fish can be caught. A legendary fish cannot be
  caught at any bait level the game allows: the epic threshold `0.95 + 0.05*bait` is already
  `1.0` at level 1.

The code behaves as follows, and the model follows it:

- The settle callback at `script.js:232-234` sets `waiting` without re-checking the phase.
- Registration does not behave like a login: the game state it leaves has no phase.
- `playAsGuest` does not create a fresh guest state, and `logout` does not clear the game state.
- The legendary rarity is unreachable at every bait level, not only at the maximum.

## Model

| member | source | states |
|---|---|---|
| Util.FindIndex | script.js:463 | the result is -1 exactly when no element matches; otherwise it is the first index that matches |
| Economy.FishPrice | script.js:23-31 | a fish sells for exactly the score its catch awards (10, 50, 200, 1000) |
| Economy.CatchScore | script.js:304-309 | a catch awards between 10 and 1000 points, always a multiple of 10 |
| Economy.RarerFishPayMore | script.js:23-31 | a rarer fish awards more score and sells for more |
| Economy.BasePrice | script.js:23-31 | every upgrade's base price lies between 200 and 500 and is a multiple of 100 |
| Economy.UpgradePrice | script.js:351 | the price is the base price times the level; it is at least the base price from level 1 and always a multiple of 10, so the `price / 10` bonus is a whole number |
| Economy.CatchChance | script.js:269-272 | the catch chance is the minimum of 70 + 5*rod and 95, so it never exceeds 95 |
| Economy.CatchChanceMonotone | script.js:270-272 | a higher rod level never lowers the catch chance |
| Economy.RarityOf | script.js:286-298 | the fish is common exactly when the draw is below 60; a legendary fish needs a draw of at least 95 + 5*bait |
| Economy.RarityMonotone | script.js:289-298 | a larger draw never yields a more common rarity |
| Economy.HighBaitOnlyCommonOrRare | script.js:292-298 | for bait level 3 or higher and a draw below 100, the fish is common or rare, never epic or legendary |
| Economy.LegendaryUnreachable | script.js:294-298 | for any bait level of at least 1 and a draw below 100, no fish is legendary |
| Economy.SaleValue | script.js:333-338 | the total of a sale is never negative, and it is 0 when no sold count is positive |
| Economy.SaleValueOfInventory | script.js:333-338 | selling a whole valid inventory yields 10, 50, 200 and 1000 per common, rare, epic and legendary fish |
| Economy.SaleValueZeroIffEmpty | script.js:340-347 | a valid inventory sells for 0 exactly when all its counts are 0 |
| Economy.PurchaseError | script.js:350-361 | the purchase fails with NotEnoughMoney exactly when money < price, whatever the level; it fails with MaxLevelReached exactly when the price is affordable and the level is at least 5; otherwise it succeeds |
| Economy.MaxLevelNeverUpgrades | script.js:353-361 | no purchase succeeds at level 5, whatever the money |
| Profiles.NewUser | script.js:159-167 | a new record keeps the given name and password and has money 100, score 0, no fish, every upgrade at level 1, and is valid |
| Profiles.RegistrationError | script.js:137-157 | registration succeeds exactly when the username and password both have at least 3 characters and the name is not stored; an empty field gives MissingCredentials; a short non-empty username gives UsernameTooShort; a valid username with a short non-empty password gives PasswordTooShort; a stored name with valid lengths gives UsernameTaken |
| Profiles.LoginError | script.js:115-130 | login succeeds exactly when both fields are non-empty and some stored record has this username and password; otherwise, for non-empty fields, it fails with InvalidCredentials |
| Profiles.RegisterThenLogin | script.js:152-170 | after a successful registration, logging in with the same credentials succeeds, and both lookups find the appended record |
| Profiles.RegisteredNameIsTaken | script.js:154-157 | a name that can log in can never be registered again |
| Profiles.UpdateFirstNamed | script.js:513-519 | only the first record with the player's name changes; the records of other players and the length are unchanged; with no such record, nothing changes |
| Profiles.WriteBack | script.js:463-469 | the first record with the player's name takes the session's score and money and keeps every other field; every other record stays; valid records stay valid |
| Ranking.Entries | script.js:473 | one entry per stored user, in storage order, carrying that user's name and score |
| Ranking.SortByScore | script.js:474 | the result is sorted by score, highest first, and is a permutation of its input |
| Ranking.Leaderboard | script.js:472-474 | the leaderboard has one entry per stored user, is sorted by score and is a permutation of the users' entries |
| Ranking.SortByScoreStable | script.js:474 | entries with equal scores keep their storage order (the sort is stable) |
| Ranking.LeaderboardSpec | script.js:471-474 | the leaderboard is the stored users' (name, score) entries, sorted descending, permuted and stable |
| Ranking.PlayerRank | script.js:496 | the rank is 0 exactly when there is no player or the player is not on the board; otherwise it is 1 + the index of the player's first entry |
| Ranking.RankZeroIffUnstored | script.js:496 | on a freshly built leaderboard, a name is unranked exactly when no stored user has it, so every stored player is ranked |
| Game.RegisteredGameData | script.js:173 | the state after registration copies the new record's money, score, inventory and upgrades, has no phase, is valid, and differs from what a login loads from that record only in the phase |
| Game.Merge | script.js:516-519 | the merged record keeps the stored name and password and takes the session's score, money, inventory and upgrades; a valid record merged with a valid state stays valid |
| Game.LoadedGameData | script.js:529-537 | a loaded game state is Idle and never has money 0, and a valid record loads into a valid state |
| Game.SaveThenLoad | script.js:516-537 | loading a just-saved record gives back the saved state, with the phase reset to Idle and money 0 turned into 100 |
| Game.StoreAfterSave | script.js:509-523 | saving as a guest, or with no player, leaves the store unchanged; otherwise the player's first record is merged with the game state, every other record stays, and validity is kept |
| Game.WithCatch | script.js:300-312 | a catch adds 1 to the chosen rarity's count only, adds exactly that rarity's catch score to the score, and leaves money, upgrades and phase unchanged |
| Game.FishingGame.constructor | script.js:2-35 | a new game has no player, is not a guest, has money 100, score 0, an empty inventory, every level at 1, phase Idle and an empty leaderboard |
| Game.FishingGame.CastLine | script.js:220-228 | a cast starts (phase Casting, settle timer scheduled) exactly when the phase is Idle; otherwise nothing changes |
| Game.FishingGame.SettleTimerFires | script.js:232-237 | the settle callback sets Waiting unconditionally and schedules the bite timer |
| Game.FishingGame.BiteTimerFires | script.js:238-243 | the bite callback moves Waiting to FishOn and schedules the escape timer; in any other phase it changes nothing |
| Game.FishingGame.EscapeTimerFires | script.js:245-253 | the escape callback moves FishOn to Idle; in any other phase it changes nothing |
| Game.FishingGame.ReelIn | script.js:259-282 | reeling changes nothing unless the phase is FishOn; otherwise the phase becomes Idle, and the fish is caught (with the rarity drawn from the bait level) exactly when the draw is below the rod's catch chance |
| Game.FishingGame.CatchFish | script.js:284-328 | the rarity comes from the draw and the bait level; exactly that count and the score grow; a non-guest's stored score and money are updated and the leaderboard is rebuilt |
| Game.FishingGame.SellAllFish | script.js:330-348 | the total is the inventory's sale value; all counts become 0; money grows by exactly the total; score and upgrades stay; the game is saved only when the total is positive |
| Game.FishingGame.BuyUpgrade | script.js:350-370 | on failure nothing changes; on success money falls by base*level, the level rises by 1, the score rises by price/10, and the game is saved; money stays >= 0 and the level stays <= 5 (`Valid`) |
| Game.FishingGame.Register | script.js:133-176 | on failure nothing changes; on success exactly one default record is appended, existing records are unchanged, the new user is active, and the game state has no phase |
| Game.FishingGame.Login | script.js:110-131 | on failure nothing changes; on success the user is active and the game state is loaded from the first record with that name |
| Game.FishingGame.LoadGameData | script.js:525-539 | the game state is loaded from the first record named like the player; if there is none, it is left unchanged |
| Game.FishingGame.PlayAsGuest | script.js:178-189 | the guest becomes the active player; the game state is left as it is |
| Game.FishingGame.SaveGame | script.js:509-523 | the store becomes `StoreAfterSave` of the old store, so a guest never writes to it |
| Game.FishingGame.UpdateLeaderboard | script.js:459-475 | a guest changes nothing; otherwise the player's stored score and money are written back and the leaderboard is rebuilt from the store |
| Game.FishingGame.Logout | script.js:541-552 | the game is saved (not for a guest), then no player is active and the guest flag is cleared; the game state is not reset |

## Left out

- Rendering and the DOM (`updateUI`, `showGameScreen`, `showMessage`, `showError`, the modals, the chat display and badge, the leaderboard markup and its top-10 slice): presentation only.
- Event wiring in `bindEvents` and the 30-second autosave interval: plumbing. The saving itself is `SaveGame`.
- Timer delays (500 ms settle, 1000–3000 ms bite, 3000 ms escape): the callbacks are events, and any order of the scheduled events is allowed.
- `Math.random` and floating-point arithmetic: draws are integer hundredths. A threshold that floating-point rounding puts a hair off its hundredth is not modelled.
- `localStorage` and JSON: the store is a sequence of records. Keys that the source spreads into a record but never reads back (`fishingState`, `chatUnread`, `createdAt`) are not kept.
- `currentUser` is modelled by its username only, the only part the core reads.
- `loadMockData` (fixed fixtures): the initial store is a constructor parameter.
- The chat mock (`sendChatMessage`, `openChat`, unread counters): canned replies and clock formatting, with no game logic.
- `switchLeaderboardTab`: it depends on an ambient global `event` and only redraws.
- The random guest name: `PlayAsGuest` takes the name as a parameter.
- `trim()` of the username: the model receives the trimmed username. Lengths are counted in Unicode characters, not UTF-16 code units.
- Game.FishingGame.ReelIn: requires a signed-in player. The reel button exists only on the game screen, and without a player `updateLeaderboard` (script.js:463) would dereference a null `currentUser`.
- Game.FishingGame.CatchFish: requires a signed-in player, for the same reason.
- Game.FishingGame.UpdateLeaderboard: requires a signed-in player, for the same reason.
- Game.FishingGame.BiteTimerFires: requires a scheduled bite callback. A timer fires only after it has been scheduled.
- Game.FishingGame.SettleTimerFires: requires a scheduled settle callback, for the same reason.
- Game.FishingGame.EscapeTimerFires: requires a scheduled escape callback, for the same reason.
