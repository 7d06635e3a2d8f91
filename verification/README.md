# Glicko rating library: player bookkeeping

This project models the bookkeeping layer of a C++ Glicko-2 rating library and
proves properties of it in Dafny. It has three parts:

- **Player record** (`player.dfy`, module `Players`). Each player has a current
  rating, deviation and volatility, and a staged ("new") copy of each. The
  setters write only the staged copy. `AdoptNewValues` copies all three staged
  values into the current ones in one step. The getters read the current values.
- **Player store** (`glicko.dfy`, module `GlickoStore`). A map from a generic
  player ID to a player, plus three defaults fixed at construction.
  `CreatePlayer` rejects an ID already in use with `DuplicatePlayer`.
  `RemovePlayer` rejects an unknown ID with `PlayerNotFound`. Both check before
  they change anything. A new player gets the defaults exactly as given.
- **Game record** (`game.dfy`, module `Games`). Two player IDs and a
  three-valued outcome (`Player1`, `Tie`, `Player2`), with no validation.

`result.dfy` (module `Results`) holds the `Result` type that replaces the
library's exceptions.

Design choices:

- The library stores doubles and only copies them. The model uses `real` and
  stores every value unchanged.
- An exception becomes a `Failure` result. The object is left unchanged when a
  call throws. `GlickoStore.Step` models this: a client that catches the
  exception still has the old store.
- The three setters are also modelled as a sequence of `Staging` commands. This
  lets the model state that the order of setter calls on different fields does
  not matter. Each staged field ends up holding its *last write*, and
  `LastWrite` defines that last write independently.
- A sequence of store calls is modelled by `Run`. The lemmas about it say that
  the defaults never change and that the store never edits a player's values.
  They also say the set of IDs in use can be computed on sets alone, and that
  players no call names are left alone.

Facts about the code that shape the model:

- The store's constructor (glicko.h:47-52) takes a default rating, deviation
  and volatility, and no tau. glicko.h:75 hands them to the new player
  verbatim, although player.h:35 says the player's values are on the Glicko-2
  scale. The model stores them verbatim too.
- The modelled code has no rating update, no scaling, no game log and no getter
  on the store. These are listed under "## Left out".

## Model

| member | source | states |
|---|---|---|
| Players.NewPlayer | player.h:47-55 | A new player's current and staged rating, deviation and volatility all equal the constructor's arguments, so nothing is pending |
| Players.GettersReadCurrent | player.h:61-82 | Each getter returns the current value: replacing the staged values changes no getter's result |
| Players.RebuildFromGetters | player.h:47-82 | Rebuilding a player from its three getters gives back the same player exactly when nothing is staged that differs from the current values |
| Players.SetNewRating | player.h:89-92 | Only the staged rating changes, to the argument; the other staged values and every getter are unchanged |
| Players.SetNewDeviation | player.h:99-102 | Only the staged deviation changes, to the argument; the other staged values and every getter are unchanged |
| Players.SetNewVolatility | player.h:109-112 | Only the staged volatility changes, to the argument; the other staged values and every getter are unchanged |
| Players.AdoptNewValues | player.h:116-121 | Afterwards each getter reports the corresponding staged value, and nothing is left pending |
| Players.AdoptIdempotent | player.h:116-121 | Adopting twice gives the same player as adopting once |
| Players.AdoptFixesCommitted | player.h:116-121 | Adopting leaves a player unchanged exactly when its staged values equal its current ones |
| Players.AdoptAfterConstruction | player.h:116-121 | Adopting straight after construction, with no setter called, changes nothing |
| Players.Stage | player.h:89-112 | One setter call sets its own staged field, leaves the other staged fields alone and never touches the current values |
| Players.StageAllIsLastWrite | player.h:89-112 | After any sequence of setter calls, the current values are unchanged and each staged field holds the last value written to it, or its earlier value if none was |
| Players.SetterOrderIrrelevant | player.h:89-112 | Any reordering of setter calls that write distinct fields leaves the player in the same state |
| Players.ThreeSettersAnyOrder | player.h:89-121 | Calling the three setters once each in any order and then adopting makes the three given values current |
| Games.NewGame | game.h:55-87 | The getters return the constructor's player 1 ID, player 2 ID and outcome; there is no precondition, so any pair of IDs is accepted, equal IDs included |
| Games.GameFromGetters | game.h:55-87 | Rebuilding a game from its three getters gives back the same game |
| Games.NewGameInjective | game.h:55-60 | Two recorded games are equal exactly when their IDs and outcomes are equal |
| Games.GameResultThreeValues | game.h:35-40 | An outcome is one of `Player1`, `Tie` or `Player2`, and these three are distinct |
| GlickoStore.NewGlicko | glicko.h:47-52 | A new store has no players and keeps the three constructor arguments as its defaults, unchanged |
| GlickoStore.DefaultPlayer | glicko.h:75 | A created player's current and staged values are the store's defaults, passed through without conversion |
| GlickoStore.CreatePlayer | glicko.h:67-76 | Fails with `DuplicatePlayer` exactly when the ID is in use. On success: the defaults are kept, the key set grows by exactly that ID, the new entry holds the defaults, and every other entry is unchanged |
| GlickoStore.RemovePlayer | glicko.h:83-94 | Fails with `PlayerNotFound` exactly when the ID is unknown. On success: the defaults are kept, the key set loses exactly that ID, and every remaining entry is unchanged |
| GlickoStore.CreateThenRemove | glicko.h:67-94 | Creating an unused ID succeeds, and removing it again restores the original store |
| GlickoStore.RemoveThenCreate | glicko.h:67-94 | Removing a player that still holds the defaults and creating it again restores the original store |
| GlickoStore.Step | glicko.h:67-94 | A rejected call leaves the store unchanged. Every call keeps the defaults and changes the key set as set insertion or deletion would. An accepted create gives the new entry the default values. Entries for other IDs are unchanged |
| GlickoStore.RunKeepsDefaults | glicko.h:98-100 | No sequence of create and remove calls changes the defaults |
| GlickoStore.RunKeys | glicko.h:67-94 | After a sequence of calls, the IDs in use are the ones computed by inserting and deleting IDs in a plain set |
| GlickoStore.RunKeepsAllDefault | glicko.h:67-94 | If every player holds the defaults before a sequence of calls, every player holds them afterwards: the store never edits a player's values |
| GlickoStore.RunFrame | glicko.h:67-94 | A player whose ID no call in the sequence names keeps its entry unchanged |
| GlickoStore.FromConstruction | glicko.h:47-52 | Every store reached from the constructor by create and remove calls has the constructor's defaults, and all its players hold them |

## Left out

- The Glicko-2 rating update is left out: expected score, variance, the iterative volatility solve, and the new deviation and rating. The modelled code contains none of it.
- Conversion between the public rating scale and the Glicko-2 scale is left out. The modelled code never converts. Tau, the game log, and reading ratings by ID from the store are left out for the same reason.
- Floating point is not modelled. Values are `real`, and the code only stores and copies them. NaN, whose comparisons behave differently, has no counterpart.
- Exception messages, file names and line numbers (exceptions.h) are not modelled. A thrown exception is a `Failure` with `DuplicatePlayer` or `PlayerNotFound`.
- Pointer ownership is not modelled: `new`, `delete`, `qDeleteAll` in the destructor, and the deleted copy and move operations (glicko.h:56-59, 92, 101-104; defines.h). Players are values held in a Dafny `map`.
- `QMap` key ordering is not modelled. Only membership and lookup are used.
- The demonstration program main.cpp is not modelled.
- The default value `Tie` of a game's outcome field (game.h:92) is not modelled. The constructor always overwrites it.
