/**
 The rating system's player store: a map from player ID to player record,
 plus the three default values every new player starts with.

 The defaults are fixed when the system is built and no operation writes them.
 Creating a player with an ID already in use, or removing one whose ID is
 unknown, is rejected before anything is changed; the rejection is a `Failure`
 carrying `DuplicatePlayer` or `PlayerNotFound`. The defaults are handed to the
 new player exactly as given, with no conversion between rating scales.
 */
module GlickoStore {
  import opened Results
  import opened Players

  /** Why a store operation was rejected. */
  datatype Error = DuplicatePlayer | PlayerNotFound

  /** The store: default values for new players, and the players by ID. */
  datatype Glicko<ID> = Glicko(defaults: Values, players: map<ID, Player>)

  /** A freshly created player of `g`: current and staged values are the defaults. */
  function DefaultPlayer<ID>(g: Glicko<ID>): (p: Player)
    ensures p.current == g.defaults && p.staged == g.defaults
  {
    NewPlayer(g.defaults.rating, g.defaults.deviation, g.defaults.volatility)
  }

  /** An empty store whose defaults are the three arguments, verbatim. */
  function NewGlicko<ID>(initialRating: real, initialDeviation: real, initialVolatility: real): (g: Glicko<ID>)
    ensures Get(g.defaults, Rating) == initialRating
    ensures Get(g.defaults, Deviation) == initialDeviation
    ensures Get(g.defaults, Volatility) == initialVolatility
    ensures |g.players| == 0
  {
    Glicko(Values(initialRating, initialDeviation, initialVolatility), map[])
  }

  /**
   Adds a player with the default values under `id`; rejected with
   `DuplicatePlayer` when `id` is already in use.
   */
  function CreatePlayer<ID>(g: Glicko<ID>, id: ID): (r: Result<Glicko<ID>, Error>)
    ensures r.Failure? <==> id in g.players
    ensures r.Failure? ==> r.error == DuplicatePlayer
    ensures r.Success? ==> r.value.defaults == g.defaults
    ensures r.Success? ==> r.value.players.Keys == g.players.Keys + {id}
    ensures r.Success? ==> r.value.players[id].current == g.defaults
    ensures r.Success? ==> r.value.players[id].staged == g.defaults
    ensures r.Success? ==> forall k :: k in g.players ==> r.value.players[k] == g.players[k]
  {
    if id in g.players then Failure(DuplicatePlayer)
    else Success(g.(players := g.players[id := DefaultPlayer(g)]))
  }

  /** Deletes the player `id`; rejected with `PlayerNotFound` when there is none. */
  function RemovePlayer<ID>(g: Glicko<ID>, id: ID): (r: Result<Glicko<ID>, Error>)
    ensures r.Failure? <==> id !in g.players
    ensures r.Failure? ==> r.error == PlayerNotFound
    ensures r.Success? ==> r.value.defaults == g.defaults
    ensures r.Success? ==> r.value.players.Keys == g.players.Keys - {id}
    ensures r.Success? ==> forall k :: k in r.value.players ==> r.value.players[k] == g.players[k]
  {
    if id !in g.players then Failure(PlayerNotFound)
    else Success(g.(players := g.players - {id}))
  }

  /** Creating a player and then removing it gives back the store it was created in. */
  lemma CreateThenRemove<ID>(g: Glicko<ID>, id: ID)
    requires id !in g.players
    ensures CreatePlayer(g, id).Success?
    ensures RemovePlayer(CreatePlayer(g, id).value, id) == Success(g)
  {
    assert RemovePlayer(CreatePlayer(g, id).value, id).value.players == g.players;
  }

  /** Removing a player that still has the default values and creating it again gives back the store. */
  lemma RemoveThenCreate<ID>(g: Glicko<ID>, id: ID)
    requires id in g.players && g.players[id] == DefaultPlayer(g)
    ensures RemovePlayer(g, id).Success?
    ensures CreatePlayer(RemovePlayer(g, id).value, id) == Success(g)
  {
    assert CreatePlayer(RemovePlayer(g, id).value, id).value.players == g.players;
  }

  // ---------------------------------------------------------------------------
  // Sequences of calls on one store

  /** A call a client makes on the store. */
  datatype Call<ID> = Create(id: ID) | Remove(id: ID)

  /** The call `c` would be rejected by `g`. */
  predicate Rejected<ID>(g: Glicko<ID>, c: Call<ID>)
  {
    match c
    case Create(id) => CreatePlayer(g, id).Failure?
    case Remove(id) => RemovePlayer(g, id).Failure?
  }

  /** What a call does to the set of IDs in use, accepted or not. */
  function UpdateKeys<ID>(ks: set<ID>, c: Call<ID>): set<ID>
  {
    match c
    case Create(id) => ks + {id}
    case Remove(id) => ks - {id}
  }

  /**
   The store after the call `c`, where a rejected call is caught by the client:
   the check precedes every change, so the store is left as it was.
   */
  function Step<ID>(g: Glicko<ID>, c: Call<ID>): (r: Glicko<ID>)
    ensures Rejected(g, c) ==> r == g
    ensures r.defaults == g.defaults
    ensures r.players.Keys == UpdateKeys(g.players.Keys, c)
    ensures forall k :: k in g.players && k != c.id ==> k in r.players && r.players[k] == g.players[k]
    ensures c.Create? && !Rejected(g, c) ==> r.players[c.id] == DefaultPlayer(g)
  {
    var result := match c
      case Create(id) => CreatePlayer(g, id)
      case Remove(id) => RemovePlayer(g, id);
    match result
    case Success(g') => g'
    case Failure(_) => g
  }

  /** The store after the calls `cs`, in order. */
  function Run<ID>(g: Glicko<ID>, cs: seq<Call<ID>>): Glicko<ID>
    decreases |cs|
  {
    if cs == [] then g else Run(Step(g, cs[0]), cs[1..])
  }

  /** The set of IDs in use after the calls `cs`, computed on sets alone. */
  function KeysAfter<ID>(ks: set<ID>, cs: seq<Call<ID>>): set<ID>
    decreases |cs|
  {
    if cs == [] then ks else KeysAfter(UpdateKeys(ks, cs[0]), cs[1..])
  }

  /** The IDs the calls `cs` name. */
  function Named<ID>(cs: seq<Call<ID>>): set<ID>
  {
    set c | c in cs :: c.id
  }

  /** Every player of `g` still has the default values. */
  predicate AllDefault<ID>(g: Glicko<ID>)
  {
    forall k :: k in g.players ==> g.players[k] == DefaultPlayer(g)
  }

  /** No sequence of calls changes the defaults. */
  lemma {:induction false} RunKeepsDefaults<ID>(g: Glicko<ID>, cs: seq<Call<ID>>)
    ensures Run(g, cs).defaults == g.defaults
    decreases |cs|
  {
    if cs != [] {
      RunKeepsDefaults(Step(g, cs[0]), cs[1..]);
    }
  }

  /** The IDs in use after a sequence of calls are those the set-level reference computes. */
  lemma {:induction false} RunKeys<ID>(g: Glicko<ID>, cs: seq<Call<ID>>)
    ensures Run(g, cs).players.Keys == KeysAfter(g.players.Keys, cs)
    decreases |cs|
  {
    if cs != [] {
      RunKeys(Step(g, cs[0]), cs[1..]);
    }
  }

  /** The store never changes a player's values: every player keeps the defaults it was created with. */
  lemma {:induction false} RunKeepsAllDefault<ID>(g: Glicko<ID>, cs: seq<Call<ID>>)
    requires AllDefault(g)
    ensures AllDefault(Run(g, cs))
    decreases |cs|
  {
    if cs != [] {
      var g' := Step(g, cs[0]);
      assert AllDefault(g') by {
        forall k | k in g'.players
          ensures g'.players[k] == DefaultPlayer(g')
        {
          if k != cs[0].id {
            assert g'.players[k] == g.players[k];
          }
        }
      }
      RunKeepsAllDefault(g', cs[1..]);
    }
  }

  /** A player whose ID no call names keeps its entry unchanged. */
  lemma {:induction false} RunFrame<ID>(g: Glicko<ID>, cs: seq<Call<ID>>, k: ID)
    requires k in g.players && k !in Named(cs)
    ensures k in Run(g, cs).players && Run(g, cs).players[k] == g.players[k]
    decreases |cs|
  {
    if cs != [] {
      assert cs[0] in cs;
      assert forall c :: c in cs[1..] ==> c in cs;
      RunFrame(Step(g, cs[0]), cs[1..], k);
    }
  }

  /** Every store built by the constructor and a sequence of calls has the given defaults and only default players. */
  lemma FromConstruction<ID>(initialRating: real, initialDeviation: real, initialVolatility: real, cs: seq<Call<ID>>)
    ensures Run(NewGlicko<ID>(initialRating, initialDeviation, initialVolatility), cs).defaults
         == Values(initialRating, initialDeviation, initialVolatility)
    ensures AllDefault(Run(NewGlicko<ID>(initialRating, initialDeviation, initialVolatility), cs))
  {
    var g := NewGlicko<ID>(initialRating, initialDeviation, initialVolatility);
    RunKeepsDefaults(g, cs);
    RunKeepsAllDefault(g, cs);
  }
}
