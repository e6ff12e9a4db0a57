/** The collaborators the training-set builder reads through its `env`:
    the player store, the game store and the activation store. Their
    implementations are not part of this model; each query is a parameter
    (a function-typed field of `Env`), and what the builder may rely on
    about an answer is stated as a separate predicate. */
module Stores {

  datatype Option<+T> = None | Some(value: T)

  type PlayerId = string
  type GameId = string

  /** A player record; `engine` marks a known cheater. */
  datatype Player = Player(id: PlayerId, engine: bool)

  /** An upstream detector's score for one player's play in one game. */
  datatype GameActivation = GameActivation(gameId: GameId, userId: PlayerId, engine: bool, prediction: int)

  /** A game. `g.tensor(pid)` yields the move-statistics tensor of player
      `pid` in this game, or nothing when the game lacks the data for it. */
  datatype Game<T> = Game(id: GameId, tensors: map<PlayerId, T>)
  {
    function Tensor(pid: PlayerId): (r: Option<T>)
      ensures r.Some? <==> pid in tensors
      ensures r.Some? ==> r.value == tensors[pid]
    {
      if pid in tensors then Some(tensors[pid]) else None
    }
  }

  /** The store queries the builder issues, as answered by one snapshot of the stores:
      `playerDB.byEngine`, `gameDB.byUserId`, `gameDB.byIds` and
      `gameBasicActivationDB.byEngineAndPrediction`. */
  datatype Env<T> = Env(
    byEngine: bool -> seq<Player>,
    byUserId: PlayerId -> seq<Game<T>>,
    byIds: seq<GameId> -> seq<Game<T>>,
    byEngineAndPrediction: (bool, int) -> seq<GameActivation>)

  /** `byEngine(flag)` answers only players whose flag is `flag`. */
  ghost predicate PlayerStoreSound<T>(env: Env<T>)
  {
    forall flag: bool, p: Player :: p in env.byEngine(flag) ==> p.engine == flag
  }

  /** `byEngineAndPrediction(flag, minScore)` answers only activations with that
      flag and a score of at least `minScore`. */
  ghost predicate ActivationStoreSound<T>(env: Env<T>)
  {
    forall flag: bool, minScore: int, a: GameActivation ::
      a in env.byEngineAndPrediction(flag, minScore) ==> a.engine == flag && a.prediction >= minScore
  }
}
