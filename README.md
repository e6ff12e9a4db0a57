# Training-set assembly of irwin's basic game model

irwin is a cheat detector for online chess. Its basic game model is a neural network that
classifies one game of one player as engine-assisted (label 1) or legitimate (label 0).
This project models and verifies the part of the model that builds its training set:

* `getTrainingDataset(filtered)` collects one move-statistics tensor per (game, player) from
  the stores. In **unfiltered** mode it walks the players returned by `byEngine(False)` and then
  by `byEngine(True)`. Every tensor of a player's games goes to the cheat list when the player's
  `engine` flag is set and to the legit list otherwise. In **filtered** mode the legit list is
  the tensors of the players returned by `byEngine(False)`. The cheat list comes from the
  activations with engine flag set and a score of at least 70. The games for those activations
  are fetched by id, and game `i` is paired with activation `i` by `zip`. Absent tensors (`None`)
  are then dropped, and each list is shuffled.
* `createBatchAndLabels(cheats, legits)` truncates both lists to the shorter length `mlen`. It
  labels the cheats 1 and the legits 0, zips tensors with labels, shuffles the pairs jointly and
  unzips them into `data` and `labels`.

Files:

* `seqs.dfy` (module `Seqs`): Python's `zip`, list comprehensions, `[x] * n`, `min` and `sum`.
  It also holds the lemma that applying a function element-wise preserves permutations.
* `stores.dfy` (module `Stores`): players, games, activations and the store queries.
  * Each query is a function-typed field of `Env`, because the stores' code is not part of this
    model.
  * `PlayerStoreSound` and `ActivationStoreSound` state what the stores are expected to answer.
    They appear only as `requires` of the lemmas that depend on them, never of the operations.
  * `Game.Tensor(pid)` is a lookup in a map and yields `None` for a player without a tensor.
* `basic_game_model.dfy` (module `BasicGameModel`): the two operations and their properties.
  * Tensors are an opaque type parameter `T`.
  * `GetTrainingDataset` is a method whose `for` loops grow the two lists as the source's
    `.extend` loops do. It is proved against the specification function `Gather`.
  * Each `random.shuffle` is the method `Shuffle`. It returns an arbitrary reordering of its
    input, chosen with `:|`.

## Model

| member | source | states |
|---|---|---|
| `BasicGameModel.GetTrainingDataset` | modules/irwin/BasicGameModel.py:85-115 | Let `c` and `l` be the present gathered tensors of each class and `m = min(len(c), len(l))`. Then `data` and `labels` both have length `2*m`. Labels are 0/1: `m` ones and `m` zeros. Each (tensor, label) pair is drawn without replacement from `c` labelled 1 plus `l` labelled 0, so a tensor labelled 1 is in `c` and one labelled 0 is in `l`. If either class is empty, the batch is empty. |
| `BasicGameModel.CreateBatchAndLabels` | modules/irwin/BasicGameModel.py:117-135 | `data` and `labels` both have length `2*min(len(cheatBatch), len(legitBatch))`. The multiset of (tensor, label) pairs equals that of `zip(cheats[:mlen] + legits[:mlen], [1]*mlen + [0]*mlen)`. Labels are exactly `mlen` ones and `mlen` zeros, so `sum(labels) == len(labels) - sum(labels)`. The data are a permutation of the two prefixes. Every tensor labelled 1 is in the cheat prefix and every one labelled 0 is in the legit prefix. An empty input gives an empty batch and no error. |
| `BasicGameModel.ShuffledBatchFacts` | modules/irwin/BasicGameModel.py:127-134 | Take any reordering of the labelled pairs and unzip it. The result is a balanced batch of equal-length `data` and `labels`, and no tensor–label pairing is broken. |
| `BasicGameModel.BalancedPairs` | modules/irwin/BasicGameModel.py:120-129 | The zipped list has length `2*mlen`. Unzipping it gives back `cheats[:mlen] + legits[:mlen]` and `[1]*mlen + [0]*mlen`. |
| `BasicGameModel.Shuffle` | modules/irwin/BasicGameModel.py:111-112 | The shuffled list holds the same elements with the same multiplicities. |
| `BasicGameModel.Present` | modules/irwin/BasicGameModel.py:108-109 | The filter keeps exactly the non-`None` tensors, each as often as it occurs. It is never longer than its input. |
| `BasicGameModel.PresentAppend` | modules/irwin/BasicGameModel.py:108-109 | The `None` filter distributes over concatenation, so it keeps the original relative order. |
| `BasicGameModel.PresentOfAllSome` | modules/irwin/BasicGameModel.py:108-109 | With no tensor absent, the filter returns the list unchanged. |
| `BasicGameModel.ActivatedTensors` | modules/irwin/BasicGameModel.py:96-98 | There are `min(len(cheatGames), len(cheatGameActivations))` cheat tensors. The i-th is `cheatGames[i].tensor(activations[i].userId)`. |
| `BasicGameModel.FilteredCheatsAreConfident` | modules/irwin/BasicGameModel.py:96-98 | In filtered mode, each cheat tensor comes from the activation in the same position. With a sound activation store, that activation is flagged engine and scores at least 70. |
| `BasicGameModel.FilteredLegitsAgree` | modules/irwin/BasicGameModel.py:92-106 | With a sound player store, filtered and unfiltered mode gather the same legit tensors. |
| `BasicGameModel.RoutedIsSelection` | modules/irwin/BasicGameModel.py:102-106 | A tensor of player `p`'s games goes to the list of class `e` if and only if `p.engine == e`, in player order. |
| `BasicGameModel.RoutingPartitions` | modules/irwin/BasicGameModel.py:102-106 | In unfiltered mode, every gathered tensor lands in exactly one of the two lists. Together the lists hold all players' tensors with their multiplicities. |
| `BasicGameModel.UnfilteredGathersByFlag` | modules/irwin/BasicGameModel.py:99-106 | With a sound player store, unfiltered mode gathers exactly the tensors of `byEngine(True)` as cheats and those of `byEngine(False)` as legits. |
| `BasicGameModel.BatchWithinPools` | modules/irwin/BasicGameModel.py:108-123 | A batch made from reorderings of the two present lists uses each tensor at most as often as its class holds it, and only under its own class's label. |
| `BasicGameModel.BalancedPairsOfEqualClasses` | modules/irwin/BasicGameModel.py:111-123 | When both classes have the same size, nothing is truncated. The multiset of labelled pairs is then the same whatever order the earlier shuffles produced. |
| `BasicGameModel.TruncationDependsOnShuffle` | modules/irwin/BasicGameModel.py:111-123 | Suppose the legit class is shorter than the cheat class. Take a kept cheat and a dropped cheat that are different tensors. Swapping them gives a reordering of the cheat list, and the batch built from it has a different multiset of labelled pairs. |
| `BasicGameModel.CheatPairCount` | modules/irwin/BasicGameModel.py:120-129 | A tensor labelled 1 occurs in the zipped list exactly as often as it occurs in `cheats[:mlen]`. |
| `Seqs.MapPermutation` | modules/irwin/BasicGameModel.py:129-134 | Unzipping a jointly shuffled list gives permutations of the unshuffled tensors and labels. |

Two builds from the same store contents need not give the same multiset of (tensor, label)
pairs. They always do when both classes have the same number of present tensors
(`BalancedPairsOfEqualClasses`). The classes are shuffled before they are truncated, so when
their sizes differ and the longer class holds two different tensors on either side of the cut,
which surplus tensors are dropped depends on the shuffle (`TruncationDependsOnShuffle`).

In filtered mode the code pairs the answer of `gameDB.byIds` with the activations by position.
The model keeps that pairing and assumes nothing about the order of the `byIds` answer or
about missing ids. A store that reorders or skips games would pair a tensor with the wrong
player; `FilteredCheatsAreConfident` states the pairing exactly as the code makes it.

## Left out

- `model()` (modules/irwin/BasicGameModel.py:16-64): building the Keras network, loading it from disk and the `lru_cache` memoisation are framework calls and floating-point numerics.
- `train` and `saveModel` (modules/irwin/BasicGameModel.py:66-83): gradient-based fitting inside Keras and writing an opaque `.h5` file.
- Logging calls: diagnostic only.
- The `np.array` conversion of the batch and the (100, 6) shape of a tensor. The batch is a pair of sequences, and a tensor is an opaque type parameter.
- The random number generator behind `random.shuffle`. `Shuffle` is any permutation, not CPython's Fisher–Yates driven by a Mersenne Twister.
- The store implementations: `playerDB.byEngine`, `gameDB.byUserId`, `gameDB.byIds` and `gameBasicActivationDB.byEngineAndPrediction` are parameters. Their code is not part of this model. The meaning of the threshold, "a score of at least `minScore`", is stated in `ActivationStoreSound` and is an assumption.
- Stores that change between queries, or between two builds, are not modelled. Every query is answered from one fixed snapshot of the stores (`Env`), and `FilteredLegitsAgree` compares the two modes against that same snapshot.
- How `Game.tensor` computes a tensor from move statistics is not part of this model. `Game.Tensor` only records for which players a tensor exists.
- `Api.insertAnalysedGames` (modules/game/Api.py:12-17): a wrapper that decodes records with `AnalysedGameBSONHandler` (not part of this model) and writes them to a database. As written it does not run: it uses Python 2 `except KeyError, ValueError` syntax and a bare `env` instead of `self.env`.
