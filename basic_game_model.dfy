/** The training-set builder of the basic game model: it gathers one
    tensor per (game, player), labels it cheat or legit, drops the absent
    tensors, shuffles, balances the two classes by truncation and
    shuffles the labelled pairs jointly into a batch.

    Tensors are an opaque type parameter `T`; the stores are read through
    an `Env`; each call of `random.shuffle` is an arbitrary permutation. */
module BasicGameModel {
  import opened Seqs
  import opened Stores

  /** Label of an engine-assisted (cheat) sample. */
  const CheatLabel := 1
  /** Label of a legitimate sample. */
  const LegitLabel := 0
  /** Minimum activation score of a game used as a cheat sample in filtered mode. */
  const CheatThreshold := 70

  /** The returned batch: `data[i]` is the tensor labelled `labels[i]`. */
  datatype Batch<T> = Batch(data: seq<T>, labels: seq<int>)

  /** The tensor lists before the `None` filter: cheat and legit. */
  datatype Gathered<T> = Gathered(cheat: seq<Option<T>>, legit: seq<Option<T>>)

  // ---------------------------------------------------------------------
  // Gathering

  /** `[g.tensor(pid) for g in games]` */
  function GameTensors<T>(games: seq<Game<T>>, pid: PlayerId): seq<Option<T>>
  {
    Map((g: Game<T>) => g.Tensor(pid), games)
  }

  /** The tensors of all games of player `p`, for `p`. */
  function PlayerTensors<T>(env: Env<T>, p: Player): seq<Option<T>>
  {
    GameTensors(env.byUserId(p.id), p.id)
  }

  /** The tensors of every player of `ps`, player after player. */
  function AllTensors<T>(env: Env<T>, ps: seq<Player>): seq<Option<T>>
  {
    if ps == [] then [] else AllTensors(env, ps[..|ps| - 1]) + PlayerTensors(env, ps[|ps| - 1])
  }

  /** The tensors the unfiltered loop sends to the list of class `engine`:
      those of the players of `ps` whose flag is `engine`, in order. */
  function RoutedTensors<T>(env: Env<T>, ps: seq<Player>, engine: bool): seq<Option<T>>
  {
    if ps == [] then []
    else
      var p := ps[|ps| - 1];
      RoutedTensors(env, ps[..|ps| - 1], engine) + (if p.engine == engine then PlayerTensors(env, p) else [])
  }

  /** The players of `ps` whose flag is `engine`, in order. */
  function PlayersWith(ps: seq<Player>, engine: bool): seq<Player>
  {
    if ps == [] then []
    else PlayersWith(ps[..|ps| - 1], engine) + (if ps[|ps| - 1].engine == engine then [ps[|ps| - 1]] else [])
  }

  /** The game id of every activation of `acts`, in order. */
  function ActivationGameIds(acts: seq<GameActivation>): seq<GameId>
  {
    Map((a: GameActivation) => a.gameId, acts)
  }

  /** For each game of `games` paired positionally with the activation of `acts`,
      as far as the shorter goes, that game's tensor for the activation's player. */
  function ActivatedTensors<T>(games: seq<Game<T>>, acts: seq<GameActivation>): (r: seq<Option<T>>)
    ensures |r| == Min(|games|, |acts|)
    ensures forall i :: 0 <= i < |r| ==> r[i] == games[i].Tensor(acts[i].userId)
  {
    Map((ga: (Game<T>, GameActivation)) => ga.0.Tensor(ga.1.userId), Zip(games, acts))
  }

  /** What `getTrainingDataset` has collected when its first phase ends. */
  function Gather<T>(env: Env<T>, filtered: bool): Gathered<T>
  {
    if filtered then
      var acts := env.byEngineAndPrediction(true, CheatThreshold);
      Gathered(ActivatedTensors(env.byIds(ActivationGameIds(acts)), acts),
               AllTensors(env, env.byEngine(false)))
    else
      var ps := env.byEngine(false) + env.byEngine(true);
      Gathered(RoutedTensors(env, ps, true), RoutedTensors(env, ps, false))
  }

  /** `[t for t in s if t is not None]`: the present tensors, each as often as it
      occurs, in their original order (see PresentAppend). */
  function Present<T>(s: seq<Option<T>>): (r: seq<T>)
    ensures |r| <= |s|
    ensures multiset(Map((t: T) => Some(t), r)) == multiset(s)[None := 0]
  {
    if s == [] then []
    else
      var init, last := s[..|s| - 1], s[|s| - 1];
      var tail := if last.Some? then [last.value] else [];
      assert s == init + [last];
      MapAppend((t: T) => Some(t), Present(init), tail);
      Present(init) + tail
  }

  // ---------------------------------------------------------------------
  // Batching

  /** `random.shuffle`: the list afterwards is some reordering of the list before. */
  method Shuffle<A(==)>(s: seq<A>) returns (r: seq<A>)
    ensures multiset(r) == multiset(s)
  {
    r :| multiset(r) == multiset(s);
  }

  /** The labelled pairs before the joint shuffle: the first `mlen` cheats labelled 1
      followed by the first `mlen` legits labelled 0, `mlen` being the shorter length. */
  function BalancedPairs<T>(cheats: seq<T>, legits: seq<T>): (r: seq<(T, int)>)
    ensures var m := Min(|cheats|, |legits|);
      |r| == 2 * m &&
      Firsts(r) == cheats[..m] + legits[..m] &&
      Seconds(r) == Repeat(CheatLabel, m) + Repeat(LegitLabel, m)
  {
    var m := Min(|cheats|, |legits|);
    MapAppend(Fst, Tag(cheats[..m], CheatLabel), Tag(legits[..m], LegitLabel));
    MapAppend(Snd, Tag(cheats[..m], CheatLabel), Tag(legits[..m], LegitLabel));
    Tag(cheats[..m], CheatLabel) + Tag(legits[..m], LegitLabel)
  }

  /** Any reordering of the balanced pairs, unzipped, is a balanced batch in which
      every tensor keeps the label of the class it was drawn from. */
  lemma ShuffledBatchFacts<T>(cheats: seq<T>, legits: seq<T>, blz: seq<(T, int)>)
    requires multiset(blz) == multiset(BalancedPairs(cheats, legits))
    ensures var m := Min(|cheats|, |legits|);
      var data, labels := Firsts(blz), Seconds(blz);
      |data| == |labels| == 2 * m &&
      AllBits(labels) &&
      multiset(labels)[CheatLabel] == m && multiset(labels)[LegitLabel] == m &&
      Sum(labels) == |labels| - Sum(labels) &&
      multiset(data) == multiset(cheats[..m] + legits[..m]) &&
      forall i :: 0 <= i < |labels| ==>
        (labels[i] == CheatLabel && data[i] in cheats[..m]) ||
        (labels[i] == LegitLabel && data[i] in legits[..m])
  {
    var m := Min(|cheats|, |legits|);
    var pairs := BalancedPairs(cheats, legits);
    var data, labels := Firsts(blz), Seconds(blz);
    assert |blz| == |multiset(blz)| == |pairs|;
    MapPermutation(Fst, blz, pairs);
    MapPermutation(Snd, blz, pairs);
    assert multiset(labels) == multiset(Repeat(CheatLabel, m)) + multiset(Repeat(LegitLabel, m));
    RepeatCount(CheatLabel, m, CheatLabel);
    RepeatCount(LegitLabel, m, CheatLabel);
    RepeatCount(CheatLabel, m, LegitLabel);
    RepeatCount(LegitLabel, m, LegitLabel);
    forall i | 0 <= i < |labels|
      ensures (labels[i] == CheatLabel && data[i] in cheats[..m]) ||
              (labels[i] == LegitLabel && data[i] in legits[..m])
    {
      assert blz[i] in multiset(pairs);
      if blz[i] in Tag(cheats[..m], CheatLabel) {
        InTag(cheats[..m], CheatLabel, blz[i]);
      } else {
        InTag(legits[..m], LegitLabel, blz[i]);
      }
    }
    SumOfBits(labels);
  }

  /** `createBatchAndLabels`: balance the two classes by truncation, label them,
      shuffle the labelled pairs jointly and unzip them. */
  method CreateBatchAndLabels<T(==)>(cheatBatch: seq<T>, legitBatch: seq<T>) returns (b: Batch<T>)
    ensures var m := Min(|cheatBatch|, |legitBatch|);
      |b.data| == |b.labels| == 2 * m &&
      multiset(Zip(b.data, b.labels)) == multiset(BalancedPairs(cheatBatch, legitBatch)) &&
      AllBits(b.labels) &&
      multiset(b.labels)[CheatLabel] == m && multiset(b.labels)[LegitLabel] == m &&
      Sum(b.labels) == |b.labels| - Sum(b.labels) &&
      multiset(b.data) == multiset(cheatBatch[..m] + legitBatch[..m]) &&
      forall i :: 0 <= i < |b.labels| ==>
        (b.labels[i] == CheatLabel && b.data[i] in cheatBatch[..m]) ||
        (b.labels[i] == LegitLabel && b.data[i] in legitBatch[..m])
    ensures cheatBatch == [] || legitBatch == [] ==> b.data == [] && b.labels == []
  {
    var mlen := Min(|cheatBatch|, |legitBatch|);
    var cheats := cheatBatch[..mlen];
    var legits := legitBatch[..mlen];
    var labels := Repeat(CheatLabel, |cheats|) + Repeat(LegitLabel, |legits|);
    var blz := Zip(cheats + legits, labels);
    ZipAppend(cheats, legits, Repeat(CheatLabel, mlen), Repeat(LegitLabel, mlen));
    ZipRepeatIsTag(cheats, CheatLabel);
    ZipRepeatIsTag(legits, LegitLabel);
    assert blz == BalancedPairs(cheatBatch, legitBatch);
    blz := Shuffle(blz);
    b := Batch(Firsts(blz), Seconds(blz));
    ZipUnzip(blz);
    ShuffledBatchFacts(cheatBatch, legitBatch, blz);
  }

  // ---------------------------------------------------------------------
  // The whole builder

  /** `getTrainingDataset`: gather the tensors of both classes, drop the absent
      ones, shuffle each class and batch them. The result is a balanced batch
      drawn, without replacement, from the present gathered tensors. */
  method GetTrainingDataset<T(==)>(env: Env<T>, filtered: bool) returns (batch: Batch<T>)
    ensures var g := Gather(env, filtered);
      var cheats, legits := Present(g.cheat), Present(g.legit);
      var m := Min(|cheats|, |legits|);
      |batch.data| == |batch.labels| == 2 * m &&
      AllBits(batch.labels) &&
      multiset(batch.labels)[CheatLabel] == m && multiset(batch.labels)[LegitLabel] == m &&
      multiset(Zip(batch.data, batch.labels)) <= multiset(Tag(cheats, CheatLabel)) + multiset(Tag(legits, LegitLabel)) &&
      forall i :: 0 <= i < |batch.labels| ==>
        (batch.labels[i] == CheatLabel && batch.data[i] in cheats) ||
        (batch.labels[i] == LegitLabel && batch.data[i] in legits)
    ensures var g := Gather(env, filtered);
      Present(g.cheat) == [] || Present(g.legit) == [] ==> batch.data == [] && batch.labels == []
  {
    var cheatTensors: seq<Option<T>> := [];
    var legitTensors: seq<Option<T>> := [];
    if filtered {
      var legits := env.byEngine(false);
      for i := 0 to |legits|
        invariant legitTensors == AllTensors(env, legits[..i])
      {
        var p := legits[i];
        legitTensors := legitTensors + GameTensors(env.byUserId(p.id), p.id);
        assert legits[..i + 1][..i] == legits[..i];
      }
      assert legits[..|legits|] == legits;
      var cheatGameActivations := env.byEngineAndPrediction(true, CheatThreshold);
      var cheatGames := env.byIds(ActivationGameIds(cheatGameActivations));
      cheatTensors := cheatTensors + ActivatedTensors(cheatGames, cheatGameActivations);
    } else {
      var cheats := env.byEngine(true);
      var legits := env.byEngine(false);
      var players := legits + cheats;
      for i := 0 to |players|
        invariant cheatTensors == RoutedTensors(env, players[..i], true)
        invariant legitTensors == RoutedTensors(env, players[..i], false)
      {
        var p := players[i];
        if p.engine {
          cheatTensors := cheatTensors + GameTensors(env.byUserId(p.id), p.id);
        } else {
          legitTensors := legitTensors + GameTensors(env.byUserId(p.id), p.id);
        }
        assert players[..i + 1][..i] == players[..i];
      }
      assert players[..|players|] == players;
    }
    ghost var g := Gather(env, filtered);
    assert cheatTensors == g.cheat && legitTensors == g.legit;

    var presentCheats := Present(cheatTensors);
    var presentLegits := Present(legitTensors);
    var shuffledCheats := Shuffle(presentCheats);
    var shuffledLegits := Shuffle(presentLegits);

    batch := CreateBatchAndLabels(shuffledCheats, shuffledLegits);
    BatchWithinPools(shuffledCheats, shuffledLegits, presentCheats, presentLegits, batch);
    assert presentCheats == Present(g.cheat) && presentLegits == Present(g.legit);
    assert |shuffledCheats| == |presentCheats| && |shuffledLegits| == |presentLegits| by {
      assert |multiset(shuffledCheats)| == |multiset(presentCheats)|;
      assert |multiset(shuffledLegits)| == |multiset(presentLegits)|;
    }
  }

  /** A batch made of two reorderings of the class lists takes each labelled tensor
      at most as often as the class lists hold it, and only from its own class. */
  lemma BatchWithinPools<T>(cheats: seq<T>, legits: seq<T>, cheatPool: seq<T>, legitPool: seq<T>, b: Batch<T>)
    requires multiset(cheats) == multiset(cheatPool) && multiset(legits) == multiset(legitPool)
    requires multiset(Zip(b.data, b.labels)) == multiset(BalancedPairs(cheats, legits))
    requires |b.data| == |b.labels|
    ensures multiset(Zip(b.data, b.labels))
      <= multiset(Tag(cheatPool, CheatLabel)) + multiset(Tag(legitPool, LegitLabel))
    ensures forall i :: 0 <= i < |b.labels| ==>
      (b.labels[i] == CheatLabel && b.data[i] in cheatPool) ||
      (b.labels[i] == LegitLabel && b.data[i] in legitPool)
  {
    var m := Min(|cheats|, |legits|);
    TagPrefix(cheats, CheatLabel, m);
    TagPrefix(legits, LegitLabel, m);
    PrefixSubMultiset(Tag(cheats, CheatLabel), m);
    PrefixSubMultiset(Tag(legits, LegitLabel), m);
    MapPermutation(Labeller(CheatLabel), cheats, cheatPool);
    MapPermutation(Labeller(LegitLabel), legits, legitPool);
    var pairs := Zip(b.data, b.labels);
    forall i | 0 <= i < |b.labels|
      ensures (b.labels[i] == CheatLabel && b.data[i] in cheatPool) ||
              (b.labels[i] == LegitLabel && b.data[i] in legitPool)
    {
      assert pairs[i] in multiset(pairs);
      if pairs[i] in multiset(Tag(cheatPool, CheatLabel)) {
        InTag(cheatPool, CheatLabel, pairs[i]);
      } else {
        assert pairs[i] in multiset(Tag(legitPool, LegitLabel));
        InTag(legitPool, LegitLabel, pairs[i]);
      }
    }
  }

  // ---------------------------------------------------------------------
  // Properties of the gathering phase

  /** The `None` filter keeps relative order: it distributes over concatenation. */
  lemma {:induction false} PresentAppend<T>(a: seq<Option<T>>, b: seq<Option<T>>)
    ensures Present(a + b) == Present(a) + Present(b)
    decreases |b|
  {
    if b == [] {
      assert a + b == a;
    } else {
      var init := b[..|b| - 1];
      assert (a + b)[..|a + b| - 1] == a + init;
      PresentAppend(a, init);
    }
  }

  /** With no tensor absent, the `None` filter keeps every tensor. */
  lemma {:induction false} PresentOfAllSome<T>(s: seq<T>)
    ensures Present(Map((t: T) => Some(t), s)) == s
  {
    if s != [] {
      var init := s[..|s| - 1];
      assert Map((t: T) => Some(t), s)[..|s| - 1] == Map((t: T) => Some(t), init);
      PresentOfAllSome(init);
    }
  }

  lemma {:induction false} AllTensorsAppend<T>(env: Env<T>, a: seq<Player>, b: seq<Player>)
    ensures AllTensors(env, a + b) == AllTensors(env, a) + AllTensors(env, b)
    decreases |b|
  {
    if b == [] {
      assert a + b == a;
    } else {
      assert (a + b)[..|a + b| - 1] == a + b[..|b| - 1];
      AllTensorsAppend(env, a, b[..|b| - 1]);
    }
  }

  lemma {:induction false} PlayersWithAppend(a: seq<Player>, b: seq<Player>, engine: bool)
    ensures PlayersWith(a + b, engine) == PlayersWith(a, engine) + PlayersWith(b, engine)
    decreases |b|
  {
    if b == [] {
      assert a + b == a;
    } else {
      assert (a + b)[..|a + b| - 1] == a + b[..|b| - 1];
      PlayersWithAppend(a, b[..|b| - 1], engine);
    }
  }

  /** Selecting by flag keeps every player that has the flag and drops every other. */
  lemma {:induction false} PlayersWithUniform(ps: seq<Player>, engine: bool)
    requires forall p :: p in ps ==> p.engine == engine
    ensures PlayersWith(ps, engine) == ps && PlayersWith(ps, !engine) == []
  {
    if ps != [] {
      assert ps == ps[..|ps| - 1] + [ps[|ps| - 1]];
      PlayersWithUniform(ps[..|ps| - 1], engine);
    }
  }

  /** The unfiltered loop sends the tensors of player `p` to the list of class
      `engine` exactly when `p.engine == engine`. */
  lemma {:induction false} RoutedIsSelection<T>(env: Env<T>, ps: seq<Player>, engine: bool)
    ensures RoutedTensors(env, ps, engine) == AllTensors(env, PlayersWith(ps, engine))
  {
    if ps != [] {
      var init, p := ps[..|ps| - 1], ps[|ps| - 1];
      RoutedIsSelection(env, init, engine);
      AllTensorsAppend(env, PlayersWith(init, engine), if p.engine == engine then [p] else []);
    }
  }

  /** Every tensor gathered in unfiltered mode lands in exactly one of the two
      lists: together they hold the tensors of all players, each as often as
      it occurs there. */
  lemma {:induction false} RoutingPartitions<T>(env: Env<T>, ps: seq<Player>)
    ensures multiset(RoutedTensors(env, ps, true)) + multiset(RoutedTensors(env, ps, false))
      == multiset(AllTensors(env, ps))
  {
    if ps != [] {
      RoutingPartitions(env, ps[..|ps| - 1]);
    }
  }

  /** With a sound player store, unfiltered mode gathers as cheats exactly the
      tensors of `byEngine(True)` and as legits exactly those of `byEngine(False)`. */
  lemma UnfilteredGathersByFlag<T>(env: Env<T>)
    requires PlayerStoreSound(env)
    ensures Gather(env, false) == Gathered(AllTensors(env, env.byEngine(true)),
                                           AllTensors(env, env.byEngine(false)))
  {
    var legits, cheats := env.byEngine(false), env.byEngine(true);
    assert forall p :: p in legits ==> !p.engine;
    assert forall p :: p in cheats ==> p.engine;
    PlayersWithUniform(legits, false);
    PlayersWithUniform(cheats, true);
    PlayersWithAppend(legits, cheats, true);
    PlayersWithAppend(legits, cheats, false);
    assert legits + [] == legits && [] + cheats == cheats;
    RoutedIsSelection(env, legits + cheats, true);
    RoutedIsSelection(env, legits + cheats, false);
  }

  /** With a sound player store both modes gather the same legit tensors. */
  lemma FilteredLegitsAgree<T>(env: Env<T>)
    requires PlayerStoreSound(env)
    ensures Gather(env, true).legit == Gather(env, false).legit
  {
    UnfilteredGathersByFlag(env);
  }

  /** In filtered mode the i-th cheat tensor is the tensor, in the i-th returned
      game, of the player of the i-th activation, there are as many as the shorter
      of the two answers, and with a sound activation store each comes from an
      activation flagged engine with a score of at least 70. */
  lemma FilteredCheatsAreConfident<T>(env: Env<T>)
    requires ActivationStoreSound(env)
    ensures var acts := env.byEngineAndPrediction(true, CheatThreshold);
      var games := env.byIds(ActivationGameIds(acts));
      var cheat := Gather(env, true).cheat;
      |cheat| == Min(|games|, |acts|) &&
      forall i :: 0 <= i < |cheat| ==>
        cheat[i] == games[i].Tensor(acts[i].userId) &&
        acts[i].engine && acts[i].prediction >= CheatThreshold
  {
    var acts := env.byEngineAndPrediction(true, CheatThreshold);
    forall i | 0 <= i < |acts|
      ensures acts[i].engine && acts[i].prediction >= CheatThreshold
    {
      assert acts[i] in acts;
    }
  }

  // ---------------------------------------------------------------------
  // Properties of the balancing phase

  /** When both classes have the same size nothing is truncated: the labelled
      pairs are every cheat labelled 1 and every legit labelled 0, whatever
      order the earlier shuffles produced. */
  lemma BalancedPairsOfEqualClasses<T>(cheats: seq<T>, legits: seq<T>, cheatPool: seq<T>, legitPool: seq<T>)
    requires multiset(cheats) == multiset(cheatPool) && multiset(legits) == multiset(legitPool)
    requires |cheatPool| == |legitPool|
    ensures multiset(BalancedPairs(cheats, legits))
      == multiset(Tag(cheatPool, CheatLabel)) + multiset(Tag(legitPool, LegitLabel))
  {
    assert |cheats| == |multiset(cheats)| == |cheatPool|;
    assert |legits| == |multiset(legits)| == |legitPool|;
    assert cheats[..|cheats|] == cheats && legits[..|legits|] == legits;
    MapPermutation(Labeller(CheatLabel), cheats, cheatPool);
    MapPermutation(Labeller(LegitLabel), legits, legitPool);
  }

  /** Among the balanced pairs, a tensor labelled 1 occurs exactly as often as it
      occurs in the kept cheat prefix. */
  lemma CheatPairCount<T>(cheats: seq<T>, legits: seq<T>, t: T)
    ensures var m := Min(|cheats|, |legits|);
      multiset(BalancedPairs(cheats, legits))[(t, CheatLabel)] == multiset(cheats[..m])[t]
  {
    var m := Min(|cheats|, |legits|);
    TagCount(cheats[..m], CheatLabel, t);
    if (t, CheatLabel) in Tag(legits[..m], LegitLabel) {
      InTag(legits[..m], LegitLabel, (t, CheatLabel));
    }
  }

  /** When the classes differ in size, which tensors survive the truncation
      depends on the shuffle that precedes it: exchanging a kept cheat with a
      different dropped one reorders the cheat list and changes the multiset
      of labelled pairs. */
  lemma TruncationDependsOnShuffle<T>(cheats: seq<T>, legits: seq<T>, i: nat, j: nat)
    requires |legits| < |cheats|
    requires i < |legits| <= j < |cheats|
    requires cheats[i] != cheats[j]
    ensures var swapped := cheats[i := cheats[j]][j := cheats[i]];
      multiset(swapped) == multiset(cheats) &&
      multiset(BalancedPairs(swapped, legits)) != multiset(BalancedPairs(cheats, legits))
  {
    var m := |legits|;
    var swapped := cheats[i := cheats[j]][j := cheats[i]];
    assert swapped[..m] == cheats[..m][i := cheats[j]];
    assert multiset(swapped[..m])[cheats[j]] == multiset(cheats[..m])[cheats[j]] + 1;
    CheatPairCount(swapped, legits, cheats[j]);
    CheatPairCount(cheats, legits, cheats[j]);
  }
}
