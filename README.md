# Jump King reachability tooling and the music-app domain, in Dafny

This project models two independent pieces of one repository.

**Jump King test tooling** (`jump-king-tests/tests/`):

- **The game harness** (`GameTester`) validates coordinates, levels and wind phases against their inclusive ranges. It places the king and resets the king's physics, configures level and wind, steps frames, and guards every call with its initialized flag.
- **The test agent** (`AgenteTeste`) performs a jump: charge frames, then a flight of at most 600 frames that stops at the first frame after which the king is at rest. It also checks determinism: it repeats the same setup and jump and compares every landing with the first.
- **The platform explorer** (`ExploradorPlataforma`) picks test columns along a platform. It then maps every (column, charge 0..35, direction) triple to the landing reached from it.
- **The reachability tester** (`PlataformaTester`) has four operations:
  - it sweeps the cross product level × position × charge × direction;
  - it expands landings layer by layer, optionally with a vertical-progress filter;
  - it builds a directed multigraph from the records;
  - it groups the node heights into tiers.

The game itself is a parameter. `GameState.Tick` is a deterministic frame function from a game state and an optional command (0 right, 1 left, 2 right+jump, 3 left+jump) to the next state. `GameTester` holds the tick and the current game value. Every operation above is proved against a specification function over that tick.

**Music app** (`app_musica/`): playlists, songs with reviews, albums, artists and users. These are classes whose lists are `seq` fields that the methods reassign. Java references are Dafny references, so `==` is identity, as in Java. Java strings are `JavaString` objects for the same reason.

Files and modules:

| file | module | contents |
|---|---|---|
| `wrappers.dfy` | `Wrappers` | `Option`, `Result`, `Outcome` |
| `seqs.dfy` | `Seqs` | `Flatten`, `sorted(set(...))` as `SortedSet`, list-to-map folding |
| `game_state.dfy` | `GameState` | king, levels and game values; the `Tick` type; n-frame iteration |
| `game_tester.dfy` | `Tester` | validators, setter specifications, class `GameTester` |
| `agente_teste.dfy` | `Agent` | jump and flight specifications, the `Sweep` fold of setup-and-jump experiments, class `AgenteTeste` |
| `explorador_plataforma.dfy` | `Explorer` | sampling, result keys, class `ExploradorPlataforma` |
| `reach_graph.dfy` | `ReachGraph` | the multigraph and its node and edge specifications |
| `tiers.dfy` | `Tiers` | greedy tier grouping and the tier rule it satisfies |
| `plataforma_tester.dfy` | `Reachability` | the cross-product grid, layers, class `PlataformaTester` |
| `app_musica.dfy` | `AppMusica` | all Java classes; they refer to each other, so they share one module |

Python's `ValueError` from a rejected setup is an `Err`/`Fail` value. It propagates out of every loop that calls `setup`, as the uncaught exception does in the source. `RuntimeError` for an uninitialized harness is `NotInitialized`.

Facts the model exposes about the source:

- `setup` (through `set_player_position`) does not reset the king's `isJump` and `isLanded` flags.
- So `verificar_determinismo` can return false for a deterministic game. `Agent.VerdictDependsOnLandedFlag` gives a concrete frame function for which it does.
- `Agent.VerdictWhenFlagsRestored` gives a sufficient condition for the verdict to be true: the first jump leaves both flags as they were. The condition is not necessary, since two runs can land alike even when the flags differ.
- With a setup that also clears both flags (`Tester.ApplySetupClearing`), `Agent.VerdictClearingHolds` shows the verdict is true for every valid experiment, on every start game and every frame function. This is recorded under "## Findings".
- The agent's flight stops only once the king is *not* flagged as landed (`isLanded == False`). The model keeps that criterion as written.

## Model

| member | source | states |
|---|---|---|
| Tester.CheckX | jump-king-tests/tests/game_tester.py:142-153 | passes exactly for 0 <= x <= 480, otherwise fails with InvalidX(x) |
| Tester.CheckY | jump-king-tests/tests/game_tester.py:155-166 | passes exactly for 0 <= y <= 360, otherwise fails with InvalidY(y) |
| Tester.CheckCoordinates | jump-king-tests/tests/game_tester.py:168-180 | passes exactly when both coordinates are in range; a bad x is reported before a bad y |
| Tester.CheckLevel | jump-king-tests/tests/game_tester.py:182-193 | passes exactly for 0 <= level <= 42, otherwise fails with InvalidLevel(level) |
| Tester.CheckWindPhase | jump-king-tests/tests/game_tester.py:195-208 | passes exactly for 0 <= phase <= 2π, otherwise fails with InvalidWindPhase(phase) |
| Tester.PositionEffect | jump-king-tests/tests/game_tester.py:210-244 | succeeds iff both coordinates are valid; then the king is at (x, y), rect at (x+1, y+7), speed/angle 0, not falling or splatted, no collision, jump/landing flags and levels untouched |
| Tester.PositionRejects | jump-king-tests/tests/game_tester.py:229-234 | a rejected position leaves the game unchanged and reports x before y |
| Tester.PositionLastWins | jump-king-tests/tests/game_tester.py:234-244 | setting a position is idempotent, and a later valid position overrides an earlier one |
| Tester.LevelEffect | jump-king-tests/tests/game_tester.py:246-264 | reports the level check; the level changes only when valid; king and wind untouched |
| Tester.WindEffect | jump-king-tests/tests/game_tester.py:266-295 | reports the phase check; wind_var changes only when valid; king and level untouched |
| Tester.SettersCommute | jump-king-tests/tests/game_tester.py:210-295 | the three setters write disjoint state, so any two commute in their effect on the game |
| Tester.SetupEffect | jump-king-tests/tests/game_tester.py:297-330 | setup succeeds iff level, x, y and phase are all valid; then level, wind and position are as given and the king is at rest, with the jump and landing flags carried over |
| Tester.SetupFailure | jump-king-tests/tests/game_tester.py:324-327 | the first invalid parameter in order level, x/y, wind is reported, with the steps before it already applied |
| Tester.SetupForgetsPast | jump-king-tests/tests/game_tester.py:297-330 | within the modelled game state (king and level fields only), a successful setup depends on the previous game only through the jump and landing flags |
| Tester.SetupIdempotent | jump-king-tests/tests/game_tester.py:297-330 | running setup twice with the same arguments is running it once |
| Tester.SetupClearingForgetsPast | jump-king-tests/tests/game_tester.py:234-244 | setup with a position step that also clears isJump and isLanded fails exactly as setup does; when it succeeds its game does not depend on the previous game, and both flags are false |
| Tester.GameTester.constructor | jump-king-tests/tests/game_tester.py:30-64 | the harness starts initialized, holding the initial game, with its headless and fps settings |
| Tester.GameTester.SetPlayerPosition | jump-king-tests/tests/game_tester.py:210-244 | NotInitialized and no change when not ready; otherwise the new game and outcome are ApplyPosition's |
| Tester.GameTester.SetLevel | jump-king-tests/tests/game_tester.py:246-264 | NotInitialized when not ready; otherwise ApplyLevel's outcome and game |
| Tester.GameTester.SetWind | jump-king-tests/tests/game_tester.py:266-295 | NotInitialized when not ready; otherwise ApplyWind's outcome and game |
| Tester.GameTester.Setup | jump-king-tests/tests/game_tester.py:297-330 | NotInitialized when not ready; otherwise ApplySetup's outcome and game (level, position, wind, stopping at the first error) |
| Tester.GameTester.GetPlayerPosition | jump-king-tests/tests/game_tester.py:353-366 | the king's (x, y), or NotInitialized |
| Tester.GameTester.GetCurrentLevel | jump-king-tests/tests/game_tester.py:368-381 | the current level, or NotInitialized |
| Tester.GameTester.GetWindState | jump-king-tests/tests/game_tester.py:383-396 | the wind phase, or NotInitialized |
| Tester.GameTester.IsPlayable | jump-king-tests/tests/game_tester.py:398-417 | true exactly when the king is not falling (the environment flags hold), or NotInitialized |
| Tester.GameTester.Step | jump-king-tests/tests/game_tester.py:419-450 | the game after exactly `frames` ticks with the given command (none for frames <= 0), or NotInitialized and no change |
| Tester.GameTester.Shutdown | jump-king-tests/tests/game_tester.py:502-533 | afterwards not initialized and no game; a second call changes nothing |
| GameState.IterateAdd | jump-king-tests/tests/game_tester.py:438-440 | stepping n frames and then m frames is stepping n + m frames |
| Agent.FlightSpec | jump-king-tests/tests/AgenteTeste.py:41-51 | the flight runs n release frames with 1 <= n <= limit; no earlier frame ends at rest, and the n-th does unless the cap is reached |
| Agent.JumpFrames | jump-king-tests/tests/AgenteTeste.py:29-51 | a jump is exactly `frames_carga` charge-command frames followed by 1..600 release-command frames |
| Agent.ExperimentOk | jump-king-tests/tests/AgenteTeste.py:12-17 | a setup-and-jump experiment yields a landing iff level and position are valid |
| Agent.SweepOk | jump-king-tests/tests/AgenteTeste.py:62-65 | a run of experiments succeeds iff every input is valid, and then has one landing per input |
| Agent.SweepAt | jump-king-tests/tests/AgenteTeste.py:62-65 | landing i of a successful run is experiment i run from the game the first i experiments left |
| Agent.SweepStaysFailed | jump-king-tests/tests/AgenteTeste.py:62-65 | once a run has failed, further experiments change neither result nor game |
| Agent.RepeatsAgree | jump-king-tests/tests/AgenteTeste.py:55-69 | when the first jump restores the jump/landing flags, n repetitions give n copies of the first landing |
| Agent.VerdictWhenFlagsRestored | jump-king-tests/tests/AgenteTeste.py:55-76 | under that sufficient (not necessary) condition the determinism verdict is true |
| Agent.VerdictDependsOnLandedFlag | jump-king-tests/tests/AgenteTeste.py:55-76 | for a concrete deterministic frame function the two repetitions land at x = 10 and x = 20, so the verdict is false |
| Agent.ExperimentClearingForgetsPast | jump-king-tests/tests/AgenteTeste.py:12-17 | with the flag-clearing setup an experiment succeeds iff its input is valid, and then its result and final game are the same from any two start games |
| Agent.RepeatClearingAgrees | jump-king-tests/tests/AgenteTeste.py:62-65 | with the flag-clearing setup, n repetitions of a valid experiment give n copies of one landing, from any start game and any frame function |
| Agent.VerdictClearingHolds | jump-king-tests/tests/AgenteTeste.py:55-76 | with the flag-clearing setup the verdict is true for every valid experiment; an invalid one reports its setup error |
| Agent.LandedSensitiveClearing | jump-king-tests/tests/AgenteTeste.py:55-76 | on the frame function of VerdictDependsOnLandedFlag, the flag-clearing setup makes both repetitions land at x = 20 |
| Agent.AgenteTeste.constructor | jump-king-tests/tests/AgenteTeste.py:6-10 | the agent owns a fresh, ready, windowed harness at 60 fps |
| Agent.AgenteTeste.DefinirEstadoInicial | jump-king-tests/tests/AgenteTeste.py:12-17 | setup with the given level and position and wind phase 0 |
| Agent.AgenteTeste.ExecutarTestePulo | jump-king-tests/tests/AgenteTeste.py:19-53 | the game becomes Jump(old game, direction, charge) and the result is its level and position |
| Agent.AgenteTeste.RunExperiment | jump-king-tests/tests/AgenteTeste.py:63-64 | one setup followed by one jump, stopping at a rejected setup |
| Agent.AgenteTeste.VerificarDeterminismo | jump-king-tests/tests/AgenteTeste.py:55-76 | the state is the run of `repeticoes` identical experiments; the result is whether all landings equal the first, or the setup error |
| Agent.AgenteTeste.Repetir | jump-king-tests/tests/AgenteTeste.py:58-65 | the outcomes and the final state are exactly the sweep over `repeticoes` copies of the experiment; the first rejected setup ends it with that error |
| Explorer.Trunc | jump-king-tests/tests/ExploradorPlataforma.py:39-40 | `int()` of a float truncates toward zero |
| Explorer.PontosTeste | jump-king-tests/tests/ExploradorPlataforma.py:45-60 | computes SamplePoints: all columns of a narrow platform, otherwise the sorted distinct clamped samples |
| Explorer.SamplePointsBounds | jump-king-tests/tests/ExploradorPlataforma.py:45-60 | the test positions are strictly ascending and lie between start_x and end_x |
| Explorer.SamplePointsNarrow | jump-king-tests/tests/ExploradorPlataforma.py:47-48 | a platform narrower than 10 is tested at start_x, start_x + 1, ..., end_x |
| Explorer.SamplePointsWide | jump-king-tests/tests/ExploradorPlataforma.py:49-60 | a wide platform gets 1 to 10 positions, the first being start_x |
| Explorer.SamplePointsTen | jump-king-tests/tests/ExploradorPlataforma.py:51-57 | from x >= 0, a wide platform gets exactly the 10 raw samples, the last being int(start_x + w) |
| Explorer.SampleLastIsEnd | jump-king-tests/tests/ExploradorPlataforma.py:51-57 | at a whole, non-negative x a wide platform gets 10 positions, the last being end_x |
| Explorer.StartPlatformSamples | jump-king-tests/tests/test_mapeamento.py:27 | the level-0 platform (352, 185, 128, 175, …) is tested at columns 352, 366, 380, 394, 408, 423, 437, 451, 465 and 480 |
| Explorer.SampleUnclamped | jump-king-tests/tests/ExploradorPlataforma.py:53-56 | from x >= 0, no sample of a wide platform exceeds end_x |
| Explorer.AllKeysShape | jump-king-tests/tests/ExploradorPlataforma.py:67-88 | the keys are distinct, 72 per position, and exactly the (position, charge < 36, direction) triples |
| Explorer.MappingSpec | jump-king-tests/tests/ExploradorPlataforma.py:21-92 | mapping succeeds iff there is no position or level, start_y and all positions are valid; then the map has 72 entries per position, keyed by the tried triples, each holding its own jump's landing from start_y = py - 31 |
| Explorer.ExploradorPlataforma.constructor | jump-king-tests/tests/ExploradorPlataforma.py:11-19 | the explorer drives the given ready agent |
| Explorer.ExploradorPlataforma.MapearPlataforma | jump-king-tests/tests/ExploradorPlataforma.py:21-92 | result and final game are those of Mapping |
| Explorer.ExploradorPlataforma.MapearPosicao | jump-king-tests/tests/ExploradorPlataforma.py:67-88 | the 72 experiments at one position extend the sweep and the map |
| Explorer.ExploradorPlataforma.MapearCarga | jump-king-tests/tests/ExploradorPlataforma.py:72-88 | the two experiments of one charge extend the sweep and the map |
| ReachGraph.WithNode | jump-king-tests/tests/plataforma_tester.py:128-129 | adding a node keeps the old nodes and adds exactly that one |
| ReachGraph.ParallelKeysDistinct | jump-king-tests/tests/plataforma_tester.py:131-137 | parallel edges carry distinct keys, increasing in insertion order |
| ReachGraph.KeptMember | jump-king-tests/tests/plataforma_tester.py:121-123 | an entry is kept exactly when it occurs and has all four coordinates |
| ReachGraph.GraphEdgesSpec | jump-king-tests/tests/plataforma_tester.py:111-139 | one edge per kept entry, in order, from takeoff to landing with its charge, direction and data; keys count earlier parallel edges |
| ReachGraph.GraphNodesSpec | jump-king-tests/tests/plataforma_tester.py:125-129 | the nodes are distinct and exactly the takeoff and landing points of the complete entries |
| ReachGraph.MultiDiGraph.constructor | jump-king-tests/tests/plataforma_tester.py:112 | a new graph has no nodes and no edges |
| ReachGraph.MultiDiGraph.AddNode | jump-king-tests/tests/plataforma_tester.py:128-129 | adds the node unless present; edges unchanged; invariant kept |
| ReachGraph.MultiDiGraph.NewEdgeKey | jump-king-tests/tests/plataforma_tester.py:131-137 | the key is the number of existing u→v edges, and no u→v edge carries it |
| ReachGraph.MultiDiGraph.AddEdge | jump-king-tests/tests/plataforma_tester.py:131-137 | adds both endpoints and appends one edge with the next free key |
| Tiers.FirstMatch | jump-king-tests/tests/plataforma_tester.py:151-155 | the first tier, in creation order, whose last height is within tol; |gs| when none is |
| Tiers.TierIndicesSpec | jump-king-tests/tests/plataforma_tester.py:146-157 | tier indices start at 0, stay put when a gap is at most tol and rise by exactly 1 otherwise, never decreasing |
| Tiers.OnlyLastTierAccepts | jump-king-tests/tests/plataforma_tester.py:149-157 | for ascending heights only the most recent tier can accept the next height |
| Tiers.GroupsOfAscending | jump-king-tests/tests/plataforma_tester.py:146-157 | the greedy tiers partition the sorted heights into consecutive runs labelled by TierIndices; there are last index + 1 tiers |
| Tiers.TierMapOfAscending | jump-king-tests/tests/plataforma_tester.py:159-164 | the map's keys are the heights and height i maps to TierIndices[i] |
| Tiers.TierMapFollowsRule | jump-king-tests/tests/plataforma_tester.py:144-164 | the map's keys are the heights, and it satisfies the tier rule (lowest in tier 0, neighbours within tol share a tier, otherwise one up, monotone) |
| Tiers.Colocar | jump-king-tests/tests/plataforma_tester.py:149-157 | the inner loop places y as Place does |
| Tiers.Registrar | jump-king-tests/tests/plataforma_tester.py:160-162 | the inner loop extends the map to the next tier |
| Reachability.AsEntry | jump-king-tests/tests/plataforma_tester.py:48-57 | a record read as a dictionary has every position field, with its takeoff and landing |
| Reachability.RecordsAllKept | jump-king-tests/tests/plataforma_tester.py:111-139 | the graph skips no record a sweep produced |
| Reachability.GridLength | jump-king-tests/tests/plataforma_tester.py:36-39 | the sweep has |niveis|·|posicoes|·|cargas|·|direcoes| experiments |
| Reachability.GridAt | jump-king-tests/tests/plataforma_tester.py:36-39 | experiment number ((a·P+b)·C+c)·D+d is (niveis[a], posicoes[b], cargas[c], direcoes[d]), the nesting order of the loops |
| Reachability.GridMember | jump-king-tests/tests/plataforma_tester.py:36-39 | every experiment starts at one of the given levels and positions |
| Reachability.SweepRecordsSpec | jump-king-tests/tests/plataforma_tester.py:41-57 | records are produced iff every setup is valid; then record i holds input i and its own jump's landing |
| Reachability.CombinationsValid | jump-king-tests/tests/plataforma_tester.py:33-59 | valid starts make the sweep succeed; with all lists nonempty, success implies valid starts |
| Reachability.CombinationsCount | jump-king-tests/tests/plataforma_tester.py:33-59 | a successful sweep returns exactly |niveis|·|posicoes|·|cargas|·|direcoes| records |
| Reachability.CombinationsAt | jump-king-tests/tests/plataforma_tester.py:36-57 | the record at the loop-order index of (a, b, c, d) holds those loop values and that jump's landing |
| Reachability.AdmittedSpec | jump-king-tests/tests/plataforma_tester.py:97-101 | without the filter every landing is admitted once per record, in order; with it exactly the landings more than tol away vertically; no de-duplication |
| Reachability.LayerStaysFailed | jump-king-tests/tests/plataforma_tester.py:84-91 | a layer whose sweep failed at some frontier point has failed for good |
| Reachability.ExploreStaysFailed | jump-king-tests/tests/plataforma_tester.py:78-104 | an exploration that failed at some layer has failed for good |
| Reachability.LayerSize | jump-king-tests/tests/plataforma_tester.py:81-101 | a layer contributes |fronteira|·|niveis|·|cargas|·|direcoes| records; without the filter the next frontier has one point per record |
| Reachability.LayersAdd | jump-king-tests/tests/plataforma_tester.py:78-104 | records add up over layers |
| Reachability.NoLayers | jump-king-tests/tests/plataforma_tester.py:75-78 | max_iter <= 0 returns no records and runs nothing |
| Reachability.EmptyFrontierIdles | jump-king-tests/tests/plataforma_tester.py:78-104 | a layer over an empty frontier still runs and changes nothing |
| Reachability.OneLayerEight | jump-king-tests/tests/plataforma_tester.py:249-261 | one layer, one start, one level, four charges, two directions give eight records |
| Reachability.PlataformaTester.constructor | jump-king-tests/tests/plataforma_tester.py:26-28 | the tester drives the given ready agent |
| Reachability.PlataformaTester.TestarCombinacoes | jump-king-tests/tests/plataforma_tester.py:33-59 | result and final game are those of Combinations |
| Reachability.PlataformaTester.TestarNivel | jump-king-tests/tests/plataforma_tester.py:37-57 | the sweep over one level extends the records |
| Reachability.PlataformaTester.TestarPosicao | jump-king-tests/tests/plataforma_tester.py:38-57 | the sweep over one position extends the records |
| Reachability.PlataformaTester.TestarCarga | jump-king-tests/tests/plataforma_tester.py:39-57 | the sweep over one charge extends the records |
| Reachability.PlataformaTester.ExplorarMultiplosPulos | jump-king-tests/tests/plataforma_tester.py:64-106 | result and final game are those of ExploreRun after max_iter layers |
| Reachability.PlataformaTester.ExplorarCamada | jump-king-tests/tests/plataforma_tester.py:81-104 | result and final game are those of LayerRun |
| Reachability.PlataformaTester.Absorver | jump-king-tests/tests/plataforma_tester.py:93-101 | all records are kept and the admitted landings are appended to the next frontier |
| Reachability.PlataformaTester.GerarGrafo | jump-king-tests/tests/plataforma_tester.py:111-139 | a fresh graph whose nodes and edges are GraphNodes and GraphEdges of the entries |
| Reachability.PlataformaTester.AgruparYEmNiveis | jump-king-tests/tests/plataforma_tester.py:144-164 | the keys are exactly the node heights and the map satisfies the tier rule |
| AppMusica.RemoveFirstSpec | app_musica/Playlist.java:22-30 | removing a present element drops exactly its first occurrence (length −1, order kept, multiset minus one); an absent one changes nothing |
| AppMusica.AddThenRemove | app_musica/Playlist.java:17-30 | adding then removing a new element restores the list; for a present one the old occurrence goes and the new one stays |
| AppMusica.Avaliacao.constructor | app_musica/Avaliacao.java:8-12 | stores stars, reviewer and song |
| AppMusica.Avaliacao.GetEstrelas | app_musica/Avaliacao.java:14-16 | returns the stored stars |
| AppMusica.Avaliacao.GetRevisor | app_musica/Avaliacao.java:17-19 | returns the stored reviewer |
| AppMusica.LastReviewBySpec | app_musica/Musica.java:19-32 | the lookup is null iff no review is by u; otherwise it is a review by u with none by u after it |
| AppMusica.NewestReviewWins | app_musica/Musica.java:21-25 | after appending a review, the lookup for its reviewer finds it |
| AppMusica.SumStarsBounds | app_musica/Musica.java:35-38 | with every review's stars in [lo, hi], the sum lies in [n·lo, n·hi] |
| AppMusica.MeanBounds | app_musica/Musica.java:34-40 | with every review's stars in [lo, hi], so does the mean |
| AppMusica.Musica.constructor | app_musica/Musica.java:10-13 | the given name and no reviews |
| AppMusica.Musica.GetNome | app_musica/Musica.java:15-17 | returns the name |
| AppMusica.Musica.GetAvaliacaoUsuario | app_musica/Musica.java:19-32 | returns the last review by u, or null |
| AppMusica.Musica.CalcularMedia | app_musica/Musica.java:34-40 | the sum of stars over the review count; None (NaN) without reviews |
| AppMusica.Musica.Avaliar | app_musica/Musica.java:42-45 | appends one fresh review with those stars, that user and this song; earlier reviews kept; the lookup then finds it |
| AppMusica.Playlist.constructor | app_musica/Playlist.java:9-11 | an empty playlist |
| AppMusica.Playlist.GetMusicas | app_musica/Playlist.java:13-15 | returns the songs |
| AppMusica.Playlist.AdicionarMusica | app_musica/Playlist.java:17-20 | appends m, returns true |
| AppMusica.Playlist.RemoverMusica | app_musica/Playlist.java:22-30 | returns true iff m was present, and the list loses exactly the first occurrence of m |
| AppMusica.Album.constructor | app_musica/Album.java:11-15 | stores title and year, no songs |
| AppMusica.Album.GetAnoLancamento | app_musica/Album.java:17-19 | returns the year |
| AppMusica.Album.GetTitulo | app_musica/Album.java:21-23 | returns the title |
| AppMusica.Album.GetMusicas | app_musica/Album.java:25-27 | returns the songs |
| AppMusica.Album.GetQtdeMusicas | app_musica/Album.java:29-35 | counts exactly the album's songs |
| AppMusica.Artista.constructor | app_musica/Artista.java:14-20 | stores the names and birth date, no albums, no solos |
| AppMusica.Artista.GetNomeArtistico | app_musica/Artista.java:22-24 | returns the stage name |
| AppMusica.Artista.GetNomeReal | app_musica/Artista.java:26-28 | returns the real name |
| AppMusica.Artista.GetDataNascimento | app_musica/Artista.java:30-32 | returns the birth date |
| AppMusica.Artista.GetQtdeAlbum | app_musica/Artista.java:34-40 | counts exactly the albums |
| AppMusica.Artista.GetAlbuns | app_musica/Artista.java:42-44 | returns the albums |
| AppMusica.Artista.GetSolos | app_musica/Artista.java:46-48 | returns the solo songs |
| AppMusica.Artista.GetQtdeMusicas | app_musica/Artista.java:50-59 | the solo count plus every album's song count |
| AppMusica.Usuario.constructor | app_musica/Usuario.java:14-19 | stores login and password; no playlists, no favourites, nothing playing |
| AppMusica.Usuario.VerificarLogin | app_musica/Usuario.java:21-26 | true iff the arguments are the very stored string objects |
| AppMusica.Usuario.VerificarLoginPorTexto | app_musica/Usuario.java:21-26 | true iff the arguments have the stored texts |
| AppMusica.IdentityImpliesSameText | app_musica/Usuario.java:21-26 | whatever the identity check accepts, the text check accepts |
| AppMusica.RetypedCredentials | app_musica/Usuario.java:21-26 | correct credentials in new string objects: rejected by identity, accepted by text |
| AppMusica.Usuario.Favoritar | app_musica/Usuario.java:28-31 | appends m to the favourites; other fields unchanged |
| AppMusica.Usuario.Escutar | app_musica/Usuario.java:32-35 | m is now playing; the lists unchanged |
| AppMusica.Usuario.CriarPlaylist | app_musica/Usuario.java:36-40 | appends exactly one fresh, empty playlist; other fields unchanged |

## Left out

- The game itself (physics, collisions, rendering, GUI and audio inside `step`) is the `Tick` parameter. The clock, `pygame.display` and the headless audio switch are not modelled.
- Environment variables: the harness sets `gaming`, `active` and `pause`, and nothing in the model changes them.
  - The model therefore takes `_ensure_playable_state` to hold after `setup`.
  - It takes `is_playable` as "not falling", and `step` always updates the game.
  - `sys.path`, `os.chdir` and the submodule import are left out.
- Tester.GameTester.constructor: the failure path of game initialization (RuntimeError and the cleanup shutdown) is left out. The initial game is a parameter.
- `run_with_input` is an interactive keyboard loop and is left out.
- Tester.ApplyWind: the visual wind displacement `wind.x = -cos(phase)·6.25` is left out; it needs float trigonometry. Only the range check and the phase are modelled. 2π is the double constant 6.283185307179586.
- Floats are modelled as exact reals, and Java `float` sums and quotients likewise. So rounding is not modelled, and neither are NaN/infinity coordinates.
- AppMusica.Musica.CalcularMedia: NaN for a song without reviews is `None`. The mean is exact real division, not float.
- Game states are values that the harness reassigns. Python aliasing of the king object is not modelled.
- The game state holds only the king and level fields that the tooling writes or reads. The real king and level objects carry more state that setup does not write, such as the accumulated wind displacement and animation timers, and a frame may read it. The lines below state which members this bounds.
- Tester.SetupForgetsPast: holds of the modelled game state only. The program's setup also carries over the attributes that are not modelled.
- Agent.RepeatsAgree: the sufficient condition covers only the modelled fields. In the program the other attributes would also have to be restored.
- Agent.VerdictWhenFlagsRestored: same scope as RepeatsAgree.
- Agent.VerdictClearingHolds: the corrected verdict is true for every start game only because the modelled state is all that setup then writes.
- Agent.AgenteTeste.constructor: the source builds its own harness. The model takes the initial game and the tick because the game is outside the model.
- Explorer.ExploradorPlataforma.constructor: the source passes `headless` and `fps` to an agent constructor that accepts neither, which raises TypeError. The model takes a ready agent.
- Reachability.PlataformaTester.constructor: the source stores an unused `Plataforma` value and creates its own agent. The model takes a ready agent.
- `plotar_grafo` (matplotlib drawing), the `__main__` demos and every `print` are left out.
- networkx's `MultiDiGraph` is modelled by `ReachGraph.MultiDiGraph`, which keeps nodes and edges in insertion order.
- The platform 8-tuple is the `Platform` datatype. Its h, slope, slip, support and snow are carried but unused, as in the source.
- Python's default arguments (`niveis=[0]`, `max_iter=3`, `tolerancia_y=3`/`5`, `repeticoes=3`, setup's defaults) are explicit parameters.
- AppMusica.Musica.Avaliar: the source calls a two-argument `Avaliacao` constructor that does not exist. The model builds the review with this song as its `musica`.
- The Java getters return the list objects themselves, so callers can mutate them. The model's getters return `seq` values, so that aliasing is not modelled.
- AppMusica.Artista.GetQtdeMusicas: a null album in `albuns` (a NullPointerException in Java) is excluded by the element type `Album`.
- The nested loops of `testar_combinacoes`, `explorar_multiplos_pulos`, `mapear_plataforma` and `agrupar_y_em_niveis` are split into one helper method per loop level, each proved against the same specification. Likewise the repetition loop of `verificar_determinismo` is its own method, `Repetir`.

## Findings

| source | as written | input that shows it | evidently intended | confidence | as-written member | corrected member |
|---|---|---|---|---|---|---|
| jump-king-tests/tests/game_tester.py:234-244 | `set_player_position`, and therefore `setup`, leaves `isJump` and `isLanded` as they were, so `verificar_determinismo` (AgenteTeste.py:55-76) starts the first repetition from a different state than the later ones | start game SampleKing (at rest, `isLanded` true), input (level 0, x 230, y 298, charge 0, direita), and LandedSensitiveTick, a deterministic frame function that lands at x = 10 when the flag is set and at x = 20 otherwise and clears it: the landings are (0, 10, 298) and (0, 20, 298), so the verdict is false | reset both flags with the rest of the physics, so that a deterministic game is reported deterministic, as test_agente_teste.py:19-49 expects | not executed; the real game may clear the flags within the first frames | Agent.VerdictDependsOnLandedFlag | Tester.ApplySetupClearing, Agent.VerdictClearingHolds |
| app_musica/Usuario.java:22 | `nome == this.login && senha == this.senha` compares string references | a user created with login "ana" / password "1234", then given "ana" / "1234" read into new String objects: verificarLogin returns false | compare the texts (`equals`), so matching credentials are accepted | not executed; interned literals would compare equal | AppMusica.Usuario.VerificarLogin, AppMusica.RetypedCredentials | AppMusica.Usuario.VerificarLoginPorTexto |
