# A verified model of zinx-muduo

zinx-muduo is a C++ game-server framework (`zinx`) with an MMO demo on top of it
(`app_demo/mmo_game`). This project models the two parts of it that carry the logic and
proves what they are for.

**The visibility protocol of the MMO world.** The world keeps a map from player ids to
players and a derived index, a two-dimensional map of grids that each hold a set of ids.
Joining, moving and leaving update both and send incremental notices (appear, move,
leave), from which each client builds its picture of the grids around it. The main result
is that after any run of operations every client's picture equals what a scan over all
players would give (`Agreement.ViewAgreement`), and that what it is told of each other
player is always a prefix of (appear move\* leave)\* (`Discipline.TraceDiscipline`). It is a
theorem about whole operations. For one operation of another player that falls into a
move, wherever it falls between the move's reads and its notices,
`Interleaving.InterruptedMoveIff` gives the exact condition under which all pictures still
come out right; in four of the six gaps there are schedules under which they do not.

**The same world under its locks.** A transition system with any number of threads, at
the grain of the world's reader/writer lock, the grids' mutexes and the players' locks.
In every interleaving no assertion fails, the index is right between operations, and there
is no deadlock (`LockSafety`); a thread waits exactly for locks held against it, and
readers do run side by side (`LockAdmission`); no two threads race for the map or a grid;
and each read of a join, move, quit or chat finds every player that stays where it is
exactly as the cells say, once or not at all (`LockResults`). For positions there is a
race, because `GetPosition` hands out a reference that is read after the lock is released:
`LockRaces` says exactly when and exhibits it.

**The framed codec and the receive loop.** Two packet formats with 8-byte headers, a
decoder that works on whatever has arrived, and a loop that drains the buffer and routes.
The main results are that the loop computes the one possible cut of the byte stream into
frames, that nothing depends on how TCP split the stream, and the exact conditions under
which the 32-bit sum of header and length makes the loop stop, stall or mangle a packet.

## Files

| file | contents |
|---|---|
| `Containers.dfy` | options, walks of hash containers in any order |
| `Wire.dfy` | the two formats on byte sequences, one call of the decoder |
| `Stream.dfy` | the drain loop on whole streams: termination, parse, chunking, round trip, simulation |
| `Dispatch.dfy` | handler calls and handler tables |
| `Server.dfy` | buffer, packet, router and server objects; the message callback |
| `Geometry.dfy` | positions, cells, truncation toward zero, which positions have a cell |
| `Visibility.dfy` | messages, the client's picture, the operations as relations between states |
| `Agreement.dfy`, `Discipline.dfy` | the theorems about runs of operations |
| `Interleaving.dfy` | what becomes of view agreement when an operation falls into a move |
| `Delivery.dfy` | what each operation puts on the connections |
| `Aoi.dfy`, `World.dfy`, `MmoServer.dfy` | grids, AOI manager, players, world manager and server callbacks as objects |
| `PlayerIds.dfy` | the wrapping id counter |
| `LockModel.dfy`, `LockSafety.dfy` | the operations split at their locks, and what holds in every interleaving |
| `LockProgress.dfy`, `LockRaces.dfy`, `LockAdmission.dfy` | what a thread can finish alone; races for positions; who waits for whom |
| `LockReads.dfy`, `LockResults.dfy` | what the reads of each operation return while others move, and what it leaves behind |

`dafny verify dfyconfig.toml` checks everything.

## How the program is modelled

- Objects whose methods update their fields are classes with the same fields. Methods are
  proved against specification functions and relations, about which the theorems are.
- The two packet and decoder classes differ only in header layout; their virtual functions
  are a format tag.
- Header arithmetic is that of `uint32_t`: the encoder truncates the payload size, the
  decoder's `header + length` wraps around. Player ids are those of a wrapping
  `atomic_int32_t`.
- Sends are appended to the outbox of the receiving client. `Network` holds all outboxes.
  A connection that reuses a player id starts with an empty one.
- The order in which a hash set or hash map is walked is left open everywhere.
- A client ignores a move of a player it has not been shown. The trace discipline proves
  that runs of whole operations send none.
- Coordinates and the cell size are integers and the cell index truncates toward zero, so
  the cells of row and column 0 also hold coordinates just below 0. At the shipped sizes
  (1000, 1000, 20) this is what the float division gives.
- As in the program, where only assertions check it, positions passed to join and move
  must lie on the map and a new player's id must not be online. The second is proved for
  the first 2^32 players (`NextPidIsNew`).
- In the lock model the callbacks of one connection run one after the other; each player
  id therefore has one thread.

Where comment and code differ the model follows the code: `SyncWithSurrounding` is
documented as telling all clients but tells those around the player; a decoder is
documented as returning a packet only when a complete one has arrived, but returns an
empty or truncated one for lengths of 2^32 - 8 and more.

## Model

| member | source | states |
|---|---|---|
| Wire.PacketRoundTrip | zinx/src/ZPacket_LTD.cpp:5-18 | a packet built from id and payload gives both back for every payload; its length field is right exactly below 2^32 bytes and it is a frame exactly below 2^32 - 8 |
| Wire.ExactLengthBound | zinx/src/ZDecoder_LTD.cpp:16-23 | an encoded packet, followed by anything, is decoded whole with exactly that remainder if and only if its payload is shorter than 2^32 - 8 bytes |
| Wire.ByteOrder | zinx/src/ZPacket_LTD.cpp:12-15 | byte k of a little-endian word is (n / 256^k) mod 256, of a big-endian one (n / 256^(3-k)) mod 256 |
| Wire.EncodedBytes | zinx/src/ZPacket.cpp:9-15 | every header byte of a built packet in each format, from the payload size and the id, and the payload behind the header |
| Wire.FieldsOfBytes | zinx/inc/ZPacket_LTD.h:39-53 | the length and id read from given bytes in each format, as sums of bytes and powers of 256 |
| Wire.DecodeTakesFrame | zinx/src/ZDecoder.cpp:11-26 | a complete frame at the head of the buffer is taken off, nothing more or less |
| Wire.DecodeMonotone | zinx/src/ZDecoder_LTD.cpp:11-23 | later bytes do not change what is already decodable |
| Wire.HeadersAreReversals | zinx/src/ZPacket.cpp:9-13 | the header bytes of the two constructors are byte reversals of each other |
| Stream.TerminatesIff | zinx/src/Server.cpp:57-66 | the drain loop reaches a null packet if and only if no header with length 2^32 - 8 is met at a frame boundary |
| Stream.StallingHeader | zinx/src/ZDecoder_LTD.cpp:19-23 | a successful decode leaves the buffer as it was exactly for the length 2^32 - 8 |
| Stream.StallExample | zinx/src/ZDecoder_LTD.cpp:18-24 | eight concrete bytes from which an empty packet is decoded for ever |
| Stream.NoWrapIff | zinx/src/ZDecoder_LTD.cpp:19-23 | no header wraps if and only if the loop stops and every emitted packet holds a whole header |
| Stream.Conservation | zinx/src/ZDecoder_LTD.cpp:19-26 | packets emitted and bytes left, concatenated, are the bytes received; what is left cannot be decoded further |
| Stream.DrainIsTheParse | zinx/src/Server.cpp:56-67 | the loop's result is the one and only cut of the stream into frames and an unfinished one, which exists exactly when no header wraps |
| Stream.LeftoverIsStrictPrefix | zinx/src/Server.cpp:60-63 | what is left can be completed to a frame, except exactly when it ends in a whole little-endian length field of 2^32 - 8 or more |
| Stream.DrainAppend | zinx/src/Server.cpp:56-67 | draining a prefix and then, with what it left, the rest equals draining it all |
| Stream.ChunkingIndependence | zinx/src/Server.cpp:56-67 | for every split into reads the loop stops on each read exactly when it stops on the whole stream, and then emits the same packets and leaves the same bytes |
| Stream.ListRoundTrip | zinx/src/ZDecoder_LTD.cpp:7-27 | any list of messages, encoded, concatenated and received in any reads, comes out as that list with an empty buffer, in both formats |
| Stream.IdsWholeIff | zinx/src/Server.cpp:57-66 | the loop stops and routing never reads past a packet's end if and only if no length field at a frame boundary is between 2^32 - 8 and 2^32 - 1 (little-endian) or 2^32 - 5 (big-endian) |
| Stream.ShortPacketExample | zinx/inc/ZPacket.h:43-47 | a big-endian header that wraps around and still becomes a four-byte packet whose id is read in bounds |
| Stream.EffectsAreRouted | zinx/src/Server.cpp:59-65 | the handler calls made while draining are those of routing the parsed packets in order |
| Stream.EffectsAppend | zinx/src/Server.cpp:59-65 | handling what has arrived and later the rest makes the same calls as handling it all |
| Stream.CallsIndependence | zinx/src/Server.cpp:56-67 | for every split into reads, each read can be handled exactly when the whole stream can, and then the same handler calls are made |
| Stream.MessagesReachHandlers | zinx/src/ZRouter.cpp:8-36 | of the messages sent, in whatever reads they arrive, exactly those with a registered id are handled, in order, whatever their payloads contain |
| Stream.FormatSimulation | zinx/src/ZDecoder.cpp:7-27 | reversing the header of each frame turns a run of one decoder's loop into a run of the other's with the same ids and payloads, and is its own inverse |
| Dispatch.HandledInOrder | zinx/src/ZRouter.cpp:13-25 | a packet with a registered id gets PreHandle, Handle, PostHandle of its handler, right after the calls for the registered packets before it |
| Dispatch.ThreeCallsEach | zinx/src/ZRouter.cpp:14-18 | packets without a handler cause no call, all others three |
| Dispatch.LastRegistrationWins | zinx/src/ZRouter.cpp:28-36 | the table has an id if and only if it was registered, and its last handler |
| Server.Packet.Make | zinx/src/ZPacket_LTD.cpp:5-18 | the constructor's appended words and payload are the encoding |
| Server.Packet.GetPayload | zinx/inc/Packet.h:36-37 | everything behind the header, or the exception when there is no whole header |
| Server.BuiltPacket | zinx/inc/ZPacket_LTD.h:39-53 | the accessors of a built packet return what it was built from; the length accessor does exactly below 2^32 bytes |
| Server.DecodePacket | zinx/src/ZDecoder_LTD.cpp:7-27 | one packet off the buffer or null, and then an untouched buffer |
| Server.Router.AddHandler | zinx/src/ZRouter.cpp:28-36 | the table is that of all registrations so far; whether one was replaced |
| Server.Router.RouteAndHandle | zinx/src/ZRouter.cpp:8-26 | the three calls in order, or none |
| Server.ZinxServer.HandleOnMessage | zinx/src/Server.cpp:56-67 | on any buffer whose packets hold their ids it stops, makes exactly the calls for the packets there and leaves what cannot be decoded; bytes are conserved at every iteration |
| Server.ZinxServer.OnReads | zinx/src/Server.cpp:39-43 | the callback after each of any reads has the effect of one callback on all the bytes |
| Geometry.OnMapIff | app_demo/mmo_game/core/AOI_Manager.h:45-53 | a position has a valid cell exactly when X and Z are above minus one cell size and below the end of the columns and rows |
| Geometry.CoversIff | app_demo/mmo_game/core/AOI_Manager.cpp:7-13 | every position inside the world has a cell if and only if the cell size divides both extents, because the counts are rounded down |
| Geometry.SeparationIff | app_demo/mmo_game/core/AOI_Manager.h:45-50 | two cell sizes on an axis put players out of sight for all coordinates from a lower bound on, if and only if the bound is non-negative or the cell size is 1 |
| Geometry.CloseIsNear | app_demo/mmo_game/core/AOI_Manager.cpp:40-56 | players at most one cell size apart on both axes always see each other |
| Geometry.NearIsClose | app_demo/mmo_game/core/AOI_Manager.cpp:40-56 | players who see each other are less than three cell sizes apart on each axis, less than two for non-negative coordinates |
| Aoi.Grid.AddNewPlayer | app_demo/mmo_game/core/Grid.cpp:5-9 | the id is added; it must be new |
| Aoi.Grid.RemovePlayer | app_demo/mmo_game/core/Grid.cpp:11-16 | the id is removed; it must be there |
| Aoi.Grid.GetAllPlayers | app_demo/mmo_game/core/Grid.cpp:19-22 | the ids, each once, in any order |
| Aoi.AoiManager.constructor | app_demo/mmo_game/core/AOI_Manager.cpp:7-22 | one new empty grid object per cell |
| Aoi.AoiManager.GetGridByPosition | app_demo/mmo_game/core/AOI_Manager.cpp:58-63 | the grid whose cell holds the position |
| Aoi.AoiManager.GetSudokuByPosition | app_demo/mmo_game/core/AOI_Manager.cpp:40-56 | each grid of the map at most one row and column away, once, and no other |
| Aoi.AoiManager.GetSurroundingPlayersByPid | app_demo/mmo_game/core/AOI_Manager.cpp:28-38 | everybody in those grids, once |
| World.CountGrids | app_demo/mmo_game/core/Player.cpp:137-145 | the counting map holds every grid of either neighbourhood with 1, 0 or -1 |
| World.CrossingDelta | app_demo/mmo_game/core/Player.cpp:147-157 | walked in any order it gives the set difference each way, each grid once |
| World.WorldManager.CrossedGrids | app_demo/mmo_game/core/Player.cpp:133-157 | the players in the disappeared grids are those near only the old position, in the nascent ones those near only the new |
| World.WorldManager.AddPlayer | app_demo/mmo_game/core/WorldManager.cpp:14-22 | the player is in the map and the index still agrees with the positions |
| World.WorldManager.RemovePlayerByPid | app_demo/mmo_game/core/WorldManager.cpp:36-49 | the player is out of the map and the index |
| World.WorldManager.GetAllPlayers | app_demo/mmo_game/core/WorldManager.cpp:51-60 | every online player, once |
| World.WorldManager.GetAllPlayersOf | app_demo/mmo_game/core/WorldManager.cpp:62-73 | every player in the given grids, once; no lookup fails |
| World.WorldManager.GetSurroundingPlayers | app_demo/mmo_game/core/WorldManager.cpp:75-89 | without duplicates exactly the online players whose row and column differ by at most 1 |
| World.WorldManager.SurroundingsAreVisible | app_demo/mmo_game/core/WorldManager.cpp:75-89 | the occupants of the surrounding grids are those a scan over all players finds |
| World.Player.SendPacket | app_demo/mmo_game/core/Player.h:69-70 | one message more on the player's own connection |
| World.Player.IntroduceTo | app_demo/mmo_game/core/Player.cpp:55-67 | an appearance to each of the players in turn, and the list of their ids and current positions in the same order |
| World.Player.SyncWithSurrounding | app_demo/mmo_game/core/Player.cpp:48-77 | an appearance to everybody around and itself, then one list of all of them to itself |
| World.Player.Disappear | app_demo/mmo_game/core/Player.cpp:79-88 | a leave to everybody around and itself, once each |
| World.Player.WorldChat | app_demo/mmo_game/core/Player.cpp:90-101 | the message to every online player once |
| World.SendToEach | app_demo/mmo_game/core/Player.cpp:128-130 | one packet more to each of the players, in their order |
| World.Player.PartFrom | app_demo/mmo_game/core/Player.cpp:160-175 | leaves both ways with everybody in the disappeared grids |
| World.Player.MeetWith | app_demo/mmo_game/core/Player.cpp:179-197 | appearances both ways with everybody in the nascent grids |
| World.Player.HandleCrossedGrid | app_demo/mmo_game/core/Player.cpp:133-198 | leaves with exactly those near only the old position, appearances with exactly those near only the new one |
| World.Player.Relocate | app_demo/mmo_game/core/Player.cpp:104-116 | the position is stored and the index agrees with it again, whether or not a border was crossed |
| World.Player.AnnounceMove | app_demo/mmo_game/core/Player.cpp:120-130 | the move to everybody around the new position, once each |
| World.Player.UpdatePos | app_demo/mmo_game/core/Player.cpp:103-131 | the whole move refines the brute-force description of a move, which does not mention cells crossed or the index |
| Agreement.MoverSees | app_demo/mmo_game/core/Player.cpp:133-198 | the crossing delta applied to the old visible set gives exactly the new one; the mover is never told to forget itself |
| Agreement.MoveAgreesOther | app_demo/mmo_game/core/Player.cpp:160-197 | a move keeps every other client's picture right |
| Agreement.JoinAgreesSelf | app_demo/mmo_game/core/Player.cpp:69-76 | a joining client's picture is right from its first messages |
| Agreement.QuitAgrees | app_demo/mmo_game/mmo_server.cpp:38-41 | leave notices sent before the removal keep the remaining pictures right |
| Agreement.SayAgrees | app_demo/mmo_game/core/Player.cpp:90-101 | a chat changes no picture |
| Agreement.StepAgrees | app_demo/mmo_game/core/Player.cpp:48-198 | every operation keeps view agreement |
| Agreement.ViewAgreement | app_demo/mmo_game/core/Player.cpp:48-198 | after any run every online client's picture is exactly the positions of the online players around it, itself included |
| Interleaving.Uninterrupted | app_demo/mmo_game/core/Player.cpp:103-131 | cut at any of the six gaps, the parts of a move are, with nothing in between, the whole move |
| Interleaving.Interruptible | app_demo/mmo_game/core/Player.cpp:133-198 | every operation of another player can fall into every gap of every move |
| Interleaving.InterruptedMoveIff | app_demo/mmo_game/core/Player.cpp:133-198 | for a join, move, chat or quit in any gap of a move, all clients' pictures are right afterwards if and only if the other player's way from its old to its new position does not spoil that gap |
| Interleaving.LeavesGapIff | app_demo/mmo_game/core/Player.cpp:162-175 | a player read as gone: all pictures come out right unless it is near both the old and the new position when the leaves are sent |
| Interleaving.AppearancesGapIff | app_demo/mmo_game/core/Player.cpp:181-197 | a player read as coming: all pictures come out right if and only if it is still near the new position when the appearances are sent |
| Interleaving.QuitIff | app_demo/mmo_game/mmo_server.cpp:32-42 | a quit leaves a departed player in a picture exactly when it precedes the read that would have found it gone, or follows the read that found it coming |
| Interleaving.DisagreementExample | app_demo/mmo_game/core/Player.cpp:133-198 | on the shipped map, in each of the first four gaps, a run of two joins and then two single-cell moves after which a picture is wrong |
| Discipline.EpisodesIff | app_demo/mmo_game/api/msg_id.h:4-14 | the notice automaton accepts exactly the prefixes of (appear move\* leave)\* |
| Discipline.MoveIsReciprocal | app_demo/mmo_game/core/Player.cpp:159-197 | in a move the mover gets a leave or an appearance of another player exactly when that player gets one of the mover, once each |
| Discipline.StepDisciplined | app_demo/mmo_game/core/Player.cpp:103-198 | every operation keeps the discipline, and a player is held shown exactly when it is in sight |
| Discipline.TraceDiscipline | app_demo/mmo_game/core/Player.cpp:103-198 | after any run, for every client and other player, the notices are a prefix of (appear move\* leave)\*, also for clients that have left |
| Discipline.MutualSight | app_demo/mmo_game/core/AOI_Manager.cpp:40-56 | in every reachable state each of two clients has the other in its picture, or neither has |
| PlayerIds.PidsFresh | app_demo/mmo_game/core/Player.cpp:33-38 | the wrapping counter does not repeat an id within 2^32 |
| MmoServer.GameServer.NextPidIsNew | app_demo/mmo_game/core/WorldManager.cpp:17 | the assertion on a joining player's id holds for the first 2^32 players |
| MmoServer.GameServer.ClientsAreRight | app_demo/mmo_game/mmo_server.cpp:12-42 | view agreement and trace discipline hold of the objects whenever no operation is under way |
| Delivery.JoinTells | app_demo/mmo_game/core/Player.cpp:41-77 | the newcomer's client gets exactly its id, its appearance and the list of all players around, each once with its position; those around get one appearance, nobody else anything |
| Delivery.MoveTells | app_demo/mmo_game/core/Player.cpp:103-198 | another player's client gets exactly a move, a leave, an appearance and a move, or nothing, by whether the mover was and is in sight |
| Delivery.QuitTells | app_demo/mmo_game/core/Player.cpp:79-88 | everybody around gets one leave, nobody else anything |
| MmoServer.GameServer.InitPlayer | app_demo/mmo_game/mmo_server.cpp:12-30 | joining extends the run by one join, issues the next wrapping id, and puts exactly the packets of a join on the connections |
| MmoServer.GameServer.DestroyPlayer | app_demo/mmo_game/mmo_server.cpp:32-42 | leaving extends the run by one quit and puts exactly the leaves on the connections |
| MmoServer.GameServer.HandleMove | app_demo/mmo_game/handler/MoveHandler.cpp:20-25 | a move message extends the run by one move and tells the others' clients exactly what they need |
| MmoServer.GameServer.HandleChat | app_demo/mmo_game/handler/ChatHandler.cpp:21-22 | a chat message extends the run by one chat: every online client's connection gains exactly the talk, all others nothing, and no position changes |
| LockSafety.JoinSafe | app_demo/mmo_game/mmo_server.cpp:12-30 | the steps of joining obey the lock discipline and end with the player in exactly its grid |
| LockSafety.MoveSafe | app_demo/mmo_game/core/Player.cpp:103-198 | the steps of a move do, for every old and new position |
| LockSafety.QuitSafe | app_demo/mmo_game/mmo_server.cpp:32-42 | the steps of leaving do, and end with the player nowhere |
| LockSafety.ChatSafe | app_demo/mmo_game/core/WorldManager.cpp:51-60 | the steps of a chat do |
| LockSafety.InGridIsOnline | app_demo/mmo_game/core/WorldManager.cpp:14-22 | whoever is in a grid is in the map, because the map is entered first and left last |
| LockSafety.NextKeeps | app_demo/mmo_game/core/WorldManager.cpp:14-89 | every step of every thread keeps the invariant |
| LockSafety.IdIsFree | app_demo/mmo_game/core/Player.cpp:33-38 | in every interleaving the ids of the first 2^32 connections are unused when they are issued |
| LockSafety.NoAssertionFails | app_demo/mmo_game/core/WorldManager.h:36-38 | in every interleaving the assertions of the unlocked lookup, of the map and of the grids hold when they are reached |
| LockSafety.IndexIsRight | app_demo/mmo_game/core/Player.cpp:103-118 | in every interleaving a player is in at most one grid and then in the map; between its operations in exactly the grid of its position |
| LockSafety.QuietIndexIsBruteForce | app_demo/mmo_game/core/WorldManager.cpp:75-89 | whatever interleaving led there, once no operation is under way the grids around an online player hold exactly the online players in sight of it |
| LockProgress.FinishesAlone | app_demo/mmo_game/core/WorldManager.cpp:14-89 | from every reachable state in which the other threads hold no lock, a thread can finish its operation by itself, leaving its player in exactly the grid of its position |
| LockRaces.NoRace | app_demo/mmo_game/core/Grid.cpp:5-22 | no two threads are ever about to make conflicting accesses to the map or a grid |
| LockRaces.PositionRaceIff | app_demo/mmo_game/core/Player.h:40-50 | two threads are about to conflict on a position if and only if one is storing its own player's and the other is reading that one for a packet; reads by the owner never conflict |
| LockRaces.PositionRaceLocks | app_demo/mmo_game/core/Player.cpp:61-66 | then the storing thread holds the player's lock and the reading one, in a walk over the players around, holds no player's lock |
| LockRaces.RaceExample | app_demo/mmo_game/core/Player.cpp:103-108 | on every map and for all positions an execution that reaches such a state: one player joins beside another, who moves |
| LockAdmission.AdmissionIff | app_demo/mmo_game/core/WorldManager.cpp:14-89 | in every reachable state a thread about to acquire the world lock, a grid's mutex or a player's lock can go on if and only if no other thread holds it in a conflicting mode |
| LockAdmission.OnlyLocksWait | app_demo/mmo_game/core/WorldManager.cpp:14-89 | every other step is never waited for |
| LockAdmission.Exclusion | app_demo/mmo_game/core/WorldManager.cpp:14-89 | no two threads ever hold the same lock in conflicting modes |
| LockAdmission.StepHolds | app_demo/mmo_game/core/WorldManager.cpp:14-89 | a step acquires what it wants, gives back what it releases, and leaves all other locks as they are |
| LockAdmission.ReadersShare | app_demo/mmo_game/core/WorldManager.cpp:75-89 | wherever a player has two grids around it, an execution in which two queries hold the world lock shared and read different grids at once |
| LockAdmission.MayBegin | app_demo/mmo_game/handler/MoveHandler.cpp:8-25 | whoever is online and between operations may start a move to any position of the map, a chat or a quit |
| LockAdmission.MayConnect | app_demo/mmo_game/mmo_server.cpp:12-30 | for the first 2^32 clients a connection may open at any time and anywhere on the map |
| LockResults.JoinReads | app_demo/mmo_game/core/WorldManager.cpp:75-89 | in every interleaving, a player that stays in its cell during the query of a join is collected exactly once if its cell is adjacent to the joining player's, and otherwise not |
| LockResults.MoveReads | app_demo/mmo_game/core/Player.cpp:133-198 | in every interleaving, a player that stays in its cell during one of a move's reads is collected exactly once by the read for the leaves iff adjacent to the old cell and not the new one, by the read for the appearances iff the reverse, by the last read iff adjacent to the new cell; without a crossing there is only the last |
| LockResults.QuitReads | app_demo/mmo_game/core/Player.cpp:79-88 | the same as for a join |
| LockResults.ChatReads | app_demo/mmo_game/core/WorldManager.cpp:51-60 | in every interleaving, the copy of the map holds a player that is online all the while exactly once, and one that is offline not |
| LockResults.CopyIsWhole | app_demo/mmo_game/core/WorldManager.cpp:51-60 | at the moment of the copy it holds everybody in the map once and nobody else |
| LockResults.MoveEnds | app_demo/mmo_game/core/Player.cpp:103-131 | in every interleaving a completed move leaves the player at the new position and in exactly its grid; the mover is never read as gone, is read as coming iff it jumped out of its own sight, and is once among those told of the move |
| LockResults.JoinEnds | app_demo/mmo_game/mmo_server.cpp:12-30 | a completed join leaves the player online in exactly its grid, having found itself once |
| LockResults.QuitEnds | app_demo/mmo_game/mmo_server.cpp:32-42 | a completed quit leaves the player offline and in no grid |
| LockResults.MisfoundHasMoved | app_demo/mmo_game/core/AOI_Manager.cpp:28-38 | a player found twice, missed, or found where it was not by a join or quit has changed its grid during the read |
| LockResults.MisfoundByMoveHasMoved | app_demo/mmo_game/core/WorldManager.cpp:62-73 | the same for each read of a move |
| LockSafety.NoDeadlock | app_demo/mmo_game/core/WorldManager.cpp:14-89 | in every reachable state with an unfinished operation some thread can step, even where readers must let waiting writers go first |

## Left out

- HandleOnMessage: its precondition excludes buffers on which the program spins for ever or reads a packet's id past its end; Stream.TerminatesIff and Stream.IdsWholeIff give the exact conditions.
- View agreement under interleaved operations in general: the code does not promise it, because notices are sent outside the locks. Interleaving.InterruptedMoveIff is about one operation, as a whole, in one gap of a move whose position and index are already updated.
- Torn reads: a position is read and stored in one step; what a reader gets of a position that is being stored, which LockRaces.PositionRaceIff shows can happen, is not modelled.
- Connects: after 2^32 connections, one that is issued an id still in use is not modelled; AddPlayer's assertion excludes it while the earlier player is online.
- Floating-point rounding in the cell index and the conversion of positions to floats in messages.
- Protobuf serialisation: messages are values; parse failures in the handlers, which only log, are not modelled.
- Effects of handlers on the server: a handler is seen only through the calls made on it.
- The event loop, sockets and thread pools of muduo: a connection is the bytes received and the messages sent.
- The second overload of `AddPlayer`: it takes over the pointer and takes the reference to the position before the lock; the callbacks use the first.
- Configuration, logging, the echo example and the AI client: none of them touches the world's index, the protocol's state or the framing.
