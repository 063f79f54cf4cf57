/**
  What holds in every interleaving: no assertion fails, the index is right whenever a
  thread is between operations, and there is no deadlock.

  A thread alone decides whether its player is in the map, which grids hold it and where
  it stands. So the rest of a thread's program can be checked by running it on that local
  part of the state (`Safe`); the invariant is that every thread passes this check.
 */
module LockSafety {
  import opened Containers
  import opened Geometry
  import opened Visibility
  import opened PlayerIds
  import opened LockModel

  /** What a thread holds, and all of the shared state that only it changes */
  datatype Local = Local(
    world: Option<Mode>, grid: Option<Cell>, player: Option<Held>,
    online: bool, at: set<Cell>, pos: Position, loaded: Position)

  /** The cells whose grid holds the player */
  function CellsOf(s: Machine, p: Pid): set<Cell> {
    set c | c in s.grids && p in s.grids[c]
  }

  function ViewOf(s: Machine, p: Pid): Local
    requires p in s.threads && p in s.pos
  {
    var t := s.threads[p];
    Local(t.world, t.grid, t.player, p in s.players, CellsOf(s, p), s.pos[p], t.loaded)
  }

  predicate Idle(v: Local) {
    v.grid.None? && v.player.None?
  }

  /**
    The lock discipline and the local reason for each assertion: the world lock is taken
    only with nothing held, nothing is taken under a grid or player lock, and each access
    except the reads of positions is made under its lock.
   */
  predicate Ok(l: Layout, p: Pid, i: Instr, v: Local) {
    match i
    case AcquireWorld(_) => Idle(v) && v.world.None?
    case ReleaseWorld => Idle(v) && v.world.Some?
    case AcquireGrid(c) => Idle(v) && IsValid(l, c)
    case ReleaseGrid => v.grid.Some? && v.player.None?
    case AcquirePlayer(_, _) => Idle(v)
    case ReleasePlayer => v.player.Some? && v.grid.None?
    case MapInsert => v.world == Some(Exclusive) && Idle(v) && !v.online
    case MapErase => v.world == Some(Exclusive) && Idle(v) && v.online && v.at == {}
    case FindSelf => v.world.Some? && Idle(v) && v.online
    case FindCollected => v.world.Some? && Idle(v)
    case CopyMap => v.world == Some(Shared) && Idle(v)
    case Return => v.world == Some(Shared) && Idle(v)
    case GridInsert(c) => v.grid == Some(c) && v.player.None? && IsValid(l, c) && v.online && v.at == {}
    case GridErase(c) => v.grid == Some(c) && v.player.None? && IsValid(l, c) && v.at == {c}
    case GridRead(c) => v.grid == Some(c) && v.player.None? && IsValid(l, c) && v.world == Some(Shared)
    case ReadPos => Idle(v)
    case PeekPos(_) => Idle(v)
    case WritePos(pos) => v.player == Some(Held(p, Exclusive)) && v.grid.None? && OnMap(l, pos)
  }

  function After(p: Pid, i: Instr, v: Local): Local {
    match i
    case AcquireWorld(mode) => v.(world := Some(mode))
    case ReleaseWorld => v.(world := None)
    case AcquireGrid(c) => v.(grid := Some(c))
    case ReleaseGrid => v.(grid := None)
    case AcquirePlayer(w, mode) => v.(player := Some(Held(w, mode)))
    case ReleasePlayer => v.(player := None)
    case MapInsert => v.(online := true)
    case MapErase => v.(online := false)
    case GridInsert(c) => v.(at := v.at + {c})
    case GridErase(c) => v.(at := v.at - {c})
    case ReadPos => v.(loaded := v.pos)
    case WritePos(pos) => v.(pos := pos)
    case _ => v
  }

  /** Between operations: no lock held, and an online player is in exactly its own grid. */
  predicate Resting(l: Layout, v: Local) {
    && Idle(v) && v.world.None? && OnMap(l, v.pos)
    && v.at == if v.online then {CellOf(l, v.pos)} else {}
  }

  /** The rest of a thread's program passes the check, from this local state on. */
  predicate Safe(l: Layout, p: Pid, code: seq<Instr>, next: seq<Stage>, v: Local)
    decreases |next|, |code|
  {
    if code != [] then
      Ok(l, p, code[0], v) && Safe(l, p, code[1..], next, After(p, code[0], v))
    else if next == [] then
      Resting(l, v)
    else if IsScan(next[0]) then
      && Idle(v)
      && (CellsToScan(l, next[0], v.loaded) != {} ==> v.world == Some(Shared))
      && (forall c :: c in CellsToScan(l, next[0], v.loaded) ==> IsValid(l, c))
      && Safe(l, p, [], next[1..], v)
    else if next[0].PeekOthers? then
      Idle(v) && Safe(l, p, [], next[1..], v)
    else
      Safe(l, p, Unfold(l, p, next[0], v.loaded), next[1..], v)
  }

  // ---- Unrolling the check ----

  lemma Safe2(l: Layout, p: Pid, a: Instr, b: Instr, next: seq<Stage>, v: Local)
    requires Ok(l, p, a, v) && Ok(l, p, b, After(p, a, v))
    requires Safe(l, p, [], next, After(p, b, After(p, a, v)))
    ensures Safe(l, p, [a, b], next, v)
  {
    assert [a, b][1..] == [b];
    assert [b][1..] == [];
    assert Safe(l, p, [b], next, After(p, a, v));
  }

  lemma Safe3(l: Layout, p: Pid, a: Instr, b: Instr, c: Instr, next: seq<Stage>, v: Local)
    requires var v1 := After(p, a, v); var v2 := After(p, b, v1);
             && Ok(l, p, a, v) && Ok(l, p, b, v1) && Ok(l, p, c, v2)
             && Safe(l, p, [], next, After(p, c, v2))
    ensures Safe(l, p, [a, b, c], next, v)
  {
    Safe2(l, p, b, c, next, After(p, a, v));
    assert [a, b, c][1..] == [b, c];
  }

  lemma SafeThen3(l: Layout, p: Pid, a: Instr, b: Instr, c: Instr, more: seq<Instr>, next: seq<Stage>, v: Local)
    requires var v1 := After(p, a, v); var v2 := After(p, b, v1);
             && Ok(l, p, a, v) && Ok(l, p, b, v1) && Ok(l, p, c, v2)
             && Safe(l, p, more, next, After(p, c, v2))
    ensures Safe(l, p, [a, b, c] + more, next, v)
  {
    var v1 := After(p, a, v);
    var v2 := After(p, b, v1);
    assert ([c] + more)[1..] == more;
    assert Safe(l, p, [c] + more, next, v2);
    assert ([b] + ([c] + more))[1..] == [c] + more;
    assert Safe(l, p, [b] + ([c] + more), next, v1);
    assert [a, b, c] + more == [a] + ([b] + ([c] + more));
    assert ([a] + ([b] + ([c] + more)))[1..] == [b] + ([c] + more);
  }

  lemma SafeStage(l: Layout, p: Pid, stage: Stage, rest: seq<Stage>, v: Local)
    requires !IsScan(stage) && !stage.PeekOthers?
    requires Safe(l, p, Unfold(l, p, stage, v.loaded), rest, v)
    ensures Safe(l, p, [], [stage] + rest, v)
  {
    assert ([stage] + rest)[1..] == rest;
  }

  lemma SafeScan(l: Layout, p: Pid, stage: Stage, rest: seq<Stage>, v: Local)
    requires stage.ScanAround? || stage.ScanCross?
    requires Idle(v) && (v.world == Some(Shared) || CellsToScan(l, stage, v.loaded) == {})
    requires Safe(l, p, [], rest, v)
    ensures Safe(l, p, [], [stage] + rest, v)
  {
    assert ([stage] + rest)[1..] == rest;
    forall c | c in CellsToScan(l, stage, v.loaded)
      ensures IsValid(l, c)
    {
    }
  }

  lemma SafePeekOthers(l: Layout, p: Pid, rest: seq<Stage>, v: Local)
    requires Idle(v) && Safe(l, p, [], rest, v)
    ensures Safe(l, p, [], [PeekOthers] + rest, v)
  {
    assert ([PeekOthers] + rest)[1..] == rest;
  }

  // ---- Each stage passes, if the rest does after it ----

  predicate Free(v: Local) {
    Idle(v) && v.world.None?
  }

  lemma LookupSafe(l: Layout, p: Pid, rest: seq<Stage>, v: Local)
    requires Free(v) && v.online && Safe(l, p, [], rest, v)
    ensures Safe(l, p, [], [Lookup] + rest, v)
  {
    assert v.(world := None) == v;
    Safe3(l, p, AcquireWorld(Shared), FindSelf, ReleaseWorld, rest, v);
    SafeStage(l, p, Lookup, rest, v);
  }

  lemma LoadPosSafe(l: Layout, p: Pid, rest: seq<Stage>, v: Local)
    requires Idle(v) && Safe(l, p, [], rest, v.(loaded := v.pos))
    ensures Safe(l, p, [], [LoadPos] + rest, v)
  {
    assert v.(player := None) == v;
    Safe3(l, p, AcquirePlayer(p, Shared), ReleasePlayer, ReadPos, rest, v);
    SafeStage(l, p, LoadPos, rest, v);
  }

  lemma PeekSafe(l: Layout, p: Pid, stage: Stage, rest: seq<Stage>, v: Local)
    requires stage.PeekSelf? || stage.PeekNew?
    requires Idle(v) && Safe(l, p, [], rest, v)
    ensures Safe(l, p, [], [stage] + rest, v)
  {
    assert v.(player := None) == v;
    Safe3(l, p, AcquirePlayer(p, Shared), ReleasePlayer, PeekPos(p), rest, v);
    SafeStage(l, p, stage, rest, v);
  }

  lemma EnterMapSafe(l: Layout, p: Pid, rest: seq<Stage>, v: Local)
    requires Free(v) && !v.online && Safe(l, p, [], rest, v.(online := true))
    ensures Safe(l, p, [], [EnterMap] + rest, v)
  {
    assert v.(online := true).(world := None) == v.(online := true);
    Safe3(l, p, AcquireWorld(Exclusive), MapInsert, ReleaseWorld, rest, v);
    SafeStage(l, p, EnterMap, rest, v);
  }

  lemma EnterGridSafe(l: Layout, p: Pid, rest: seq<Stage>, v: Local)
    requires Idle(v) && v.online && v.at == {} && OnMap(l, v.loaded)
    requires Safe(l, p, [], rest, v.(at := {CellOf(l, v.loaded)}))
    ensures Safe(l, p, [], [EnterGrid] + rest, v)
  {
    var c := CellOf(l, v.loaded);
    assert v.(grid := Some(c)).(at := {} + {c}).(grid := None) == v.(at := {c});
    Safe3(l, p, AcquireGrid(c), GridInsert(c), ReleaseGrid, rest, v);
    SafeStage(l, p, EnterGrid, rest, v);
  }

  lemma StorePosSafe(l: Layout, p: Pid, to: Position, rest: seq<Stage>, v: Local)
    requires Idle(v) && OnMap(l, to) && Safe(l, p, [], rest, v.(pos := to))
    ensures Safe(l, p, [], [StorePos(to)] + rest, v)
  {
    assert v.(pos := to).(player := None) == v.(pos := to);
    Safe3(l, p, AcquirePlayer(p, Exclusive), WritePos(to), ReleasePlayer, rest, v);
    SafeStage(l, p, StorePos(to), rest, v);
  }

  lemma RegridSafe(l: Layout, p: Pid, to: Position, rest: seq<Stage>, v: Local)
    requires Idle(v) && v.online && OnMap(l, v.loaded) && OnMap(l, to)
    requires v.at == {CellOf(l, v.loaded)}
    requires Safe(l, p, [], rest, v.(at := {CellOf(l, to)}))
    ensures Safe(l, p, [], [Regrid(to)] + rest, v)
  {
    var c, d := CellOf(l, v.loaded), CellOf(l, to);
    if c != d {
      var gone := v.(at := {});
      assert v.(grid := Some(c)).(at := {c} - {c}).(grid := None) == gone;
      assert gone.(grid := Some(d)).(at := {} + {d}).(grid := None) == v.(at := {d});
      Safe3(l, p, AcquireGrid(d), GridInsert(d), ReleaseGrid, rest, gone);
      SafeThen3(l, p, AcquireGrid(c), GridErase(c), ReleaseGrid, [AcquireGrid(d), GridInsert(d), ReleaseGrid], rest, v);
    } else {
      assert v.(at := {d}) == v;
    }
    SafeStage(l, p, Regrid(to), rest, v);
  }

  /** One GetAllPlayers(grids) of a crossing; nothing at all without one */
  lemma CrossSafe(l: Layout, p: Pid, to: Position, gone: bool, rest: seq<Stage>, v: Local)
    requires Free(v) && Safe(l, p, [], rest, v)
    ensures Safe(l, p, [], [OpenCross(to)] + ([ScanCross(to, gone)] + ([CloseCross(to)] + rest)), v)
  {
    var scan := [ScanCross(to, gone)] + ([CloseCross(to)] + rest);
    if Crosses(l, v.loaded, to) {
      var locked := v.(world := Some(Shared));
      assert locked.(world := None) == v;
      Safe2(l, p, Return, ReleaseWorld, rest, locked);
      SafeStage(l, p, CloseCross(to), rest, locked);
      SafeScan(l, p, ScanCross(to, gone), [CloseCross(to)] + rest, locked);
      assert [AcquireWorld(Shared)][1..] == [];
      assert Safe(l, p, [AcquireWorld(Shared)], scan, v);
    } else {
      SafeStage(l, p, CloseCross(to), rest, v);
      SafeScan(l, p, ScanCross(to, gone), [CloseCross(to)] + rest, v);
    }
    SafeStage(l, p, OpenCross(to), scan, v);
  }

  /** The lock, the own player and the own position, at the head of a query or a removal */
  lemma OpenSafe(l: Layout, p: Pid, mode: Mode, rest: seq<Stage>, v: Local)
    requires Free(v) && v.online
    requires Safe(l, p, [], rest, v.(world := Some(mode), loaded := v.pos))
    ensures Safe(l, p, [AcquireWorld(mode), FindSelf] + [AcquirePlayer(p, Shared), ReleasePlayer, ReadPos], rest, v)
  {
    var locked := v.(world := Some(mode));
    var load := [AcquirePlayer(p, Shared), ReleasePlayer, ReadPos];
    assert locked.(player := None) == locked;
    Safe3(l, p, AcquirePlayer(p, Shared), ReleasePlayer, ReadPos, rest, locked);
    assert ([FindSelf] + load)[1..] == load;
    assert Safe(l, p, [FindSelf] + load, rest, locked);
    var code := [AcquireWorld(mode), FindSelf] + load;
    assert code[1..] == [FindSelf] + load;
  }

  lemma QuerySafe(l: Layout, p: Pid, rest: seq<Stage>, v: Local)
    requires Free(v) && v.online && Safe(l, p, [], rest, v.(loaded := v.pos))
    ensures Safe(l, p, [], [OpenQuery] + ([ScanAround] + ([CloseQuery] + rest)), v)
  {
    var locked := v.(world := Some(Shared), loaded := v.pos);
    assert locked.(world := None) == v.(loaded := v.pos);
    Safe3(l, p, FindCollected, Return, ReleaseWorld, rest, locked);
    SafeStage(l, p, CloseQuery, rest, locked);
    SafeScan(l, p, ScanAround, [CloseQuery] + rest, locked);
    OpenSafe(l, p, Shared, [ScanAround] + ([CloseQuery] + rest), v);
    SafeStage(l, p, OpenQuery, [ScanAround] + ([CloseQuery] + rest), v);
  }

  lemma RemovalSafe(l: Layout, p: Pid, rest: seq<Stage>, v: Local)
    requires Free(v) && v.online && OnMap(l, v.pos) && v.at == {CellOf(l, v.pos)}
    requires Safe(l, p, [], rest, v.(online := false, at := {}, loaded := v.pos))
    ensures Safe(l, p, [], [OpenRemoval] + ([CloseRemoval] + rest), v)
  {
    CloseRemovalSafe(l, p, rest, v.(world := Some(Exclusive), loaded := v.pos));
    OpenSafe(l, p, Exclusive, [CloseRemoval] + rest, v);
    SafeStage(l, p, OpenRemoval, [CloseRemoval] + rest, v);
  }

  lemma CloseRemovalSafe(l: Layout, p: Pid, rest: seq<Stage>, v: Local)
    requires Idle(v) && v.world == Some(Exclusive) && v.online
    requires OnMap(l, v.loaded) && v.at == {CellOf(l, v.loaded)}
    requires Safe(l, p, [], rest, v.(world := None, online := false, at := {}))
    ensures Safe(l, p, [], [CloseRemoval] + rest, v)
  {
    var c := CellOf(l, v.loaded);
    var out := v.(at := {});
    assert v.(grid := Some(c)).(at := {c} - {c}).(grid := None) == out;
    assert out.(online := false).(world := None) == v.(world := None, online := false, at := {});
    Safe2(l, p, MapErase, ReleaseWorld, rest, out);
    SafeThen3(l, p, AcquireGrid(c), GridErase(c), ReleaseGrid, [MapErase, ReleaseWorld], rest, v);
    SafeStage(l, p, CloseRemoval, rest, v);
  }

  lemma CopyAllSafe(l: Layout, p: Pid, rest: seq<Stage>, v: Local)
    requires Free(v) && Safe(l, p, [], rest, v)
    ensures Safe(l, p, [], [CopyAll] + rest, v)
  {
    var locked := v.(world := Some(Shared));
    assert locked.(world := None) == v;
    assert [ReleaseWorld][1..] == [];
    assert Safe(l, p, [ReleaseWorld], rest, locked);
    SafeThen3(l, p, AcquireWorld(Shared), CopyMap, Return, [ReleaseWorld], rest, v);
    SafeStage(l, p, CopyAll, rest, v);
  }

  // ---- Each operation passes ----

  lemma SyncSafe(l: Layout, p: Pid, v: Local)
    requires Resting(l, v) && v.online && v.loaded == v.pos
    ensures Safe(l, p, [], SYNC, v)
  {
    SafePeekOthers(l, p, [], v);
    PeekSafe(l, p, PeekSelf, [PeekOthers] + [], v);
    var peeks: seq<Stage> := [PeekSelf] + ([PeekOthers] + []);
    assert v.(loaded := v.pos) == v;
    QuerySafe(l, p, peeks, v);
    assert SYNC == [OpenQuery] + ([ScanAround] + ([CloseQuery] + peeks));
  }

  lemma JoinSafe(l: Layout, p: Pid, v: Local)
    requires Free(v) && !v.online && v.at == {} && OnMap(l, v.pos)
    ensures Safe(l, p, [], JOIN, v)
  {
    var online := v.(online := true);
    EnteredSafe(l, p, online);
    EnterMapSafe(l, p, [LoadPos] + ([EnterGrid] + SYNC), v);
    JoinIs();
  }

  lemma JoinIs()
    ensures JOIN == [EnterMap] + ([LoadPos] + ([EnterGrid] + SYNC))
  {
  }

  /** From the entry in the map on: the index, then the synchronisation */
  lemma EnteredSafe(l: Layout, p: Pid, v: Local)
    requires Free(v) && v.online && v.at == {} && OnMap(l, v.pos)
    ensures Safe(l, p, [], [LoadPos] + ([EnterGrid] + SYNC), v)
  {
    var loaded := v.(loaded := v.pos);
    var joined := loaded.(at := {CellOf(l, v.pos)});
    assert Resting(l, joined);
    SyncSafe(l, p, joined);
    EnterGridSafe(l, p, SYNC, loaded);
    LoadPosSafe(l, p, [EnterGrid] + SYNC, v);
  }

  lemma CrossStagesAre(to: Position, rest: seq<Stage>)
    ensures CrossStages(to) + rest
         == [OpenCross(to)] + ([ScanCross(to, true)] + ([CloseCross(to)]
            + ([OpenCross(to)] + ([ScanCross(to, false)] + ([CloseCross(to)] + ([PeekNew(to)] + ([PeekOthers] + rest)))))))
  {
  }

  lemma CrossStagesSafe(l: Layout, p: Pid, to: Position, rest: seq<Stage>, v: Local)
    requires Free(v) && Safe(l, p, [], rest, v)
    ensures Safe(l, p, [], CrossStages(to) + rest, v)
  {
    SafePeekOthers(l, p, rest, v);
    PeekSafe(l, p, PeekNew(to), [PeekOthers] + rest, v);
    var peeks := [PeekNew(to)] + ([PeekOthers] + rest);
    CrossSafe(l, p, to, false, peeks, v);
    CrossSafe(l, p, to, true, [OpenCross(to)] + ([ScanCross(to, false)] + ([CloseCross(to)] + peeks)), v);
    CrossStagesAre(to, rest);
  }

  lemma MoveSafe(l: Layout, p: Pid, to: Position, v: Local)
    requires Resting(l, v) && v.online && OnMap(l, to)
    ensures Safe(l, p, [], MoveStages(to), v)
  {
    var tail := [Regrid(to)] + (CrossStages(to) + ([PeekSelf] + QUERY));
    RelocatedSafe(l, p, to, v.(loaded := v.pos).(pos := to));
    StoredSafe(l, p, to, tail, v);
    MoveStagesAre(to);
  }

  lemma MoveStagesAre(to: Position)
    ensures MoveStages(to)
         == [Lookup] + ([LoadPos] + ([StorePos(to)] + ([Regrid(to)] + (CrossStages(to) + ([PeekSelf] + QUERY)))))
  {
  }

  /** Up to the stored position */
  lemma StoredSafe(l: Layout, p: Pid, to: Position, rest: seq<Stage>, v: Local)
    requires Free(v) && v.online && OnMap(l, to)
    requires Safe(l, p, [], rest, v.(loaded := v.pos).(pos := to))
    ensures Safe(l, p, [], [Lookup] + ([LoadPos] + ([StorePos(to)] + rest)), v)
  {
    StorePosSafe(l, p, to, rest, v.(loaded := v.pos));
    LoadPosSafe(l, p, [StorePos(to)] + rest, v);
    LookupSafe(l, p, [LoadPos] + ([StorePos(to)] + rest), v);
  }

  /** From the stored position on: the index, the notices, the last query */
  lemma RelocatedSafe(l: Layout, p: Pid, to: Position, v: Local)
    requires Free(v) && v.online && OnMap(l, v.loaded) && OnMap(l, to) && v.pos == to
    requires v.at == {CellOf(l, v.loaded)}
    ensures Safe(l, p, [], [Regrid(to)] + (CrossStages(to) + ([PeekSelf] + QUERY)), v)
  {
    var moved := v.(at := {CellOf(l, to)});
    assert Resting(l, moved);
    LastQuerySafe(l, p, moved);
    CrossStagesSafe(l, p, to, [PeekSelf] + QUERY, moved);
    RegridSafe(l, p, to, CrossStages(to) + ([PeekSelf] + QUERY), v);
  }

  lemma LastQuerySafe(l: Layout, p: Pid, v: Local)
    requires Resting(l, v) && v.online
    ensures Safe(l, p, [], [PeekSelf] + QUERY, v)
  {
    assert Resting(l, v.(loaded := v.pos));
    QuerySafe(l, p, [], v);
    assert QUERY == [OpenQuery] + ([ScanAround] + ([CloseQuery] + []));
    PeekSafe(l, p, PeekSelf, QUERY, v);
  }

  lemma QuitSafe(l: Layout, p: Pid, v: Local)
    requires Resting(l, v) && v.online
    ensures Safe(l, p, [], QUIT, v)
  {
    var loaded := v.(loaded := v.pos);
    var end: seq<Stage> := [];
    assert Resting(l, v.(online := false, at := {}, loaded := v.pos));
    RemovalSafe(l, p, end, loaded);
    var removal := [OpenRemoval] + ([CloseRemoval] + end);
    QuerySafe(l, p, removal, v);
    var query := [OpenQuery] + ([ScanAround] + ([CloseQuery] + removal));
    LookupSafe(l, p, query, v);
    assert QUIT == [Lookup] + query;
  }

  lemma ChatSafe(l: Layout, p: Pid, v: Local)
    requires Resting(l, v) && v.online
    ensures Safe(l, p, [], CHAT, v)
  {
    CopyAllSafe(l, p, [], v);
    LookupSafe(l, p, [CopyAll] + [], v);
    assert CHAT == [Lookup] + ([CopyAll] + []);
  }

  // ---- The invariant ----

  predicate Online(collected: multiset<Pid>, players: set<Pid>) {
    forall q :: q in collected ==> q in players
  }

  /** The thread passes the check; its player is in at most one grid, and only when online. */
  ghost predicate ThreadOk(l: Layout, s: Machine, p: Pid) {
    p in s.threads ==>
      && p in s.pos
      && var v := ViewOf(s, p);
      && Safe(l, p, s.threads[p].code, s.threads[p].next, v)
      && InOneGridAtMost(v)
      && (v.world.Some? ==> Online(s.threads[p].collected, s.players))
      && (v.world == Some(Exclusive) ==> s.threads[p].collected == multiset{})
  }

  /** No two threads hold the same lock, unless both share it. */
  predicate Compatible(t: Thread, u: Thread) {
    && !(t.world == Some(Exclusive) && u.world.Some?)
    && !(t.grid.Some? && u.grid == t.grid)
    && !(t.player.Some? && u.player.Some? && t.player.value.who == u.player.value.who
         && t.player.value.mode == Exclusive)
  }

  ghost predicate PairOk(s: Machine, p: Pid, q: Pid) {
    p in s.threads && q in s.threads && p != q ==> Compatible(s.threads[p], s.threads[q])
  }

  /** Every id in a shared structure belongs to a thread; the grids are those of the map. */
  ghost predicate Closed(l: Layout, s: Machine) {
    && s.pos.Keys == s.threads.Keys
    && s.players <= s.threads.Keys
    && s.grids.Keys == AllCells(l)
    && forall c :: c in s.grids ==> s.grids[c] <= s.threads.Keys
  }

  ghost predicate Inv(l: Layout, s: Machine) {
    && Closed(l, s)
    && (forall p :: ThreadOk(l, s, p))
    && (forall p, q :: PairOk(s, p, q))
  }

  // ---- One instruction ----

  /** Everything a step of `p` leaves alone */
  ghost predicate OnlyTouches(s: Machine, s': Machine, p: Pid) {
    && s'.threads.Keys == s.threads.Keys && s'.pos.Keys == s.pos.Keys
    && s'.grids.Keys == s.grids.Keys && s'.issued == s.issued
    && (forall q :: q in s.threads && q != p ==> s'.threads[q] == s.threads[q])
    && (forall q :: q in s.pos && q != p ==> s'.pos[q] == s.pos[q])
    && (forall q :: q != p ==> (q in s'.players <==> q in s.players))
    && (forall c, q :: c in s.grids && q != p ==> (q in s'.grids[c] <==> q in s.grids[c]))
  }

  lemma ExecuteTouches(l: Layout, s: Machine, p: Pid)
    requires Closed(l, s) && p in s.threads && s.threads[p].code != []
    requires Ok(l, p, s.threads[p].code[0], ViewOf(s, p))
    ensures OnlyTouches(s, Execute(s, p, s.threads[p].code[0]), p)
  {
  }

  /** On the thread's own part of the state the instruction does what the check says. */
  lemma ExecuteView(l: Layout, s: Machine, p: Pid)
    requires Closed(l, s) && p in s.threads && s.threads[p].code != []
    requires Ok(l, p, s.threads[p].code[0], ViewOf(s, p))
    ensures var i := s.threads[p].code[0];
            var s' := Execute(s, p, i);
            && s'.threads.Keys == s.threads.Keys && s'.pos.Keys == s.pos.Keys
            && ViewOf(s', p) == After(p, i, ViewOf(s, p))
  {
    var i := s.threads[p].code[0];
    var s' := Execute(s, p, i);
    forall c
      ensures c in CellsOf(s', p) <==> c in After(p, i, ViewOf(s, p)).at
    {
    }
    assert CellsOf(s', p) == After(p, i, ViewOf(s, p)).at;
  }

  lemma OtherView(s: Machine, s': Machine, p: Pid, q: Pid)
    requires OnlyTouches(s, s', p) && q != p && q in s.threads && q in s.pos
    ensures ViewOf(s', q) == ViewOf(s, q)
  {
    assert CellsOf(s', q) == CellsOf(s, q);
  }

  /** Whoever is in a grid is in the map. */
  lemma InGridIsOnline(l: Layout, s: Machine, c: Cell)
    requires Inv(l, s) && c in s.grids
    ensures s.grids[c] <= s.players
  {
    forall q | q in s.grids[c]
      ensures q in s.players
    {
      assert q in s.threads.Keys && ThreadOk(l, s, q);
      assert c in ViewOf(s, q).at;
    }
  }

  lemma ExecuteThreads(s: Machine, p: Pid)
    requires p in s.threads && s.threads[p].code != [] && p in s.pos
    ensures var t := s.threads[p];
            var s' := Execute(s, p, t.code[0]);
            && s'.threads == s.threads[p := Proceed(s, p, t, t.code[0])]
            && s'.threads[p].code == t.code[1..] && s'.threads[p].next == t.next
  {
  }

  predicate InOneGridAtMost(v: Local) {
    (forall c, d :: c in v.at && d in v.at ==> c == d) && (v.at != {} ==> v.online)
  }

  lemma AfterInOneGrid(l: Layout, p: Pid, i: Instr, v: Local)
    requires Ok(l, p, i, v) && InOneGridAtMost(v)
    ensures InOneGridAtMost(After(p, i, v))
  {
  }

  lemma ExecuteOwn(l: Layout, s: Machine, p: Pid)
    requires Inv(l, s) && p in s.threads && s.threads[p].code != []
    ensures Ok(l, p, s.threads[p].code[0], ViewOf(s, p))
    ensures ThreadOk(l, Execute(s, p, s.threads[p].code[0]), p)
  {
    assert ThreadOk(l, s, p);
    AfterInOneGrid(l, p, s.threads[p].code[0], ViewOf(s, p));
    ExecuteThreads(s, p);
    ExecuteView(l, s, p);
    ExecuteCollected(l, s, p);
  }

  lemma ExecuteCollected(l: Layout, s: Machine, p: Pid)
    requires Inv(l, s) && p in s.threads && s.threads[p].code != []
    requires Ok(l, p, s.threads[p].code[0], ViewOf(s, p))
    ensures var s' := Execute(s, p, s.threads[p].code[0]);
            var t := s'.threads[p];
            && (t.world.Some? ==> Online(t.collected, s'.players))
            && (t.world == Some(Exclusive) ==> t.collected == multiset{})
  {
    assert ThreadOk(l, s, p);
    var i := s.threads[p].code[0];
    if i.GridRead? && i.cell in s.grids {
      InGridIsOnline(l, s, i.cell);
    }
  }

  lemma ExecuteOther(l: Layout, s: Machine, p: Pid, q: Pid)
    requires Inv(l, s) && p in s.threads && s.threads[p].code != [] && q != p
    requires Ok(l, p, s.threads[p].code[0], ViewOf(s, p))
    ensures ThreadOk(l, Execute(s, p, s.threads[p].code[0]), q)
  {
    assert ThreadOk(l, s, q) && PairOk(s, p, q);
    ExecuteTouches(l, s, p);
    if q in s.threads {
      OtherView(s, Execute(s, p, s.threads[p].code[0]), p, q);
    }
  }

  lemma ProceedCompatible(s: Machine, p: Pid, t: Thread, i: Instr, q: Pid)
    requires t.code != [] && p in s.pos && q in s.threads && q != p && Enabled(s, p, i)
    requires Compatible(t, s.threads[q]) && Compatible(s.threads[q], t)
    ensures Compatible(Proceed(s, p, t, i), s.threads[q]) && Compatible(s.threads[q], Proceed(s, p, t, i))
  {
  }

  lemma ExecutePairs(l: Layout, s: Machine, p: Pid, q: Pid)
    requires Inv(l, s) && p in s.threads && s.threads[p].code != [] && q != p
    requires Enabled(s, p, s.threads[p].code[0])
    ensures var s' := Execute(s, p, s.threads[p].code[0]); PairOk(s', p, q) && PairOk(s', q, p)
  {
    assert PairOk(s, p, q) && PairOk(s, q, p);
    ExecuteThreads(s, p);
    if q in s.threads {
      ProceedCompatible(s, p, s.threads[p], s.threads[p].code[0], q);
    }
  }

  lemma ExecuteKeeps(l: Layout, s: Machine, p: Pid)
    requires Inv(l, s) && p in s.threads && s.threads[p].code != []
    requires Enabled(s, p, s.threads[p].code[0])
    ensures Inv(l, Execute(s, p, s.threads[p].code[0]))
  {
    var s' := Execute(s, p, s.threads[p].code[0]);
    ExecuteOwn(l, s, p);
    ExecuteTouches(l, s, p);
    ExecuteClosed(l, s, s', p);
    forall q
      ensures ThreadOk(l, s', q)
    {
      if q != p {
        ExecuteOther(l, s, p, q);
      }
    }
    forall q, r
      ensures PairOk(s', q, r)
    {
      assert PairOk(s, q, r);
      if q == p && r != p {
        ExecutePairs(l, s, p, r);
      } else if r == p && q != p {
        ExecutePairs(l, s, p, q);
      }
    }
  }

  lemma ExecuteClosed(l: Layout, s: Machine, s': Machine, p: Pid)
    requires Closed(l, s) && p in s.threads && OnlyTouches(s, s', p)
    ensures Closed(l, s')
  {
    forall q | q in s'.players
      ensures q in s'.threads.Keys
    {
      assert q != p ==> q in s.players;
    }
    forall c | c in s'.grids
      ensures s'.grids[c] <= s'.threads.Keys
    {
      forall q | q in s'.grids[c]
        ensures q in s'.threads.Keys
      {
        assert q != p ==> q in s.grids[c];
      }
    }
  }

  // ---- The other steps ----

  lemma Rethread(l: Layout, s: Machine, p: Pid, u: Thread)
    requires Inv(l, s) && p in s.threads
    requires var t := s.threads[p];
             && u.world == t.world && u.grid == t.grid && u.player == t.player && u.loaded == t.loaded
             && u.collected <= t.collected
             && Safe(l, p, u.code, u.next, ViewOf(s, p))
    ensures Inv(l, s.(threads := s.threads[p := u]))
  {
    var s' := s.(threads := s.threads[p := u]);
    assert ThreadOk(l, s, p);
    assert CellsOf(s', p) == CellsOf(s, p);
    forall q
      ensures ThreadOk(l, s', q)
    {
      assert ThreadOk(l, s, q);
      if q in s.threads {
        assert CellsOf(s', q) == CellsOf(s, q);
      }
    }
    forall q, r
      ensures PairOk(s', q, r)
    {
      assert PairOk(s, q, r);
    }
  }

  lemma ScanOneSafe(l: Layout, p: Pid, t: Thread, c: Cell, v: Local)
    requires t.code == [] && t.next != [] && IsScan(t.next[0])
    requires Safe(l, p, [], t.next, v) && c in CellsToScan(l, t.next[0], v.loaded)
    ensures var u := ScanOne(t, c, CellsToScan(l, t.next[0], v.loaded), WithLookups(t.next[0]));
            Safe(l, p, u.code, u.next, v)
  {
    var cells, lookups := CellsToScan(l, t.next[0], v.loaded), WithLookups(t.next[0]);
    var left: seq<Stage> := [Scan(cells - {c}, lookups)];
    var rest := t.next[1..];
    assert (left + rest)[1..] == rest;
    assert Safe(l, p, [], left + rest, v);
    assert v.(grid := None) == v;
    if lookups {
      assert [FindCollected][1..] == [];
      assert Safe(l, p, [FindCollected], left + rest, v);
      SafeThen3(l, p, AcquireGrid(c), GridRead(c), ReleaseGrid, [FindCollected], left + rest, v);
    } else {
      Safe3(l, p, AcquireGrid(c), GridRead(c), ReleaseGrid, left + rest, v);
      assert ScanCode(c, false) == [AcquireGrid(c), GridRead(c), ReleaseGrid];
    }
  }

  lemma PeekOneSafe(l: Layout, p: Pid, t: Thread, q: Pid, v: Local)
    requires t.code == [] && t.next != [] && t.next[0].PeekOthers? && Safe(l, p, [], t.next, v)
    ensures Safe(l, p, PeekOne(t, q).code, PeekOne(t, q).next, v)
  {
    assert v.(player := None) == v;
    Safe3(l, p, AcquirePlayer(q, Shared), ReleasePlayer, PeekPos(q), t.next, v);
  }

  lemma UnfoldKeeps(l: Layout, s: Machine, p: Pid, u: Thread)
    requires Inv(l, s) && p in s.threads && s.threads[p].code == [] && s.threads[p].next != []
    requires Unfolds(l, p, s.threads[p], u)
    ensures Inv(l, s.(threads := s.threads[p := u]))
  {
    var t, v := s.threads[p], ViewOf(s, p);
    assert ThreadOk(l, s, p);
    var stage := t.next[0];
    if IsScan(stage) {
      var cells := CellsToScan(l, stage, t.loaded);
      if cells != {} {
        var c :| c in cells && u == ScanOne(t, c, cells, WithLookups(stage));
        ScanOneSafe(l, p, t, c, v);
      }
    } else if stage.PeekOthers? && t.collected != multiset{} {
      var q :| q in t.collected && u == PeekOne(t, q);
      PeekOneSafe(l, p, t, q, v);
    }
    Rethread(l, s, p, u);
  }

  lemma BeginKeeps(l: Layout, s: Machine, p: Pid, u: Thread)
    requires Inv(l, s) && p in s.threads && s.threads[p].code == [] && s.threads[p].next == []
    requires Begins(l, s, p, s.threads[p], u)
    ensures Inv(l, s.(threads := s.threads[p := u]))
  {
    var v := ViewOf(s, p);
    assert ThreadOk(l, s, p);
    assert Resting(l, v) && v.online;
    if u.next == QUIT {
      QuitSafe(l, p, v);
    } else if u.next == CHAT {
      ChatSafe(l, p, v);
    } else {
      var to :| OnMap(l, to) && u.next == MoveStages(to);
      MoveSafe(l, p, to, v);
    }
    Rethread(l, s, p, u);
  }

  lemma ConnectKeeps(l: Layout, s: Machine, p: Pid, pos: Position)
    requires Inv(l, s) && OnMap(l, pos) && p !in s.threads
    ensures Inv(l, Opened(s, p, pos))
  {
    var s' := Opened(s, p, pos);
    assert CellsOf(s', p) == {};
    JoinSafe(l, p, ViewOf(s', p));
    forall q
      ensures ThreadOk(l, s', q)
    {
      assert ThreadOk(l, s, q);
      if q in s.threads {
        assert CellsOf(s', q) == CellsOf(s, q);
      }
    }
    forall q, r
      ensures PairOk(s', q, r)
    {
      assert PairOk(s, q, r);
    }
  }

  lemma RetireKeeps(l: Layout, s: Machine, s': Machine, p: Pid)
    requires Inv(l, s) && Retires(s, s', p)
    ensures Inv(l, s')
  {
    assert ThreadOk(l, s, p);
    assert Resting(l, ViewOf(s, p)) && CellsOf(s, p) == {};
    forall c | c in s'.grids
      ensures s'.grids[c] <= s'.threads.Keys
    {
      assert c in CellsOf(s, p) <==> p in s.grids[c];
    }
    forall q
      ensures ThreadOk(l, s', q)
    {
      assert ThreadOk(l, s, q);
      if q in s'.threads {
        assert CellsOf(s', q) == CellsOf(s, q);
      }
    }
    forall q, r
      ensures PairOk(s', q, r)
    {
      assert PairOk(s, q, r);
    }
  }

  lemma StepKeeps(l: Layout, s: Machine, s': Machine, p: Pid)
    requires Inv(l, s) && ThreadStep(l, s, s', p)
    ensures Inv(l, s')
  {
    var t := s.threads[p];
    if t.code != [] {
      ExecuteKeeps(l, s, p);
    } else {
      var u :| s' == s.(threads := s.threads[p := u])
        && (if t.next != [] then Unfolds(l, p, t, u) else Begins(l, s, p, t, u));
      if t.next != [] {
        UnfoldKeeps(l, s, p, u);
      } else {
        BeginKeeps(l, s, p, u);
      }
    }
  }

  lemma NextKeeps(l: Layout, s: Machine, s': Machine)
    requires Inv(l, s) && Next(l, s, s')
    ensures Inv(l, s')
  {
    if Connects(l, s, s') {
      var pos :| OnMap(l, pos) && s' == Opened(s, PidAt(s.issued), pos);
      ConnectKeeps(l, s, PidAt(s.issued), pos);
    } else if p :| ThreadStep(l, s, s', p) {
      StepKeeps(l, s, s', p);
    } else {
      var p :| Retires(s, s', p);
      RetireKeeps(l, s, s', p);
    }
  }

  /** The invariant holds in every state of every interleaving. */
  lemma {:induction false} AlwaysInv(l: Layout, states: seq<Machine>, n: nat)
    requires IsExecution(l, states) && n < |states|
    ensures Inv(l, states[n])
  {
    if n > 0 {
      AlwaysInv(l, states, n - 1);
      assert NextAt(l, states, n - 1);
      NextKeeps(l, states[n - 1], states[n]);
    }
  }

  lemma NextIssued(l: Layout, s: Machine, s': Machine)
    requires AllIssued(s.issued, s.threads.Keys) && Next(l, s, s')
    ensures AllIssued(s'.issued, s'.threads.Keys)
  {
    if Connects(l, s, s') {
      var p := PidAt(s.issued);
      IssueNext(s.issued, s.threads.Keys);
      assert s'.threads.Keys == s.threads.Keys + {p} && s'.issued == s.issued + 1;
    } else if p :| ThreadStep(l, s, s', p) {
      if s.threads[p].code != [] {
        ExecuteThreads(s, p);
      }
      assert s'.threads.Keys == s.threads.Keys && s'.issued == s.issued;
    }
  }

  lemma {:induction false} AlwaysIssued(l: Layout, states: seq<Machine>, n: nat)
    requires IsExecution(l, states) && n < |states|
    ensures AllIssued(states[n].issued, states[n].threads.Keys)
  {
    if n > 0 {
      AlwaysIssued(l, states, n - 1);
      assert NextAt(l, states, n - 1);
      NextIssued(l, states[n - 1], states[n]);
    }
  }

  /** The ids of the first 2^32 connections are always free, so nothing keeps a client from connecting. */
  lemma IdIsFree(l: Layout, states: seq<Machine>, n: nat)
    requires IsExecution(l, states) && n < |states| && states[n].issued < 0x1_0000_0000
    ensures PidAt(states[n].issued) !in states[n].threads
  {
    var s := states[n];
    AlwaysIssued(l, states, n);
    if PidAt(s.issued) in s.threads.Keys {
      assert IsIssued(s.issued, PidAt(s.issued));
      var i :| 0 <= i < s.issued && PidAt(i) == PidAt(s.issued);
      PidsFresh(i, s.issued);
    }
  }

  // ---- What follows for every interleaving ----

  /**
    No assertion fails: in particular a player id read out of a grid is still in the map
    when it is looked up without taking the lock again.
   */
  lemma NoAssertionFails(l: Layout, states: seq<Machine>, n: nat, p: Pid)
    requires IsExecution(l, states) && n < |states|
    requires p in states[n].threads && states[n].threads[p].code != []
    ensures Asserted(states[n], p, states[n].threads[p].code[0])
  {
    var s := states[n];
    AlwaysInv(l, states, n);
    assert ThreadOk(l, s, p);
    var v := ViewOf(s, p);
    assert forall c :: c in v.at <==> c in s.grids && p in s.grids[c];
  }

  /**
    A player is in at most one grid, and then in the map. When its thread is between
    operations, an online player is in exactly the grid of its position, and one that has
    left is in no grid.
   */
  lemma IndexIsRight(l: Layout, states: seq<Machine>, n: nat, p: Pid)
    requires IsExecution(l, states) && n < |states| && p in states[n].threads
    ensures var s := states[n];
            && p in s.pos && OnMapWhenResting(l, s, p)
            && (forall c, d :: c in s.grids && d in s.grids && p in s.grids[c] && p in s.grids[d] ==> c == d)
            && (forall c :: c in s.grids && p in s.grids[c] ==> p in s.players)
            && (s.threads[p].code == [] && s.threads[p].next == [] ==>
                 forall c :: c in s.grids ==> (p in s.grids[c] <==> p in s.players && c == CellOf(l, s.pos[p])))
  {
    var s := states[n];
    AlwaysInv(l, states, n);
    assert ThreadOk(l, s, p);
    var v := ViewOf(s, p);
    assert forall c :: c in v.at <==> c in s.grids && p in s.grids[c];
  }

  predicate OnMapWhenResting(l: Layout, s: Machine, p: Pid)
    requires p in s.threads && p in s.pos
  {
    s.threads[p].code == [] && s.threads[p].next == [] ==> OnMap(l, s.pos[p])
  }

  /** No operation is under way. */
  ghost predicate Quiet(s: Machine) {
    forall q :: q in s.threads ==> !Unfinished(s.threads[q])
  }

  /**
    Whatever interleaving led there, once no operation is under way the grids around an
    online player hold exactly those that a scan over all players finds near it.
   */
  lemma QuietIndexIsBruteForce(l: Layout, states: seq<Machine>, n: nat, p: Pid)
    requires IsExecution(l, states) && n < |states| && Quiet(states[n])
    requires p in states[n].players
    ensures var s := states[n];
            && p in s.pos && s.players <= s.pos.Keys
            && forall q :: (exists c :: c in Around(l, s.pos[p]) && q in Members(s, c))
                      <==> q in s.players && Near(l, s.pos[p], s.pos[q])
  {
    var s := states[n];
    AlwaysInv(l, states, n);
    IndexIsRight(l, states, n, p);
    forall q
      ensures (exists c :: c in Around(l, s.pos[p]) && q in Members(s, c))
         <==> q in s.players && Near(l, s.pos[p], s.pos[q])
    {
      if q in s.players {
        IndexIsRight(l, states, n, q);
        var c := CellOf(l, s.pos[q]);
        assert IsValid(l, c) && q in Members(s, c);
        assert Near(l, s.pos[p], s.pos[q]) <==> c in Around(l, s.pos[p]);
      }
      if c :| c in Around(l, s.pos[p]) && q in Members(s, c) {
        assert s.grids[c] <= s.threads.Keys;
        IndexIsRight(l, states, n, q);
      }
    }
  }

  // ---- No deadlock ----

  predicate WaitsFor(t: Thread, i: Instr) {
    t.code != [] && t.code[0] == i
  }

  /** Enabled even where readers have to let a waiting writer go first */
  ghost predicate Willing(s: Machine, p: Pid, i: Instr) {
    && Enabled(s, p, i)
    && match i
       case AcquireWorld(Shared) => forall q :: q in s.threads ==> !WaitsFor(s.threads[q], AcquireWorld(Exclusive))
       case AcquirePlayer(w, Shared) =>
         forall q :: q in s.threads ==> !WaitsFor(s.threads[q], AcquirePlayer(w, Exclusive))
       case _ => true
  }

  ghost predicate CanStep(s: Machine, p: Pid) {
    && p in s.threads && Unfinished(s.threads[p])
    && (s.threads[p].code != [] ==> Willing(s, p, s.threads[p].code[0]))
  }

  /** Between stages a thread holds no grid or player lock. */
  lemma {:induction false} BetweenStagesIdle(l: Layout, p: Pid, next: seq<Stage>, v: Local)
    requires Safe(l, p, [], next, v)
    ensures Idle(v)
    decreases |next|
  {
    if next != [] && !IsScan(next[0]) && !next[0].PeekOthers? {
      var code := Unfold(l, p, next[0], v.loaded);
      if code == [] {
        BetweenStagesIdle(l, p, next[1..], v);
      } else {
        assert Ok(l, p, code[0], v);
      }
    }
  }

  /** A thread with a grid or player lock is not waiting for anything. */
  lemma HolderCanStep(l: Layout, s: Machine, p: Pid)
    requires Inv(l, s) && p in s.threads && !Idle(ViewOf(s, p))
    ensures CanStep(s, p)
  {
    assert ThreadOk(l, s, p);
    var t := s.threads[p];
    if t.code == [] {
      BetweenStagesIdle(l, p, t.next, ViewOf(s, p));
    } else {
      assert Ok(l, p, t.code[0], ViewOf(s, p));
    }
  }

  ghost predicate AllIdle(s: Machine) {
    forall q :: q in s.threads ==> s.threads[q].grid.None? && s.threads[q].player.None?
  }

  /** With all grid and player locks free, only the world lock can be waited for. */
  lemma InnerCanStep(l: Layout, s: Machine, p: Pid) returns (r: Pid)
    requires Inv(l, s) && AllIdle(s) && p in s.threads && Unfinished(s.threads[p])
    requires s.threads[p].code != [] ==> !s.threads[p].code[0].AcquireWorld?
    ensures CanStep(s, r)
  {
    r := p;
    var t := s.threads[p];
    if t.code != [] && t.code[0].AcquirePlayer? && t.code[0].mode == Shared && !Willing(s, p, t.code[0]) {
      r :| r in s.threads && WaitsFor(s.threads[r], AcquirePlayer(t.code[0].who, Exclusive));
    }
  }

  /** In every reachable state with an unfinished operation some thread can take its next step. */
  lemma NoDeadlock(l: Layout, states: seq<Machine>, n: nat, p: Pid) returns (r: Pid)
    requires IsExecution(l, states) && n < |states|
    requires p in states[n].threads && Unfinished(states[n].threads[p])
    ensures CanStep(states[n], r)
    ensures exists s' :: ThreadStep(l, states[n], s', r)
  {
    AlwaysInv(l, states, n);
    r := SomeoneCanStep(l, states[n], p);
    CanStepSteps(l, states[n], r);
  }

  lemma SomeoneCanStep(l: Layout, s: Machine, p: Pid) returns (r: Pid)
    requires Inv(l, s) && p in s.threads && Unfinished(s.threads[p])
    ensures CanStep(s, r)
  {
    if !AllIdle(s) {
      r :| r in s.threads && !(s.threads[r].grid.None? && s.threads[r].player.None?);
      HolderCanStep(l, s, r);
    } else if q :| q in s.threads && s.threads[q].world.Some? {
      assert ThreadOk(l, s, q);
      r := InnerCanStep(l, s, q);
    } else if s.threads[p].code == [] || !s.threads[p].code[0].AcquireWorld? {
      r := InnerCanStep(l, s, p);
    } else if q :| q in s.threads && WaitsFor(s.threads[q], AcquireWorld(Exclusive)) {
      r := q;
    } else {
      r := p;
    }
  }

  lemma CanStepSteps(l: Layout, s: Machine, p: Pid)
    requires Inv(l, s) && CanStep(s, p)
    ensures exists s' :: ThreadStep(l, s, s', p)
  {
    assert ThreadOk(l, s, p);
    var t := s.threads[p];
    if t.code != [] {
      assert ThreadStep(l, s, Execute(s, p, t.code[0]), p);
    } else {
      var u := Unfolding(l, p, t);
      assert ThreadStep(l, s, s.(threads := s.threads[p := u]), p);
    }
  }

  lemma EmptyOrNot(collected: multiset<Pid>)
    ensures collected == multiset{} || exists q :: q in collected
  {
    if forall q :: q !in collected {
      assert collected == multiset{};
    }
  }

  lemma MemberOf(collected: multiset<Pid>) returns (q: Pid)
    requires collected != multiset{}
    ensures q in collected
  {
    EmptyOrNot(collected);
    q :| q in collected;
  }

  lemma Unfolding(l: Layout, p: Pid, t: Thread) returns (u: Thread)
    requires t.code == [] && t.next != []
    ensures Unfolds(l, p, t, u)
  {
    var stage := t.next[0];
    if IsScan(stage) && CellsToScan(l, stage, t.loaded) != {} {
      var c :| c in CellsToScan(l, stage, t.loaded);
      u := ScanOne(t, c, CellsToScan(l, stage, t.loaded), WithLookups(stage));
    } else if stage.PeekOthers? && t.collected != multiset{} {
      var q := MemberOf(t.collected);
      u := PeekOne(t, q);
    } else if IsScan(stage) || stage.PeekOthers? {
      u := t.(next := t.next[1..]);
    } else {
      u := t.(code := Unfold(l, p, stage, t.loaded), next := t.next[1..]);
    }
  }
}
