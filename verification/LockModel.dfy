/**
  The world under any number of threads, at the grain of its locks: the world's
  reader/writer lock, one mutex per grid and one reader/writer lock per player.

  Thread `p` runs the callbacks of the connection of player `p`, one after the other. An
  operation is a list of stages; a stage unfolds into lock operations and the accesses
  between them, using the position the thread has last loaded. Sets of grids and of
  players are walked in any order; the vectors they are collected in are multisets.
  GetPosition returns a reference and has released the player's lock by the time the
  position is read. Sending takes no lock and is not shown here.
 */
module LockModel {
  import opened Containers
  import opened Geometry
  import opened Visibility
  import opened PlayerIds

  datatype Mode = Shared | Exclusive

  datatype Held = Held(who: Pid, mode: Mode)

  /** One atomic step of a thread */
  datatype Instr =
    | AcquireWorld(mode: Mode)             // also makes a new, empty result vector
    | ReleaseWorld
    | AcquireGrid(cell: Cell)
    | ReleaseGrid
    | AcquirePlayer(who: Pid, mode: Mode)
    | ReleasePlayer
    | MapInsert                            // players_[pid] = player
    | MapErase                             // players_.erase(pid)
    | FindSelf                             // players_.at(pid) for the thread's own player
    | FindCollected                        // players_.at(pid) for every id collected
    | CopyMap                              // the whole map into the result
    | Return                               // the result goes to the caller
    | GridInsert(cell: Cell)
    | GridErase(cell: Cell)
    | GridRead(cell: Cell)                 // the grid's ids into the collected ones
    | ReadPos                              // the own position, through a reference, kept
    | PeekPos(who: Pid)                    // some position, through a reference, for a packet only
    | WritePos(pos: Position)

  datatype Stage =
    | Lookup                               // GetPlayerByPid(pid, true)
    | LoadPos                              // GetPosition() of the own player, kept
    | PeekSelf                             // GetPosition() of the own player, for a packet
    | PeekOthers                           // GetPosition() of each collected player
    | EnterMap                             // AddPlayer: the exclusive section
    | EnterGrid                            // AddPlayer: AddPlayerToGrid
    | StorePos(to: Position)               // UpdatePos: pos_ = new_pos
    | Regrid(to: Position)                 // UpdatePos: RemovePlayer, AddNewPlayer
    | OpenCross(to: Position)              // GetAllPlayers(grids): the shared lock
    | ScanCross(to: Position, gone: bool)  // ... the grids around the old or the new position only
    | CloseCross(to: Position)
    | PeekNew(to: Position)                // HandleCrossedGrid: GetPosition() of the own player
    | OpenQuery                            // GetSurroundingPlayers: lock, own player, own position
    | ScanAround                           // ... the grids around it
    | CloseQuery                           // ... the lookups, unlock
    | CopyAll                              // GetAllPlayers()
    | OpenRemoval                          // RemovePlayerByPid: lock, own player, own position
    | CloseRemoval                         // ... its grid, the map, unlock
    | Scan(cells: set<Cell>, lookups: bool) // some grids still to be read

  datatype Thread = Thread(
    code: seq<Instr>, next: seq<Stage>,
    world: Option<Mode>, grid: Option<Cell>, player: Option<Held>,
    loaded: Position, collected: multiset<Pid>,
    results: seq<multiset<Pid>>)           // history: what the operation's reads have returned

  /** All that the threads share, and the threads */
  datatype Machine = Machine(
    threads: map<Pid, Thread>, players: set<Pid>, grids: map<Cell, set<Pid>>,
    pos: map<Pid, Position>, issued: nat)

  // ---- The operations ----

  function Crosses(l: Layout, from: Position, to: Position): bool {
    CellOf(l, from) != CellOf(l, to)
  }

  function Around(l: Layout, p: Position): set<Cell> {
    var c := CellOf(l, p);
    set row, col | c.row - 1 <= row <= c.row + 1 && c.col - 1 <= col <= c.col + 1 && IsValid(l, Cell(row, col))
      :: Cell(row, col)
  }

  /** The straight-line code of a stage; `at` is the position the thread has loaded. */
  function Unfold(l: Layout, p: Pid, stage: Stage, at: Position): seq<Instr> {
    match stage
    case Lookup => [AcquireWorld(Shared), FindSelf, ReleaseWorld]
    case LoadPos => [AcquirePlayer(p, Shared), ReleasePlayer, ReadPos]
    case PeekSelf => [AcquirePlayer(p, Shared), ReleasePlayer, PeekPos(p)]
    case EnterMap => [AcquireWorld(Exclusive), MapInsert, ReleaseWorld]
    case EnterGrid => [AcquireGrid(CellOf(l, at)), GridInsert(CellOf(l, at)), ReleaseGrid]
    case StorePos(to) => [AcquirePlayer(p, Exclusive), WritePos(to), ReleasePlayer]
    case Regrid(to) =>
      if Crosses(l, at, to) then
        [AcquireGrid(CellOf(l, at)), GridErase(CellOf(l, at)), ReleaseGrid]
        + [AcquireGrid(CellOf(l, to)), GridInsert(CellOf(l, to)), ReleaseGrid]
      else []
    case OpenCross(to) => if Crosses(l, at, to) then [AcquireWorld(Shared)] else []
    case CloseCross(to) => if Crosses(l, at, to) then [Return, ReleaseWorld] else []
    case PeekNew(to) => if Crosses(l, at, to) then [AcquirePlayer(p, Shared), ReleasePlayer, PeekPos(p)] else []
    case OpenQuery => [AcquireWorld(Shared), FindSelf] + [AcquirePlayer(p, Shared), ReleasePlayer, ReadPos]
    case CloseQuery => [FindCollected, Return, ReleaseWorld]
    case CopyAll => [AcquireWorld(Shared), CopyMap, Return] + [ReleaseWorld]
    case OpenRemoval => [AcquireWorld(Exclusive), FindSelf] + [AcquirePlayer(p, Shared), ReleasePlayer, ReadPos]
    case CloseRemoval =>
      [AcquireGrid(CellOf(l, at)), GridErase(CellOf(l, at)), ReleaseGrid] + [MapErase, ReleaseWorld]
    case _ => []
  }

  /** The grids a stage still has to read */
  function CellsToScan(l: Layout, stage: Stage, at: Position): set<Cell> {
    match stage
    case Scan(cells, _) => cells
    case ScanAround => Around(l, at)
    case ScanCross(to, gone) =>
      if !Crosses(l, at, to) then {}
      else if gone then Around(l, at) - Around(l, to)
      else Around(l, to) - Around(l, at)
    case _ => {}
  }

  predicate IsScan(stage: Stage) {
    stage.Scan? || stage.ScanAround? || stage.ScanCross?
  }

  predicate WithLookups(stage: Stage) {
    (stage.Scan? && stage.lookups) || stage.ScanCross?
  }

  function ScanCode(c: Cell, lookups: bool): seq<Instr> {
    [AcquireGrid(c), GridRead(c), ReleaseGrid] + if lookups then [FindCollected] else []
  }

  // GetSurroundingPlayers
  const QUERY: seq<Stage> := [OpenQuery, ScanAround, CloseQuery]

  // Player::SyncWithSurrounding
  const SYNC: seq<Stage> := QUERY + [PeekSelf, PeekOthers]

  // initPlayer
  const JOIN: seq<Stage> := [EnterMap, LoadPos, EnterGrid] + SYNC

  // Player::HandleCrossedGrid: the players gone out of sight, then those come into it
  function CrossStages(to: Position): seq<Stage> {
    [OpenCross(to), ScanCross(to, true), CloseCross(to)]
    + [OpenCross(to), ScanCross(to, false), CloseCross(to)]
    + [PeekNew(to), PeekOthers]
  }

  // MoveHandler::Handle, Player::UpdatePos
  function MoveStages(to: Position): seq<Stage> {
    [Lookup, LoadPos, StorePos(to), Regrid(to)] + CrossStages(to) + [PeekSelf] + QUERY
  }

  // destroyPlayer
  const QUIT: seq<Stage> := [Lookup] + QUERY + [OpenRemoval, CloseRemoval]

  // ChatHandler::Handle, Player::WorldChat
  const CHAT: seq<Stage> := [Lookup, CopyAll]

  // ---- The transition system ----

  /** What the program asserts (or a container guarantees) when the instruction runs */
  predicate Asserted(s: Machine, p: Pid, i: Instr)
    requires p in s.threads
  {
    match i
    case MapInsert => p !in s.players
    case MapErase => p in s.players
    case FindSelf => p in s.players
    case FindCollected => forall q :: q in s.threads[p].collected ==> q in s.players
    case AcquireGrid(c) => c in s.grids
    case GridInsert(c) => c in s.grids && p !in s.grids[c]
    case GridErase(c) => c in s.grids && p in s.grids[c]
    case GridRead(c) => c in s.grids
    case _ => true
  }

  /** Whether the instruction need not wait for a lock that another thread holds */
  ghost predicate Enabled(s: Machine, p: Pid, i: Instr) {
    match i
    case AcquireWorld(Exclusive) => forall q :: q in s.threads && q != p ==> s.threads[q].world.None?
    case AcquireWorld(Shared) => forall q :: q in s.threads && q != p ==> s.threads[q].world != Some(Exclusive)
    case AcquireGrid(c) => forall q :: q in s.threads && q != p ==> s.threads[q].grid != Some(c)
    case AcquirePlayer(w, Exclusive) =>
      forall q :: q in s.threads && q != p && s.threads[q].player.Some? ==> s.threads[q].player.value.who != w
    case AcquirePlayer(w, Shared) =>
      forall q :: q in s.threads && q != p ==> s.threads[q].player != Some(Held(w, Exclusive))
    case _ => true
  }

  function Members(s: Machine, c: Cell): set<Pid> {
    if c in s.grids then s.grids[c] else {}
  }

  /** The thread's own part of a step: what it holds and what it has read */
  function Proceed(s: Machine, p: Pid, t: Thread, i: Instr): Thread
    requires t.code != [] && p in s.pos
  {
    var u := t.(code := t.code[1..]);
    match i
    case AcquireWorld(mode) => u.(world := Some(mode), collected := multiset{})
    case ReleaseWorld => u.(world := None)
    case AcquireGrid(c) => u.(grid := Some(c))
    case ReleaseGrid => u.(grid := None)
    case AcquirePlayer(w, mode) => u.(player := Some(Held(w, mode)))
    case ReleasePlayer => u.(player := None)
    case CopyMap => u.(collected := multiset(s.players))
    case Return => u.(results := t.results + [t.collected])
    case GridRead(c) => u.(collected := t.collected + multiset(Members(s, c)))
    case ReadPos => u.(loaded := s.pos[p])
    case _ => u
  }

  /** The step's effect on what is shared */
  function Execute(s: Machine, p: Pid, i: Instr): Machine
    requires p in s.threads && s.threads[p].code != [] && p in s.pos
  {
    var r := s.(threads := s.threads[p := Proceed(s, p, s.threads[p], i)]);
    match i
    case MapInsert => r.(players := s.players + {p})
    case MapErase => r.(players := s.players - {p})
    case GridInsert(c) => r.(grids := s.grids[c := Members(s, c) + {p}])
    case GridErase(c) => r.(grids := s.grids[c := Members(s, c) - {p}])
    case WritePos(pos) => r.(pos := s.pos[p := pos])
    case _ => r
  }

  function ScanOne(t: Thread, c: Cell, cells: set<Cell>, lookups: bool): Thread
    requires t.next != []
  {
    t.(code := ScanCode(c, lookups), next := [Scan(cells - {c}, lookups)] + t.next[1..])
  }

  function PeekOne(t: Thread, q: Pid): Thread {
    t.(code := [AcquirePlayer(q, Shared), ReleasePlayer, PeekPos(q)], collected := t.collected - multiset{q})
  }

  /** Without code left, the thread unfolds its next stage, or one more element of a walk. */
  ghost predicate Unfolds(l: Layout, p: Pid, t: Thread, u: Thread)
    requires t.code == [] && t.next != []
  {
    var stage, rest := t.next[0], t.next[1..];
    if IsScan(stage) then
      var cells := CellsToScan(l, stage, t.loaded);
      if cells == {} then u == t.(next := rest)
      else exists c :: c in cells && u == ScanOne(t, c, cells, WithLookups(stage))
    else if stage.PeekOthers? then
      if t.collected == multiset{} then u == t.(next := rest)
      else exists q :: q in t.collected && u == PeekOne(t, q)
    else
      u == t.(code := Unfold(l, p, stage, t.loaded), next := rest)
  }

  function Beginning(t: Thread, stages: seq<Stage>): Thread {
    t.(next := stages, collected := multiset{}, results := [])
  }

  /** Between operations, the connection of an online player may start another one. */
  ghost predicate Begins(l: Layout, s: Machine, p: Pid, t: Thread, u: Thread) {
    && p in s.players
    && ((exists to :: OnMap(l, to) && u == Beginning(t, MoveStages(to)))
        || u == Beginning(t, QUIT)
        || u == Beginning(t, CHAT))
  }

  ghost predicate ThreadStep(l: Layout, s: Machine, s': Machine, p: Pid) {
    && p in s.threads && p in s.pos
    && var t := s.threads[p];
       if t.code != [] then
         Enabled(s, p, t.code[0]) && s' == Execute(s, p, t.code[0])
       else
         exists u :: s' == s.(threads := s.threads[p := u])
           && (if t.next != [] then Unfolds(l, p, t, u) else Begins(l, s, p, t, u))
  }

  function NewThread(pos: Position): Thread {
    Thread([], JOIN, None, None, None, pos, multiset{}, [])
  }

  /** The machine with a new thread for player `p` */
  function Opened(s: Machine, p: Pid, pos: Position): Machine {
    s.(threads := s.threads[p := NewThread(pos)], pos := s.pos[p := pos], issued := s.issued + 1)
  }

  /**
    A connection opens: fetch_add issues its player id, its own thread starts to join. The
    counter wraps around; an id must not be issued again while it is still in use.
   */
  ghost predicate Connects(l: Layout, s: Machine, s': Machine) {
    var p := PidAt(s.issued);
    p !in s.threads && exists pos :: OnMap(l, pos) && s' == Opened(s, p, pos)
  }

  predicate Unfinished(t: Thread) {
    t.code != [] || t.next != []
  }

  /** The thread may still use that player's object. */
  predicate RefersTo(t: Thread, p: Pid) {
    && Unfinished(t)
    && (p in t.collected
        || (t.player.Some? && t.player.value.who == p)
        || exists k :: 0 <= k < |t.code| && (t.code[k] == AcquirePlayer(p, Shared) || t.code[k] == PeekPos(p)))
  }

  /** The last reference to a player that has left goes, and its object with it. */
  ghost predicate Retires(s: Machine, s': Machine, p: Pid) {
    && p in s.threads && !Unfinished(s.threads[p]) && p !in s.players
    && (forall q :: q in s.threads && q != p ==> !RefersTo(s.threads[q], p))
    && s' == s.(threads := s.threads - {p}, pos := s.pos - {p})
  }

  ghost predicate Next(l: Layout, s: Machine, s': Machine) {
    Connects(l, s, s') || (exists p :: ThreadStep(l, s, s', p)) || (exists p :: Retires(s, s', p))
  }

  function AllCells(l: Layout): set<Cell> {
    set row, col | 0 <= row < l.countY && 0 <= col < l.countX :: Cell(row, col)
  }

  function Start(l: Layout): Machine {
    Machine(map[], {}, map c | c in AllCells(l) :: {}, map[], 0)
  }

  ghost predicate NextAt(l: Layout, states: seq<Machine>, i: int)
    requires 0 <= i < |states| - 1
  {
    Next(l, states[i], states[i + 1])
  }

  ghost predicate IsExecution(l: Layout, states: seq<Machine>) {
    && |states| > 0 && states[0] == Start(l)
    && forall i :: 0 <= i < |states| - 1 ==> NextAt(l, states, i)
  }
}
