/**
  Which data two threads can be about to touch at once: neither the map nor a grid ever, and
  a position in exactly one way, because GetPosition hands out a reference that is read
  after the player's lock has been released.
 */
module LockRaces {
  import opened Containers
  import opened Geometry
  import opened Visibility
  import opened PlayerIds
  import opened LockModel
  import opened LockSafety
  import opened LockProgress

  datatype Place = TheMap | TheGrid(cell: Cell) | ThePosition(of: Pid)

  /** The shared data that thread `p` touches with this instruction */
  function Touched(p: Pid, i: Instr): Option<Place> {
    match i
    case MapInsert | MapErase | FindSelf | FindCollected | CopyMap => Some(TheMap)
    case GridInsert(c) => Some(TheGrid(c))
    case GridErase(c) => Some(TheGrid(c))
    case GridRead(c) => Some(TheGrid(c))
    case ReadPos => Some(ThePosition(p))
    case WritePos(_) => Some(ThePosition(p))
    case PeekPos(q) => Some(ThePosition(q))
    case _ => None
  }

  predicate Writes(i: Instr) {
    i.MapInsert? || i.MapErase? || i.GridInsert? || i.GridErase? || i.WritePos?
  }

  predicate Conflict(p: Pid, i: Instr, q: Pid, j: Instr) {
    Touched(p, i).Some? && Touched(p, i) == Touched(q, j) && (Writes(i) || Writes(j))
  }

  /** Both threads are about to make an access. */
  predicate Facing(s: Machine, p: Pid, q: Pid) {
    && p in s.threads && q in s.threads && p != q
    && s.threads[p].code != [] && s.threads[q].code != []
  }

  /** No two threads are ever about to make conflicting accesses to the map or to a grid. */
  lemma NoRace(l: Layout, states: seq<Machine>, n: nat, p: Pid, q: Pid)
    requires IsExecution(l, states) && n < |states| && Facing(states[n], p, q)
    ensures var i, j := states[n].threads[p].code[0], states[n].threads[q].code[0];
            Conflict(p, i, q, j) ==> Touched(p, i).value.ThePosition?
  {
    AlwaysInv(l, states, n);
    assert ThreadOk(l, states[n], p) && ThreadOk(l, states[n], q);
    assert PairOk(states[n], p, q) && PairOk(states[n], q, p);
  }

  // ---- Positions ----

  /** Thread `q` is about to read player `p`'s position for a packet. */
  predicate PeeksAt(s: Machine, q: Pid, p: Pid)
    requires q in s.threads && s.threads[q].code != []
  {
    s.threads[q].code[0] == PeekPos(p)
  }

  predicate Stores(s: Machine, p: Pid)
    requires p in s.threads && s.threads[p].code != []
  {
    s.threads[p].code[0].WritePos?
  }

  /** The position of another player is only read in a walk over the players found around. */
  predicate PeeksInWalk(p: Pid, t: Thread) {
    forall k :: 0 <= k < |t.code| && t.code[k].PeekPos? && t.code[k].who != p ==> t.next != [] && t.next[0].PeekOthers?
  }

  ghost predicate AllPeekInWalk(s: Machine) {
    forall p :: p in s.threads ==> PeeksInWalk(p, s.threads[p])
  }

  lemma UnfoldPeeks(l: Layout, p: Pid, t: Thread, u: Thread)
    requires t.code == [] && t.next != [] && Unfolds(l, p, t, u)
    ensures PeeksInWalk(p, u)
  {
    var stage := t.next[0];
    if IsScan(stage) {
      var cells := CellsToScan(l, stage, t.loaded);
      if c :| c in cells && u == ScanOne(t, c, cells, WithLookups(stage)) {
      }
    } else if stage.PeekOthers? {
      if q :| q in t.collected && u == PeekOne(t, q) {
      }
    } else {
      UnfoldOwn(l, p, stage, t.loaded);
    }
  }

  lemma UnfoldOwn(l: Layout, p: Pid, stage: Stage, at: Position)
    ensures forall k :: 0 <= k < |Unfold(l, p, stage, at)| && Unfold(l, p, stage, at)[k].PeekPos?
              ==> Unfold(l, p, stage, at)[k].who == p
  {
  }

  lemma NextPeeks(l: Layout, s: Machine, s': Machine)
    requires AllPeekInWalk(s) && Next(l, s, s')
    ensures AllPeekInWalk(s')
  {
    if p :| ThreadStep(l, s, s', p) {
      assert PeeksInWalk(p, s.threads[p]);
      var t := s.threads[p];
      if t.code != [] {
        ExecuteThreads(s, p);
      } else if t.next != [] {
        var u :| s' == s.(threads := s.threads[p := u]) && Unfolds(l, p, t, u);
        UnfoldPeeks(l, p, t, u);
      }
    }
  }

  lemma {:induction false} AlwaysPeeksInWalk(l: Layout, states: seq<Machine>, n: nat)
    requires IsExecution(l, states) && n < |states|
    ensures AllPeekInWalk(states[n])
  {
    if n > 0 {
      AlwaysPeeksInWalk(l, states, n - 1);
      assert NextAt(l, states, n - 1);
      NextPeeks(l, states[n - 1], states[n]);
    }
  }

  /**
    Two threads are about to conflict on a position if and only if one is storing its own
    player's and the other is reading that one for a packet. A thread's reads of its own
    player's position, which decide where the index holds it, never conflict.
   */
  lemma PositionRaceIff(l: Layout, states: seq<Machine>, n: nat, p: Pid, q: Pid)
    requires IsExecution(l, states) && n < |states| && Facing(states[n], p, q)
    ensures var s := states[n];
            Conflict(p, s.threads[p].code[0], q, s.threads[q].code[0])
            <==> (Stores(s, p) && PeeksAt(s, q, p)) || (Stores(s, q) && PeeksAt(s, p, q))
  {
    NoRace(l, states, n, p, q);
  }

  /**
    When it happens, the one who stores holds the player's lock and the reader holds no lock of
    a player: it is walking over the players it found around.
   */
  lemma PositionRaceLocks(l: Layout, states: seq<Machine>, n: nat, p: Pid, q: Pid)
    requires IsExecution(l, states) && n < |states| && Facing(states[n], p, q)
    requires Stores(states[n], p) && PeeksAt(states[n], q, p)
    ensures var s := states[n];
            && s.threads[p].player == Some(Held(p, Exclusive)) && s.threads[q].player.None?
            && s.threads[q].next != [] && s.threads[q].next[0].PeekOthers?
  {
    AlwaysInv(l, states, n);
    AlwaysPeeksInWalk(l, states, n);
    var s := states[n];
    assert ThreadOk(l, s, p) && ThreadOk(l, s, q);
    assert Ok(l, p, s.threads[p].code[0], ViewOf(s, p)) && Ok(l, q, s.threads[q].code[0], ViewOf(s, q));
    assert PeeksInWalk(q, s.threads[q]) && s.threads[q].code[0] == PeekPos(p);
  }

  // ---- It does happen ----

  /** Runs one stage that is not a walk. */
  lemma RunStage(l: Layout, s: Machine, p: Pid) returns (s': Machine)
    requires Reachable(l, s) && p in s.threads && OthersFree(s, p)
    requires var t := s.threads[p]; t.code == [] && t.next != [] && !IsScan(t.next[0]) && !t.next[0].PeekOthers?
    ensures Reachable(l, s') && OnlyTouches(s, s', p) && OthersFree(s', p)
    ensures Effect(s, s', p, Unfold(l, p, s.threads[p].next[0], s.threads[p].loaded))
    ensures s'.threads[p].code == [] && s'.threads[p].next == s.threads[p].next[1..]
  {
    var t := s.threads[p];
    ReachableInv(l, s);
    assert ThreadOk(l, s, p);
    var u := t.(code := Unfold(l, p, t.next[0], t.loaded), next := t.next[1..]);
    var m;
    m, s' := RunUnfolded(l, s, p, u);
  }

  /** The first player, alone in the world and at rest */
  ghost predicate OneAtRest(s: Machine, p: Pid) {
    s.threads.Keys == {p} && p in s.players && !Unfinished(s.threads[p])
  }

  lemma FirstJoins(l: Layout, a: Position) returns (s: Machine)
    requires OnMap(l, a)
    ensures Reachable(l, s) && OneAtRest(s, 1) && s.issued == 1
  {
    var start, joining := Start(l), Opened(Start(l), 1, a);
    StartReachable(l);
    assert PidAt(0) == 1;
    assert Connects(l, start, joining);
    ReachNext(l, start, joining);
    assert joining.threads.Keys == {1} && JOIN[0] == EnterMap;
    EntersMap(l, 1, a);
    var entered := RunStage(l, joining, 1);
    s := RunTo(l, entered, 1, 0);
    TouchesThen(joining, entered, s, 1);
  }

  lemma EntersMap(l: Layout, p: Pid, at: Position)
    ensures var code := Unfold(l, p, EnterMap, at); MapInsert in code && KeepsOnline(code) && KeepsPosition(code)
    ensures Stays(JOIN[1..])
  {
    assert Unfold(l, p, EnterMap, at)[1] == MapInsert;
  }

  /** Neither a walk nor a store of the position */
  predicate Plain(stage: Stage) {
    !IsScan(stage) && !stage.PeekOthers? && !stage.StorePos?
  }

  predicate AllPlain(next: seq<Stage>, n: nat) {
    n <= |next| && forall k :: 0 <= k < n ==> Plain(next[k])
  }

  lemma PlainTail(next: seq<Stage>, n: nat)
    requires n > 0 && AllPlain(next, n)
    ensures Plain(next[0]) && AllPlain(next[1..], n - 1) && next[n..] == next[1..][n - 1..]
  {
  }

  lemma UnfoldKeepsPosition(l: Layout, p: Pid, stage: Stage, at: Position)
    requires Plain(stage)
    ensures KeepsPosition(Unfold(l, p, stage, at))
  {
  }

  /** Runs `n` such stages; the position loaded stays the player's own. */
  lemma {:induction false} RunPlain(l: Layout, s: Machine, p: Pid, n: nat) returns (s': Machine)
    requires Reachable(l, s) && p in s.threads && p in s.pos && OthersFree(s, p)
    requires s.threads[p].code == [] && AllPlain(s.threads[p].next, n) && s.threads[p].loaded == s.pos[p]
    ensures Reachable(l, s') && OnlyTouches(s, s', p) && OthersFree(s', p)
    ensures s'.threads[p].code == [] && s'.threads[p].next == s.threads[p].next[n..]
    ensures s'.threads[p].loaded == s'.pos[p] == s.pos[p]
    decreases n
  {
    if n == 0 {
      s' := s;
    } else {
      PlainTail(s.threads[p].next, n);
      UnfoldKeepsPosition(l, p, s.threads[p].next[0], s.threads[p].loaded);
      var m := RunStage(l, s, p);
      s' := RunPlain(l, m, p, n - 1);
      TouchesThen(s, m, s', p);
    }
  }

  const REST_OF_JOIN: seq<Stage> := [ScanAround, CloseQuery, PeekSelf, PeekOthers]

  lemma JoinStages()
    ensures AllPlain(JOIN, 4) && JOIN[4..] == REST_OF_JOIN
  {
    assert JOIN == [EnterMap, LoadPos, EnterGrid, OpenQuery] + REST_OF_JOIN;
  }

  lemma SecondConnects(l: Layout, s: Machine) returns (s': Machine)
    requires Reachable(l, s) && OneAtRest(s, 1) && s.issued == 1
    ensures Reachable(l, s') && 1 in s.pos && s' == Opened(s, 2, s.pos[1]) && OthersFree(s', 2)
  {
    ReachableInv(l, s);
    assert ThreadOk(l, s, 1);
    assert PidAt(0) == 1 && PidAt(1) == 2;
    s' := Opened(s, 2, s.pos[1]);
    assert Connects(l, s, s');
    ReachNext(l, s, s');
  }

  /** Player 1 is at rest while player 2 is in an operation. */
  ghost predicate TwoPlayers(s: Machine) {
    && s.threads.Keys == {1, 2} == s.pos.Keys && 1 in s.players && !Unfinished(s.threads[1])
  }

  lemma TwoPlayersStay(s: Machine, s': Machine)
    requires TwoPlayers(s) && OnlyTouches(s, s', 2)
    ensures TwoPlayers(s') && s'.pos[1] == s.pos[1]
  {
  }

  /** The second player joins at the first one's position, up to its scan of the grids around. */
  lemma SecondOpensQuery(l: Layout, s: Machine) returns (s': Machine)
    requires Reachable(l, s) && OneAtRest(s, 1) && s.issued == 1
    ensures Reachable(l, s') && TwoPlayers(s') && OthersFree(s', 2)
    ensures s'.threads[2].code == [] && s'.threads[2].next == REST_OF_JOIN
    ensures s'.threads[2].loaded == s'.pos[1]
  {
    ReachableInv(l, s);
    var joining := SecondConnects(l, s);
    assert joining.threads.Keys == {1, 2} && joining.pos.Keys == {1, 2};
    JoinStages();
    s' := RunPlain(l, joining, 2, 4);
    TwoPlayersStay(joining, s');
  }

  lemma ScanCodeReads(s: Machine, c: Cell, lookups: bool, q: Pid)
    ensures NoNewResult(ScanCode(c, lookups))
    ensures q in Members(s, c) ==> ReadsGridOf(s, ScanCode(c, lookups), q)
  {
    assert ScanCode(c, lookups)[1] == GridRead(c);
  }

  /** One grid of a scan */
  lemma RunScanOne(l: Layout, s: Machine, p: Pid, c: Cell, q: Pid) returns (s': Machine)
    requires Reachable(l, s) && p in s.threads && OthersFree(s, p) && s.threads[p].code == []
    requires s.threads[p].next != [] && IsScan(s.threads[p].next[0]) && q != p
    requires c in CellsToScan(l, s.threads[p].next[0], s.threads[p].loaded)
    ensures Reachable(l, s') && OnlyTouches(s, s', p) && OthersFree(s', p) && s'.threads[p].code == []
    ensures var t := s.threads[p];
            s'.threads[p].next
            == [Scan(CellsToScan(l, t.next[0], t.loaded) - {c}, WithLookups(t.next[0]))] + t.next[1..]
    ensures q in s.threads[p].collected || q in Members(s, c) ==> q in s'.threads[p].collected
  {
    var t := s.threads[p];
    var u := ScanOne(t, c, CellsToScan(l, t.next[0], t.loaded), WithLookups(t.next[0]));
    var m;
    m, s' := RunUnfolded(l, s, p, u);
    ScanCodeReads(m, c, WithLookups(t.next[0]), q);
    assert Collects(m, s', p, u.code, q);
  }

  /** A scan finds a player that stands in one of its grids. */
  lemma {:induction false} RunScan(l: Layout, s: Machine, p: Pid, q: Pid, at: Cell) returns (s': Machine)
    requires Reachable(l, s) && p in s.threads && OthersFree(s, p) && s.threads[p].code == []
    requires s.threads[p].next != [] && IsScan(s.threads[p].next[0])
    requires q != p && q in Members(s, at)
    requires q in s.threads[p].collected || at in CellsToScan(l, s.threads[p].next[0], s.threads[p].loaded)
    ensures Reachable(l, s') && OnlyTouches(s, s', p) && OthersFree(s', p)
    ensures s'.threads[p].code == [] && s'.threads[p].next == s.threads[p].next[1..]
    ensures q in s'.threads[p].collected
    decreases |CellsToScan(l, s.threads[p].next[0], s.threads[p].loaded)|
  {
    var t := s.threads[p];
    var cells := CellsToScan(l, t.next[0], t.loaded);
    if cells == {} {
      s' := UnfoldAlone(l, s, p, t.(next := t.next[1..]));
    } else {
      var c := ElementOf(cells);
      assert |cells - {c}| == |cells| - 1;
      var r := RunScanOne(l, s, p, c, q);
      s' := RunScan(l, r, p, q, at);
      TouchesThen(s, r, s', p);
    }
  }

  lemma FirstIsInItsGrid(l: Layout, s: Machine)
    requires Reachable(l, s) && TwoPlayers(s)
    ensures OnMap(l, s.pos[1]) && 1 in Members(s, CellOf(l, s.pos[1])) && HoldsNothing(s.threads[1])
  {
    ReachableInv(l, s);
    assert ThreadOk(l, s, 1);
    assert CellOf(l, s.pos[1]) in ViewOf(s, 1).at;
  }

  lemma KeepsWhatItFound(l: Layout, p: Pid, at: Position)
    ensures KeepsResult(Unfold(l, p, CloseQuery, at)) && KeepsResult(Unfold(l, p, PeekSelf, at))
  {
  }

  /** ... up to its walk over the players around, one of whom is the first */
  lemma SecondFindsFirst(l: Layout, s: Machine) returns (s': Machine)
    requires Reachable(l, s) && TwoPlayers(s) && OthersFree(s, 2) && s.threads[2].code == []
    requires s.threads[2].next == REST_OF_JOIN && s.threads[2].loaded == s.pos[1]
    ensures Reachable(l, s') && TwoPlayers(s') && OthersFree(s', 2) && s'.threads[2].code == []
    ensures s'.threads[2].next == [PeekOthers] && 1 in s'.threads[2].collected
  {
    FirstIsInItsGrid(l, s);
    var scanned := RunScan(l, s, 2, 1, CellOf(l, s.pos[1]));
    TwoPlayersStay(s, scanned);
    var closed := RunKeeping(l, scanned, 2);
    TwoPlayersStay(scanned, closed);
    s' := RunKeeping(l, closed, 2);
    TwoPlayersStay(closed, s');
  }

  lemma RunKeeping(l: Layout, s: Machine, p: Pid) returns (s': Machine)
    requires Reachable(l, s) && p in s.threads && OthersFree(s, p) && s.threads[p].code == []
    requires s.threads[p].next != [] && (s.threads[p].next[0].CloseQuery? || s.threads[p].next[0].PeekSelf?)
    ensures Reachable(l, s') && OnlyTouches(s, s', p) && OthersFree(s', p) && s'.threads[p].code == []
    ensures s'.threads[p].next == s.threads[p].next[1..] && s'.threads[p].collected == s.threads[p].collected
  {
    KeepsWhatItFound(l, p, s.threads[p].loaded);
    s' := RunStage(l, s, p);
  }

  /** ... up to the read of the first one's position, after the lock has been released */
  lemma SecondPeeks(l: Layout, s: Machine) returns (s': Machine)
    requires Reachable(l, s) && TwoPlayers(s) && OthersFree(s, 2) && s.threads[2].code == []
    requires s.threads[2].next == [PeekOthers] && 1 in s.threads[2].collected
    ensures Reachable(l, s') && TwoPlayers(s') && s'.threads[2].code == [PeekPos(1)] && OthersFree(s', 1)
  {
    ReachableInv(l, s);
    assert ThreadOk(l, s, 2);
    WalkerIsFree(l, 2, ViewOf(s, 2));
    var m := UnfoldAlone(l, s, 2, PeekOne(s.threads[2], 1));
    s' := PeekReaches(l, m, 2, 1);
    TouchesThen(s, m, s', 2);
    TwoPlayersStay(s, s');
  }

  /** Takes and releases the player's lock. */
  lemma PeekReaches(l: Layout, s: Machine, p: Pid, q: Pid) returns (s': Machine)
    requires Reachable(l, s) && p in s.threads && OthersFree(s, p) && s.threads[p].world.None? && s.threads[p].grid.None?
    requires s.threads[p].code == [AcquirePlayer(q, Shared), ReleasePlayer, PeekPos(q)]
    ensures Reachable(l, s') && OnlyTouches(s, s', p)
    ensures s'.threads[p].code == [PeekPos(q)] && HoldsNothing(s'.threads[p])
  {
    var locked := StepAlone(l, s, p);
    ExecuteThreads(s, p);
    OthersStayFree(s, locked, p);
    assert locked.threads[p].code == [ReleasePlayer, PeekPos(q)];
    s' := StepAlone(l, locked, p);
    ExecuteThreads(locked, p);
    TouchesThen(s, locked, s', p);
  }

  lemma WalkerIsFree(l: Layout, p: Pid, v: Local)
    requires Safe(l, p, [], [PeekOthers], v)
    ensures Resting(l, v)
  {
    assert [PeekOthers][1..] == [];
    assert Safe(l, p, [], [], v);
  }

  lemma BeginsMove(l: Layout, s: Machine, p: Pid, to: Position) returns (s': Machine)
    requires Reachable(l, s) && OnMap(l, to) && p in s.threads && p in s.pos && p in s.players
    requires OthersFree(s, p) && !Unfinished(s.threads[p])
    ensures Reachable(l, s') && OnlyTouches(s, s', p) && OthersFree(s', p)
    ensures s'.threads[p].code == [] && s'.threads[p].next == MoveStages(to)
  {
    var t := s.threads[p];
    var u := Beginning(t, MoveStages(to));
    s' := s.(threads := s.threads[p := u]);
    assert Begins(l, s, p, t, u);
    assert ThreadStep(l, s, s', p);
    ReachNext(l, s, s');
  }

  lemma MoveHead(to: Position)
    ensures |MoveStages(to)| > 2 && MoveStages(to)[0] == Lookup && MoveStages(to)[1] == LoadPos
    ensures MoveStages(to)[1..][1..] != [] && MoveStages(to)[1..][1..][0] == StorePos(to)
  {
    MoveStagesAre(to);
  }

  /** The first player starts to move, up to the store of its position. */
  lemma FirstStores(l: Layout, s: Machine, to: Position) returns (s': Machine)
    requires Reachable(l, s) && OnMap(l, to) && 1 in s.threads && 1 in s.pos && 1 in s.players
    requires OthersFree(s, 1) && !Unfinished(s.threads[1])
    ensures Reachable(l, s') && OnlyTouches(s, s', 1)
    ensures s'.threads[1].code == [WritePos(to), ReleasePlayer]
  {
    MoveHead(to);
    var moving := BeginsMove(l, s, 1, to);
    var found := RunStage(l, moving, 1);
    var loaded := RunStage(l, found, 1);
    s' := StoresNext(l, loaded, 1, to);
    TouchesThen(s, moving, found, 1);
    TouchesThen(s, found, loaded, 1);
    TouchesThen(s, loaded, s', 1);
  }

  lemma StoresNext(l: Layout, s: Machine, p: Pid, to: Position) returns (s': Machine)
    requires Reachable(l, s) && p in s.threads && OthersFree(s, p) && s.threads[p].code == []
    requires s.threads[p].next != [] && s.threads[p].next[0] == StorePos(to)
    ensures Reachable(l, s') && OnlyTouches(s, s', p)
    ensures s'.threads[p].code == [WritePos(to), ReleasePlayer]
  {
    var t := s.threads[p];
    var u := t.(code := Unfold(l, p, StorePos(to), t.loaded), next := t.next[1..]);
    var m := UnfoldAlone(l, s, p, u);
    s' := StepAlone(l, m, p);
    TouchesThen(s, m, s', p);
    ExecuteThreads(m, p);
  }

  /**
    On every map, wherever the players stand: while one player joins beside another, its read of
    the other's position and the other's store of a new one can be next at the same time.
   */
  lemma RaceExample(l: Layout, a: Position, to: Position) returns (s: Machine)
    requires OnMap(l, a) && OnMap(l, to)
    ensures Reachable(l, s) && Facing(s, 1, 2) && Stores(s, 1) && PeeksAt(s, 2, 1)
  {
    var joined := FirstJoins(l, a);
    var opening := SecondOpensQuery(l, joined);
    var walking := SecondFindsFirst(l, opening);
    var peeking := SecondPeeks(l, walking);
    s := FirstStores(l, peeking, to);
  }
}