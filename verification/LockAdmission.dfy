/**
  When a thread has to wait, stated by the locks and the modes in which they are held, and
  that readers of the world do run side by side.
 */
module LockAdmission {
  import opened Containers
  import opened Geometry
  import opened Visibility
  import opened PlayerIds
  import opened LockModel
  import opened LockSafety
  import opened LockProgress
  import opened LockRaces

  datatype Lock = TheWorld | GridMutex(cell: Cell) | PlayerLock(of: Pid)

  /** The mode in which a thread holds a lock; a mutex is always held exclusively. */
  function HeldMode(t: Thread, k: Lock): Option<Mode> {
    match k
    case TheWorld => t.world
    case GridMutex(c) => if t.grid == Some(c) then Some(Exclusive) else None
    case PlayerLock(q) => if t.player.Some? && t.player.value.who == q then Some(t.player.value.mode) else None
  }

  /** The lock an instruction acquires, and how */
  function Wants(i: Instr): Option<(Lock, Mode)> {
    match i
    case AcquireWorld(mode) => Some((TheWorld, mode))
    case AcquireGrid(c) => Some((GridMutex(c), Exclusive))
    case AcquirePlayer(q, mode) => Some((PlayerLock(q), mode))
    case _ => None
  }

  predicate Conflicting(m: Mode, n: Mode) {
    m == Exclusive || n == Exclusive
  }

  /** Another thread holds the lock in a mode that conflicts with this one. */
  ghost predicate HeldAgainst(s: Machine, p: Pid, k: Lock, m: Mode) {
    exists q :: q in s.threads && q != p && HeldMode(s.threads[q], k).Some?
                && Conflicting(m, HeldMode(s.threads[q], k).value)
  }

  ghost predicate CanGoOn(l: Layout, s: Machine, p: Pid) {
    exists s' :: ThreadStep(l, s, s', p)
  }

  lemma EnabledIff(s: Machine, p: Pid, k: Lock, m: Mode, i: Instr)
    requires Wants(i) == Some((k, m))
    ensures Enabled(s, p, i) <==> !HeldAgainst(s, p, k, m)
  {
  }

  /**
    A thread that is about to acquire a lock can go on if and only if no other thread holds
    that lock in a conflicting mode: shared and shared do not conflict, everything else does.
   */
  lemma AdmissionIff(l: Layout, states: seq<Machine>, n: nat, p: Pid, k: Lock, m: Mode)
    requires IsExecution(l, states) && n < |states| && p in states[n].threads
    requires states[n].threads[p].code != [] && Wants(states[n].threads[p].code[0]) == Some((k, m))
    ensures CanGoOn(l, states[n], p) <==> !HeldAgainst(states[n], p, k, m)
  {
    var s := states[n];
    var i := s.threads[p].code[0];
    AlwaysInv(l, states, n);
    assert ThreadOk(l, s, p);
    EnabledIff(s, p, k, m, i);
    if Enabled(s, p, i) {
      assert ThreadStep(l, s, Execute(s, p, i), p);
    }
  }

  /** Everything else never waits. */
  lemma OnlyLocksWait(l: Layout, states: seq<Machine>, n: nat, p: Pid)
    requires IsExecution(l, states) && n < |states| && p in states[n].threads && Unfinished(states[n].threads[p])
    requires states[n].threads[p].code == [] || Wants(states[n].threads[p].code[0]).None?
    ensures CanGoOn(l, states[n], p)
  {
    var s := states[n];
    AlwaysInv(l, states, n);
    CanStepSteps(l, s, p);
  }

  /** No two threads ever hold the same lock in conflicting modes. */
  lemma Exclusion(l: Layout, states: seq<Machine>, n: nat, p: Pid, q: Pid, k: Lock)
    requires IsExecution(l, states) && n < |states|
    requires p in states[n].threads && q in states[n].threads && p != q
    requires HeldMode(states[n].threads[p], k).Some? && HeldMode(states[n].threads[q], k).Some?
    ensures !Conflicting(HeldMode(states[n].threads[p], k).value, HeldMode(states[n].threads[q], k).value)
  {
    AlwaysInv(l, states, n);
    assert PairOk(states[n], p, q) && PairOk(states[n], q, p);
  }

  /** The lock an instruction gives back */
  predicate GivesBack(i: Instr, k: Lock) {
    match k
    case TheWorld => i.ReleaseWorld?
    case GridMutex(_) => i.ReleaseGrid?
    case PlayerLock(_) => i.ReleasePlayer?
  }

  /** A step acquires what it wants, gives back what it releases, and otherwise leaves all locks held as they are. */
  lemma StepHolds(l: Layout, states: seq<Machine>, n: nat, s': Machine, p: Pid, k: Lock)
    requires IsExecution(l, states) && n < |states| && ThreadStep(l, states[n], s', p)
    requires states[n].threads[p].code != []
    ensures p in s'.threads
    ensures var t, u := states[n].threads[p], s'.threads[p];
            var i := t.code[0];
            HeldMode(u, k) == if Wants(i).Some? && Wants(i).value.0 == k then Some(Wants(i).value.1)
                              else if GivesBack(i, k) then None
                              else HeldMode(t, k)
  {
    var s := states[n];
    var t := s.threads[p];
    AlwaysInv(l, states, n);
    assert ThreadOk(l, s, p);
    assert Ok(l, p, t.code[0], ViewOf(s, p));
    ExecuteThreads(s, p);
    assert s' == Execute(s, p, t.code[0]);
    HoldsAfter(l, s, p, t, k);
  }

  lemma HoldsAfter(l: Layout, s: Machine, p: Pid, t: Thread, k: Lock)
    requires p in s.threads && p in s.pos && t == s.threads[p] && t.code != [] && Ok(l, p, t.code[0], ViewOf(s, p))
    ensures var i, u := t.code[0], Proceed(s, p, t, t.code[0]);
            HeldMode(u, k) == if Wants(i).Some? && Wants(i).value.0 == k then Some(Wants(i).value.1)
                              else if GivesBack(i, k) then None
                              else HeldMode(t, k)
  {
  }

  /** Only entering and leaving the map excludes everybody else from the world, only a store others from a position. */
  lemma ExclusiveOnly(l: Layout, p: Pid, stage: Stage, at: Position, q: Pid)
    ensures AcquireWorld(Exclusive) in Unfold(l, p, stage, at) <==> stage.EnterMap? || stage.OpenRemoval?
    ensures AcquirePlayer(q, Exclusive) in Unfold(l, p, stage, at) <==> stage.StorePos? && q == p
  {
    var code := Unfold(l, p, stage, at);
    if stage.EnterMap? || stage.OpenRemoval? {
      assert code[0] == AcquireWorld(Exclusive);
    } else if stage.StorePos? {
      assert code[0] == AcquirePlayer(p, Exclusive);
    }
  }

  // ---- What may happen next ----

  /** Whoever is online and between operations may start any of them, at any time. */
  lemma MayBegin(l: Layout, states: seq<Machine>, n: nat, p: Pid, stages: seq<Stage>)
    requires IsExecution(l, states) && n < |states| && p in states[n].players
    requires p in states[n].threads && !Unfinished(states[n].threads[p])
    requires stages == QUIT || stages == CHAT || exists to :: OnMap(l, to) && stages == MoveStages(to)
    ensures exists s' :: ThreadStep(l, states[n], s', p) && p in s'.threads && s'.threads[p].next == stages
  {
    var s := states[n];
    AlwaysInv(l, states, n);
    assert ThreadOk(l, s, p);
    var u := Beginning(s.threads[p], stages);
    assert Begins(l, s, p, s.threads[p], u);
    assert ThreadStep(l, s, s.(threads := s.threads[p := u]), p);
  }

  /** Player `p` has come to join at this position. */
  predicate Joins(s: Machine, s': Machine, p: Pid, pos: Position) {
    && p in s'.threads && s'.threads[p].code == [] && s'.threads[p].next == JOIN
    && s'.pos == s.pos[p := pos] && s'.issued == s.issued + 1
  }

  /** For the first 2^32 clients a connection may open at any time, anywhere on the map. */
  lemma MayConnect(l: Layout, states: seq<Machine>, n: nat, pos: Position)
    requires IsExecution(l, states) && n < |states| && OnMap(l, pos) && states[n].issued < 0x1_0000_0000
    ensures PidAt(states[n].issued) !in states[n].threads
    ensures exists s' :: Next(l, states[n], s') && Joins(states[n], s', PidAt(states[n].issued), pos)
  {
    var s := states[n];
    IdIsFree(l, states, n);
    assert Connects(l, s, Opened(s, PidAt(s.issued), pos));
    assert Next(l, s, Opened(s, PidAt(s.issued), pos));
  }

  // ---- Two readers ----

  /** Both threads hold the world lock shared, each is about to read a grid, and not the same one. */
  ghost predicate TwoReaders(s: Machine, p: Pid, q: Pid) {
    && Facing(s, p, q)
    && HeldMode(s.threads[p], TheWorld) == Some(Shared) == HeldMode(s.threads[q], TheWorld)
    && s.threads[p].code[0].GridRead? && s.threads[q].code[0].GridRead?
    && s.threads[p].code[0].cell != s.threads[q].code[0].cell
  }

  /** Thread `p` has the world lock for a query and is about to scan the grids around `a`. */
  ghost predicate AtScan(s: Machine, p: Pid, a: Position) {
    && p in s.threads && p in s.pos
    && s.threads[p].code == [] && s.threads[p].next == REST_OF_JOIN && s.threads[p].loaded == a
  }

  lemma ScannerHolds(l: Layout, s: Machine, p: Pid, a: Position)
    requires Inv(l, s) && AtScan(s, p, a) && OnMap(l, a)
    ensures s.threads[p].world == Some(Shared) && s.threads[p].grid.None? && s.threads[p].player.None?
  {
    assert ThreadOk(l, s, p);
    assert CellOf(l, a) in Around(l, a);
  }

  /** The first player joins, up to its query, which it does not begin yet. */
  lemma FirstBeforeQuery(l: Layout, a: Position) returns (s: Machine)
    requires OnMap(l, a)
    ensures Reachable(l, s) && s.threads.Keys == {1} == s.pos.Keys && s.issued == 1
    ensures s.threads[1].code == [] && s.threads[1].next == [OpenQuery] + REST_OF_JOIN
    ensures s.threads[1].loaded == a == s.pos[1] && HoldsNothing(s.threads[1])
  {
    var start, joining := Start(l), Opened(Start(l), 1, a);
    StartReachable(l);
    assert PidAt(0) == 1;
    assert Connects(l, start, joining);
    ReachNext(l, start, joining);
    assert joining.threads.Keys == {1};
    JoinBeforeQuery();
    s := RunPlain(l, joining, 1, 3);
    ReachableInv(l, s);
    assert ThreadOk(l, s, 1);
    BeforeQueryFree(l, 1, s.threads[1].next, ViewOf(s, 1));
  }

  lemma JoinBeforeQuery()
    ensures AllPlain(JOIN, 3) && JOIN[3..] == [OpenQuery] + REST_OF_JOIN
  {
    JoinStages();
    assert JOIN == [EnterMap, LoadPos, EnterGrid] + ([OpenQuery] + REST_OF_JOIN);
  }

  lemma BeforeQueryFree(l: Layout, p: Pid, next: seq<Stage>, v: Local)
    requires next != [] && next[0].OpenQuery? && Safe(l, p, [], next, v)
    ensures Idle(v) && v.world.None?
  {
    var code := Unfold(l, p, OpenQuery, v.loaded);
    assert code[0] == AcquireWorld(Shared);
    assert Safe(l, p, code, next[1..], v);
  }

  /** The second player joins at the same place and opens its query. */
  lemma SecondOpens(l: Layout, s: Machine, a: Position) returns (s': Machine)
    requires Reachable(l, s) && s.threads.Keys == {1} == s.pos.Keys && s.issued == 1
    requires HoldsNothing(s.threads[1]) && OnMap(l, a)
    ensures Reachable(l, s') && s'.threads.Keys == {1, 2} == s'.pos.Keys && s'.threads[1] == s.threads[1]
    ensures s'.pos[1] == s.pos[1] && AtScan(s', 2, a)
  {
    var joining := Opened(s, 2, a);
    assert PidAt(0) == 1 && PidAt(1) == 2;
    assert Connects(l, s, joining);
    ReachNext(l, s, joining);
    JoinStages();
    s' := RunPlain(l, joining, 2, 4);
  }

  /** While the second has the world lock shared, the first opens its query. */
  lemma FirstOpens(l: Layout, s: Machine, a: Position) returns (s': Machine)
    requires Reachable(l, s) && s.threads.Keys == {1, 2} == s.pos.Keys && AtScan(s, 2, a) && OnMap(l, a)
    requires s.threads[1].code == [] && s.threads[1].next == [OpenQuery] + REST_OF_JOIN
    requires s.threads[1].loaded == a == s.pos[1]
    ensures Reachable(l, s') && s'.threads.Keys == {1, 2} && s'.threads[2] == s.threads[2]
    ensures AtScan(s', 1, a) && AtScan(s', 2, a)
  {
    ReachableInv(l, s);
    ScannerHolds(l, s, 2, a);
    var t := s.threads[1];
    var u := t.(code := Unfold(l, 1, OpenQuery, a), next := REST_OF_JOIN);
    assert t.next[0] == OpenQuery && t.next[1..] == REST_OF_JOIN;
    assert SharesOnly(u.code) && KeepsPosition(u.code);
    var m;
    m, s' := RunUnfolded(l, s, 1, u);
  }

  /** A scanning thread takes the mutex of a grid that nobody has. */
  lemma TakesGrid(l: Layout, s: Machine, p: Pid, a: Position, c: Cell) returns (s': Machine)
    requires Reachable(l, s) && AtScan(s, p, a) && OnMap(l, a) && c in Around(l, a)
    requires forall q :: q in s.threads && q != p ==> s.threads[q].grid != Some(c)
    ensures Reachable(l, s') && OnlyTouches(s, s', p)
    ensures s'.threads[p].code == [GridRead(c), ReleaseGrid] && s'.threads[p].grid == Some(c)
    ensures s'.threads[p].world == Some(Shared)
  {
    ReachableInv(l, s);
    ScannerHolds(l, s, p, a);
    var u := ScanOne(s.threads[p], c, Around(l, a), false);
    var m := UnfoldAlone(l, s, p, u);
    assert u.code == [AcquireGrid(c), GridRead(c), ReleaseGrid];
    s' := StepEnabled(l, m, p);
    ExecuteThreads(m, p);
    TouchesThen(s, m, s', p);
  }

  lemma BothAtScan(l: Layout, a: Position) returns (s: Machine)
    requires OnMap(l, a)
    ensures Reachable(l, s) && s.threads.Keys == {1, 2} && AtScan(s, 1, a) && AtScan(s, 2, a)
    ensures s.threads[1].grid.None? && s.threads[2].grid.None?
  {
    var first := FirstBeforeQuery(l, a);
    var second := SecondOpens(l, first, a);
    s := FirstOpens(l, second, a);
    ReachableInv(l, s);
    ScannerHolds(l, s, 1, a);
    ScannerHolds(l, s, 2, a);
  }

  /** Wherever a player has two grids around it, two queries read different ones at the same time. */
  lemma ReadersShare(l: Layout, a: Position, c: Cell, d: Cell) returns (s: Machine)
    requires OnMap(l, a) && IsValid(l, c) && IsValid(l, d) && c != d
    requires Adjacent(CellOf(l, a), c) && Adjacent(CellOf(l, a), d)
    ensures Reachable(l, s) && TwoReaders(s, 1, 2)
  {
    InAround(l, a, c);
    InAround(l, a, d);
    var both := BothAtScan(l, a);
    var one := TakesGrid(l, both, 1, a, c);
    s := TakesGrid(l, one, 2, a, d);
  }

  lemma InAround(l: Layout, a: Position, c: Cell)
    ensures c in Around(l, a) <==> IsValid(l, c) && Adjacent(CellOf(l, a), c)
  {
  }
}
