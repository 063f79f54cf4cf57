/**
  What the reads of joining, moving, leaving and chatting return in every interleaving, in
  terms of cells alone, and what the operations leave behind.
 */
module LockResults {
  import opened Containers
  import opened Geometry
  import opened Visibility
  import opened LockModel
  import opened LockSafety
  import opened LockReads

  // ---- What each operation is bound to find ----

  /** The cells near the one position and not the other */
  function Beyond(l: Layout, here: Position, there: Position): set<Cell> {
    Around(l, here) - Around(l, there)
  }

  /** One part of an operation and then another */
  lemma {:induction false} PlanAppend(l: Layout, own: bool, a: seq<Stage>, b: seq<Stage>, g: Guess)
    ensures Plan(l, own, a + b, g) == Plan(l, own, b, Plan(l, own, a, g).end).After(Plan(l, own, a, g).counts)
  {
    if a == [] {
      assert a + b == b;
      Plan(l, own, b, g).AfterNothing();
    } else {
      var h := StageAhead(l, own, a[0], g);
      var f := Plan(l, own, a[1..], h);
      assert (a + b)[1..] == a[1..] + b;
      PlanAppend(l, own, a[1..], b, h);
      Plan(l, own, b, f.end).AfterAfter(StageReturned(l, a[0], g), f.counts);
    }
  }

  lemma PlanOne(l: Layout, own: bool, stage: Stage, g: Guess)
    ensures Plan(l, own, [stage], g) == Forecast(StageReturned(l, stage, g), StageAhead(l, own, stage, g))
  {
    assert [stage][1..] == [];
    assert StageReturned(l, stage, g) + [] == StageReturned(l, stage, g);
  }

  /** Two parts, with what they find and leave */
  lemma PlanThen(l: Layout, own: bool, a: seq<Stage>, b: seq<Stage>, g: Guess, first: Forecast, second: Forecast)
    requires Plan(l, own, a, g) == first && Plan(l, own, b, first.end) == second
    ensures Plan(l, own, a + b, g) == Forecast(first.counts + second.counts, second.end)
  {
    PlanAppend(l, own, a, b, g);
  }

  /** What two stages that return nothing leave */
  lemma PlanTwo(l: Layout, own: bool, a: Stage, b: Stage, g: Guess)
    requires StageReturned(l, a, g) == [] && StageReturned(l, b, StageAhead(l, own, a, g)) == []
    ensures Plan(l, own, [a, b], g) == Forecast([], StageAhead(l, own, b, StageAhead(l, own, a, g)))
  {
    var h := StageAhead(l, own, a, g);
    PlanOne(l, own, a, g);
    PlanOne(l, own, b, h);
    PlanThen(l, own, [a], [b], g, Forecast([], h), Forecast([], StageAhead(l, own, b, h)));
    assert [a] + [b] == [a, b];
  }

  lemma PlanThree(l: Layout, own: bool, a: Stage, b: Stage, c: Stage, g: Guess, h: Guess, k: Guess, found: seq<nat>)
    requires StageAhead(l, own, a, g) == h && StageReturned(l, a, g) == []
    requires StageAhead(l, own, b, h) == k && StageReturned(l, b, h) == []
    requires StageAhead(l, own, c, k) == k && StageReturned(l, c, k) == found
    ensures Plan(l, own, [a, b, c], g) == Forecast(found, k)
  {
    PlanTwo(l, own, a, b, g);
    PlanOne(l, own, c, k);
    PlanThen(l, own, [a, b], [c], g, Forecast([], k), Forecast(found, k));
    assert [a, b] + [c] == [a, b, c];
  }

  /** Three parts */
  lemma PlanParts(l: Layout, own: bool, a: seq<Stage>, b: seq<Stage>, c: seq<Stage>, g: Guess,
                  first: Forecast, second: Forecast, third: Forecast)
    requires Plan(l, own, a, g) == first && Plan(l, own, b, first.end) == second && Plan(l, own, c, second.end) == third
    ensures Plan(l, own, (a + b) + c, g) == Forecast((first.counts + second.counts) + third.counts, third.end)
  {
    PlanThen(l, own, a, b, g, first, second);
    PlanThen(l, own, a + b, c, g, Forecast(first.counts + second.counts, second.end), third);
  }

  // The stages one by one

  lemma OpensQuery(l: Layout, own: bool, g: Guess)
    ensures StageAhead(l, own, OpenQuery, g) == g.(count := 0, loaded := g.pos) && StageReturned(l, OpenQuery, g) == []
  {
  }

  lemma ScansAround(l: Layout, own: bool, g: Guess)
    ensures StageAhead(l, own, ScanAround, g) == g.(count := g.count + Hits(Around(l, g.loaded), g.at))
    ensures StageReturned(l, ScanAround, g) == []
  {
  }

  lemma ClosesQuery(l: Layout, own: bool, g: Guess)
    ensures StageAhead(l, own, CloseQuery, g) == g && StageReturned(l, CloseQuery, g) == [g.count]
  {
  }

  lemma OpensCross(l: Layout, own: bool, to: Position, g: Guess)
    ensures StageAhead(l, own, OpenCross(to), g) == if Crosses(l, g.loaded, to) then g.(count := 0) else g
    ensures StageReturned(l, OpenCross(to), g) == []
  {
  }

  lemma ScansCross(l: Layout, own: bool, to: Position, gone: bool, g: Guess)
    ensures StageAhead(l, own, ScanCross(to, gone), g) == g.(count := g.count + Hits(Crossed(l, to, gone, g), g.at))
    ensures StageReturned(l, ScanCross(to, gone), g) == []
  {
  }

  lemma ClosesCross(l: Layout, own: bool, to: Position, g: Guess)
    ensures StageAhead(l, own, CloseCross(to), g) == g
    ensures StageReturned(l, CloseCross(to), g) == if Crosses(l, g.loaded, to) then [g.count] else []
  {
  }

  lemma Peeks(l: Layout, own: bool, to: Position, g: Guess)
    ensures StageAhead(l, own, PeekNew(to), g) == g && StageReturned(l, PeekNew(to), g) == []
    ensures StageAhead(l, own, PeekSelf, g) == g && StageReturned(l, PeekSelf, g) == []
    ensures StageAhead(l, own, PeekOthers, g) == g.(count := 0) && StageReturned(l, PeekOthers, g) == []
  {
  }

  lemma LooksUp(l: Layout, own: bool, g: Guess)
    ensures StageAhead(l, own, Lookup, g) == g.(count := 0) && StageReturned(l, Lookup, g) == []
    ensures StageAhead(l, own, LoadPos, g) == g.(loaded := g.pos) && StageReturned(l, LoadPos, g) == []
  {
  }

  lemma Relocates(l: Layout, own: bool, to: Position, g: Guess)
    ensures StageAhead(l, own, StorePos(to), g) == g.(pos := to) && StageReturned(l, StorePos(to), g) == []
    ensures StageAhead(l, own, Regrid(to), g) == g.(at := Regridded(l, own, g.loaded, to, g.at))
    ensures StageReturned(l, Regrid(to), g) == []
  {
  }

  lemma Enters(l: Layout, own: bool, g: Guess)
    ensures StageAhead(l, own, EnterMap, g) == g.(count := 0, online := g.online || own)
    ensures StageReturned(l, EnterMap, g) == []
    ensures StageAhead(l, own, EnterGrid, g) == g.(at := Placed(l, own, g.loaded, g.at))
    ensures StageReturned(l, EnterGrid, g) == []
  {
  }

  lemma Removes(l: Layout, own: bool, g: Guess)
    ensures StageAhead(l, own, OpenRemoval, g) == g.(count := 0, loaded := g.pos)
    ensures StageReturned(l, OpenRemoval, g) == []
    ensures StageAhead(l, own, CloseRemoval, g) == g.(at := Lifted(l, own, g.loaded, g.at), online := g.online && !own)
    ensures StageReturned(l, CloseRemoval, g) == []
  {
  }

  lemma Copies(l: Layout, own: bool, g: Guess)
    ensures StageAhead(l, own, CopyAll, g) == g.(count := Once(g.online)) && StageReturned(l, CopyAll, g) == [Once(g.online)]
  {
  }

  /** The cells of `q` after a step of `p` on the index: those of another player do not change. */
  function Placed(l: Layout, own: bool, pos: Position, at: set<Cell>): set<Cell> {
    if own then at + {CellOf(l, pos)} else at
  }

  function Lifted(l: Layout, own: bool, pos: Position, at: set<Cell>): set<Cell> {
    if own then at - {CellOf(l, pos)} else at
  }

  function Regridded(l: Layout, own: bool, from: Position, to: Position, at: set<Cell>): set<Cell> {
    if Crosses(l, from, to) then Placed(l, own, to, Lifted(l, own, from, at)) else at
  }

  /** The cells of one read of a crossing, if there is one */
  function Crossed(l: Layout, to: Position, gone: bool, g: Guess): set<Cell> {
    if !Crosses(l, g.loaded, to) then {}
    else if gone then Beyond(l, g.loaded, to)
    else Beyond(l, to, g.loaded)
  }

  // Their parts

  lemma PlanQuery(l: Layout, own: bool, g: Guess)
    ensures var n := Hits(Around(l, g.pos), g.at);
            Plan(l, own, QUERY, g) == Forecast([n], g.(count := n, loaded := g.pos))
  {
    var h := g.(count := 0, loaded := g.pos);
    var k := g.(count := Hits(Around(l, g.pos), g.at), loaded := g.pos);
    OpensQuery(l, own, g);
    ScansAround(l, own, h);
    ClosesQuery(l, own, k);
    PlanThree(l, own, OpenQuery, ScanAround, CloseQuery, g, h, k, [k.count]);
  }

  function Cross(to: Position, gone: bool): seq<Stage> {
    [OpenCross(to), ScanCross(to, gone), CloseCross(to)]
  }

  lemma PlanCross(l: Layout, own: bool, to: Position, gone: bool, g: Guess)
    requires Crosses(l, g.loaded, to)
    ensures var n := Hits(Crossed(l, to, gone, g), g.at);
            Plan(l, own, Cross(to, gone), g) == Forecast([n], g.(count := n))
  {
    var h, k := g.(count := 0), g.(count := Hits(Crossed(l, to, gone, g), g.at));
    OpensCross(l, own, to, g);
    ScansCross(l, own, to, gone, h);
    ClosesCross(l, own, to, k);
    PlanThree(l, own, OpenCross(to), ScanCross(to, gone), CloseCross(to), g, h, k, [k.count]);
  }

  lemma PlanNoCross(l: Layout, own: bool, to: Position, gone: bool, g: Guess)
    requires !Crosses(l, g.loaded, to)
    ensures Plan(l, own, Cross(to, gone), g) == Forecast([], g)
  {
    OpensCross(l, own, to, g);
    ScansCross(l, own, to, gone, g);
    ClosesCross(l, own, to, g);
    NoHits(g.at);
    PlanThree(l, own, OpenCross(to), ScanCross(to, gone), CloseCross(to), g, g, g, []);
  }

  lemma NoHits(at: set<Cell>)
    ensures Hits({}, at) == 0
  {
    assert {} * at == {};
  }

  lemma PlanPeeks(l: Layout, own: bool, to: Position, g: Guess)
    ensures Plan(l, own, [PeekNew(to), PeekOthers], g) == Forecast([], g.(count := 0))
    ensures Plan(l, own, [PeekSelf, PeekOthers], g) == Forecast([], g.(count := 0))
  {
    Peeks(l, own, to, g);
    PlanTwo(l, own, PeekNew(to), PeekOthers, g);
    PlanTwo(l, own, PeekSelf, PeekOthers, g);
  }

  lemma CrossStagesParts(to: Position)
    ensures CrossStages(to) == (Cross(to, true) + Cross(to, false)) + [PeekNew(to), PeekOthers]
  {
  }

  lemma CrossingParts(l: Layout, own: bool, to: Position, g: Guess, gone: Forecast, come: Forecast)
    requires Plan(l, own, Cross(to, true), g) == gone && Plan(l, own, Cross(to, false), gone.end) == come
    ensures Plan(l, own, CrossStages(to), g) == Forecast(gone.counts + come.counts, come.end.(count := 0))
  {
    PlanPeeks(l, own, to, come.end);
    CrossStagesParts(to);
    PlanParts(l, own, Cross(to, true), Cross(to, false), [PeekNew(to), PeekOthers], g, gone, come,
              Forecast([], come.end.(count := 0)));
    assert (gone.counts + come.counts) + [] == gone.counts + come.counts;
  }

  lemma PlanCrossing(l: Layout, own: bool, to: Position, g: Guess)
    requires Crosses(l, g.loaded, to)
    ensures Plan(l, own, CrossStages(to), g)
         == Forecast([Hits(Crossed(l, to, true, g), g.at), Hits(Crossed(l, to, false, g), g.at)], g.(count := 0))
  {
    var m, n := Hits(Crossed(l, to, true, g), g.at), Hits(Crossed(l, to, false, g), g.at);
    PlanCross(l, own, to, true, g);
    PlanCross(l, own, to, false, g.(count := m));
    CrossingParts(l, own, to, g, Forecast([m], g.(count := m)), Forecast([n], g.(count := n)));
    assert [m] + [n] == [m, n];
  }

  lemma PlanNoCrossing(l: Layout, own: bool, to: Position, g: Guess)
    requires !Crosses(l, g.loaded, to)
    ensures Plan(l, own, CrossStages(to), g) == Forecast([], g.(count := 0))
  {
    PlanNoCross(l, own, to, true, g);
    PlanNoCross(l, own, to, false, g);
    CrossingParts(l, own, to, g, Forecast([], g), Forecast([], g));
  }

  lemma PlanHead(l: Layout, own: bool, to: Position, g: Guess)
    ensures Plan(l, own, [Lookup, LoadPos] + [StorePos(to), Regrid(to)], g)
         == Forecast([], Guess(g.pos, to, 0, Regridded(l, own, g.pos, to, g.at), g.online))
  {
    var loaded := g.(count := 0, loaded := g.pos);
    var h := loaded.(pos := to, at := Regridded(l, own, g.pos, to, g.at));
    LooksUp(l, own, g);
    LooksUp(l, own, g.(count := 0));
    PlanTwo(l, own, Lookup, LoadPos, g);
    Relocates(l, own, to, loaded);
    Relocates(l, own, to, loaded.(pos := to));
    PlanTwo(l, own, StorePos(to), Regrid(to), loaded);
    PlanThen(l, own, [Lookup, LoadPos], [StorePos(to), Regrid(to)], g, Forecast([], loaded), Forecast([], h));
  }

  lemma PlanTail(l: Layout, own: bool, g: Guess)
    ensures var n := Hits(Around(l, g.pos), g.at);
            Plan(l, own, [PeekSelf] + QUERY, g) == Forecast([n], g.(count := n, loaded := g.pos))
  {
    var n := Hits(Around(l, g.pos), g.at);
    Peeks(l, own, g.pos, g);
    PlanOne(l, own, PeekSelf, g);
    PlanQuery(l, own, g);
    PlanThen(l, own, [PeekSelf], QUERY, g, Forecast([], g), Forecast([n], g.(count := n, loaded := g.pos)));
  }

  lemma MoveIs(to: Position)
    ensures MoveStages(to) == (([Lookup, LoadPos] + [StorePos(to), Regrid(to)]) + CrossStages(to)) + ([PeekSelf] + QUERY)
  {
  }

  /** What a move finds and leaves */
  function MoveForecast(l: Layout, own: bool, to: Position, g: Guess): Forecast {
    var at := Regridded(l, own, g.pos, to, g.at);
    var n := Hits(Around(l, to), at);
    Forecast(if Crosses(l, g.pos, to) then [Hits(Beyond(l, g.pos, to), at), Hits(Beyond(l, to, g.pos), at), n] else [n],
             Guess(to, to, n, at, g.online))
  }

  lemma MoveParts(l: Layout, own: bool, to: Position, g: Guess, h: Guess, found: seq<nat>, n: nat)
    requires Plan(l, own, [Lookup, LoadPos] + [StorePos(to), Regrid(to)], g) == Forecast([], h)
    requires Plan(l, own, CrossStages(to), h) == Forecast(found, h)
    requires Plan(l, own, [PeekSelf] + QUERY, h) == Forecast([n], h.(loaded := h.pos, count := n))
    ensures Plan(l, own, MoveStages(to), g) == Forecast(found + [n], h.(loaded := h.pos, count := n))
  {
    MoveIs(to);
    PlanParts(l, own, [Lookup, LoadPos] + [StorePos(to), Regrid(to)], CrossStages(to), [PeekSelf] + QUERY, g,
              Forecast([], h), Forecast(found, h), Forecast([n], h.(loaded := h.pos, count := n)));
    assert ([] + found) + [n] == found + [n];
  }

  lemma CrossedIs(l: Layout, to: Position, h: Guess)
    requires Crosses(l, h.loaded, to)
    ensures Crossed(l, to, true, h) == Beyond(l, h.loaded, to) && Crossed(l, to, false, h) == Beyond(l, to, h.loaded)
  {
  }

  lemma MoveForecastIs(l: Layout, own: bool, to: Position, g: Guess, h: Guess, m: nat, k: nat, n: nat)
    requires Crosses(l, g.pos, to) && h == Guess(g.pos, to, 0, Regridded(l, own, g.pos, to, g.at), g.online)
    requires m == Hits(Beyond(l, g.pos, to), h.at) && k == Hits(Beyond(l, to, g.pos), h.at) && n == Hits(Around(l, to), h.at)
    ensures MoveForecast(l, own, to, g) == Forecast([m, k] + [n], h.(loaded := h.pos, count := n))
  {
  }

  lemma MoveCrossingPlan(l: Layout, own: bool, to: Position, g: Guess)
    requires Crosses(l, g.pos, to)
    ensures Plan(l, own, MoveStages(to), g) == MoveForecast(l, own, to, g)
  {
    var h := Guess(g.pos, to, 0, Regridded(l, own, g.pos, to, g.at), g.online);
    var m, k, n := Hits(Beyond(l, g.pos, to), h.at), Hits(Beyond(l, to, g.pos), h.at), Hits(Around(l, to), h.at);
    MoveForecastIs(l, own, to, g, h, m, k, n);
    PlanHead(l, own, to, g);
    CrossedIs(l, to, h);
    PlanCrossing(l, own, to, h);
    PlanTail(l, own, h);
    MoveParts(l, own, to, g, h, [m, k], n);
  }

  lemma MoveWithinPlan(l: Layout, own: bool, to: Position, g: Guess)
    requires !Crosses(l, g.pos, to)
    ensures Plan(l, own, MoveStages(to), g) == MoveForecast(l, own, to, g)
  {
    var h := Guess(g.pos, to, 0, g.at, g.online);
    PlanHead(l, own, to, g);
    PlanNoCrossing(l, own, to, h);
    PlanTail(l, own, h);
    MoveParts(l, own, to, g, h, [], Hits(Around(l, to), h.at));
  }

  lemma MovePlan(l: Layout, own: bool, to: Position, g: Guess)
    ensures Plan(l, own, MoveStages(to), g) == MoveForecast(l, own, to, g)
  {
    if Crosses(l, g.pos, to) {
      MoveCrossingPlan(l, own, to, g);
    } else {
      MoveWithinPlan(l, own, to, g);
    }
  }

  lemma PlanEnter(l: Layout, own: bool, g: Guess)
    ensures Plan(l, own, [EnterMap, LoadPos] + [EnterGrid], g)
         == Forecast([], Guess(g.pos, g.pos, 0, Placed(l, own, g.pos, g.at), g.online || own))
  {
    var k := g.(count := 0, online := g.online || own);
    var h := k.(loaded := g.pos);
    Enters(l, own, g);
    LooksUp(l, own, k);
    PlanTwo(l, own, EnterMap, LoadPos, g);
    Enters(l, own, h);
    PlanOne(l, own, EnterGrid, h);
    PlanThen(l, own, [EnterMap, LoadPos], [EnterGrid], g, Forecast([], h),
             Forecast([], h.(at := Placed(l, own, g.pos, g.at))));
  }

  lemma PlanSync(l: Layout, own: bool, g: Guess)
    ensures Plan(l, own, SYNC, g) == Forecast([Hits(Around(l, g.pos), g.at)], g.(count := 0, loaded := g.pos))
  {
    var n := Hits(Around(l, g.pos), g.at);
    PlanQuery(l, own, g);
    PlanPeeks(l, own, g.pos, g.(count := n, loaded := g.pos));
    PlanThen(l, own, QUERY, [PeekSelf, PeekOthers], g, Forecast([n], g.(count := n, loaded := g.pos)),
             Forecast([], g.(count := 0, loaded := g.pos)));
    assert [n] + [] == [n];
  }

  lemma JoinParts()
    ensures JOIN == ([EnterMap, LoadPos] + [EnterGrid]) + SYNC
  {
  }

  lemma JoinPlan(l: Layout, own: bool, g: Guess)
    ensures var h := Guess(g.pos, g.pos, 0, Placed(l, own, g.pos, g.at), g.online || own);
            Plan(l, own, JOIN, g) == Forecast([Hits(Around(l, g.pos), h.at)], h)
  {
    var h := Guess(g.pos, g.pos, 0, Placed(l, own, g.pos, g.at), g.online || own);
    var n := Hits(Around(l, g.pos), h.at);
    PlanEnter(l, own, g);
    PlanSync(l, own, h);
    JoinParts();
    PlanThen(l, own, [EnterMap, LoadPos] + [EnterGrid], SYNC, g, Forecast([], h), Forecast([n], h));
    assert [] + [n] == [n];
  }

  lemma PlanRemoval(l: Layout, own: bool, g: Guess)
    ensures Plan(l, own, [OpenRemoval, CloseRemoval], g)
         == Forecast([], Guess(g.pos, g.pos, 0, Lifted(l, own, g.pos, g.at), g.online && !own))
  {
    Removes(l, own, g);
    Removes(l, own, g.(count := 0, loaded := g.pos));
    PlanTwo(l, own, OpenRemoval, CloseRemoval, g);
  }

  lemma QuitParts()
    ensures QUIT == ([Lookup] + QUERY) + [OpenRemoval, CloseRemoval]
  {
  }

  lemma PlanAsked(l: Layout, own: bool, g: Guess)
    ensures var n := Hits(Around(l, g.pos), g.at);
            Plan(l, own, [Lookup] + QUERY, g) == Forecast([n], g.(count := n, loaded := g.pos))
  {
    var n := Hits(Around(l, g.pos), g.at);
    LooksUp(l, own, g);
    PlanOne(l, own, Lookup, g);
    PlanQuery(l, own, g.(count := 0));
    PlanThen(l, own, [Lookup], QUERY, g, Forecast([], g.(count := 0)), Forecast([n], g.(count := n, loaded := g.pos)));
    assert [] + [n] == [n];
  }

  lemma QuitPlan(l: Layout, own: bool, g: Guess)
    ensures Plan(l, own, QUIT, g)
         == Forecast([Hits(Around(l, g.pos), g.at)],
                     Guess(g.pos, g.pos, 0, Lifted(l, own, g.pos, g.at), g.online && !own))
  {
    var n := Hits(Around(l, g.pos), g.at);
    var asked := g.(count := n, loaded := g.pos);
    PlanAsked(l, own, g);
    PlanRemoval(l, own, asked);
    QuitParts();
    PlanThen(l, own, [Lookup] + QUERY, [OpenRemoval, CloseRemoval], g, Forecast([n], asked),
             Forecast([], Guess(g.pos, g.pos, 0, Lifted(l, own, g.pos, g.at), g.online && !own)));
    assert [n] + [] == [n];
  }

  lemma ChatParts()
    ensures CHAT == [Lookup] + [CopyAll]
  {
  }

  lemma ChatPlan(l: Layout, own: bool, g: Guess)
    ensures Plan(l, own, CHAT, g) == Forecast([Once(g.online)], g.(count := Once(g.online)))
  {
    LooksUp(l, own, g);
    PlanOne(l, own, Lookup, g);
    Copies(l, own, g.(count := 0));
    PlanOne(l, own, CopyAll, g.(count := 0));
    ChatParts();
    PlanThen(l, own, [Lookup], [CopyAll], g, Forecast([], g.(count := 0)),
             Forecast([Once(g.online)], g.(count := Once(g.online))));
  }

  // ---- Cells ----

  lemma OneHit(cells: set<Cell>, c: Cell)
    ensures |cells * {c}| == Once(c in cells)
  {
    assert cells * {c} == if c in cells then {c} else {};
  }

  lemma HitsAround(l: Layout, here: Position, there: Position, c: Cell, g: Guess)
    requires IsValid(l, c) && g.at == {c}
    ensures Hits(Around(l, here), g.at) == Once(Adjacent(CellOf(l, here), c))
    ensures Hits(Beyond(l, here, there), g.at) == Once(Adjacent(CellOf(l, here), c) && !Adjacent(CellOf(l, there), c))
  {
    OneHit(Around(l, here), c);
    OneHit(Beyond(l, here, there), c);
    assert c in Around(l, here) <==> Adjacent(CellOf(l, here), c);
    assert c in Around(l, there) <==> Adjacent(CellOf(l, there), c);
  }

  // ---- In every interleaving ----

  /** A read that begins after `i` and returns before `j` finds what the operation was bound to find. */
  lemma ReadIs(l: Layout, states: seq<Machine>, b: nat, i: nat, j: nat, p: Pid, n: nat, q: Pid, c: Cell, all: seq<nat>)
    requires IsExecution(l, states) && j < |states| && ReadsBetween(states, b, i, j, p, n, q, c)
    requires Bound(l, states[b], p, 0, {c}, true, all)
    ensures n < |all| && n < |states[j].threads[p].results| && FoundBy(states[j], p, n, q) == all[n]
  {
    StaysInCell(l, states, i, j, q, c);
    var k := RunBound(l, states, b, i, p, 0, {c}, true, all);
    BoundReal(l, states, i, p, q, c, k, all);
    RunTotal(l, states, i, j, p, q);
    var t, u := states[i].threads[p], states[j].threads[p];
    assert Total(l, states[j], p, q).counts[n] == CountsOf(u.results, q)[n];
    assert Total(l, states[i], p, q).counts == CountsOf(t.results, q) + all[n..];
  }

  /** While the thread does not hold the world lock, what its last read found does not matter. */
  lemma BoundReal(l: Layout, states: seq<Machine>, i: nat, p: Pid, q: Pid, c: Cell, k: nat, all: seq<nat>)
    requires IsExecution(l, states) && i < |states| && Bound(l, states[i], p, k, {c}, true, all)
    requires states[i].threads[p].world.None? && CellsOf(states[i], q) == {c} && q in states[i].players && q != p
    ensures Total(l, states[i], p, q).counts
         == CountsOf(states[i].threads[p].results, q) + all[|states[i].threads[p].results|..]
  {
    var s := states[i];
    var t := s.threads[p];
    AlwaysInv(l, states, i);
    assert ThreadOk(l, s, p);
    CountFree(l, p, t.code, t.next, ViewOf(s, p), GuessOf(s, p, q), k);
  }

  lemma StartBound(l: Layout, s: Machine, p: Pid, stages: seq<Stage>, c: Cell, all: seq<nat>)
    requires Starts(s, p, stages)
    requires Plan(l, false, stages, Guess(s.threads[p].loaded, s.pos[p], 0, {c}, true)).counts == all
    ensures Bound(l, s, p, 0, {c}, true, all)
  {
    assert all[0..] == all;
  }

  lemma ValidCell(l: Layout, states: seq<Machine>, b: nat, i: nat, j: nat, p: Pid, n: nat, q: Pid, c: Cell)
    requires IsExecution(l, states) && j < |states| && ReadsBetween(states, b, i, j, p, n, q, c)
    ensures IsValid(l, c) && n < |states[j].threads[p].results|
  {
    StaysInCell(l, states, i, j, q, c);
  }

  /**
    Moving. Without a crossing there is one read, of the players to be told of the move: it
    finds exactly those in and next to the cell of the new position. With one, the first read
    finds those next to the old cell and not the new one, the second the reverse, the third
    those in and next to the new cell; each of them once.
   */
  lemma MoveReads(l: Layout, states: seq<Machine>, b: nat, i: nat, j: nat, p: Pid, n: nat, q: Pid, c: Cell, to: Position)
    requires IsExecution(l, states) && j < |states| && ReadsBetween(states, b, i, j, p, n, q, c)
    requires Starts(states[b], p, MoveStages(to))
    ensures n < |states[j].threads[p].results|
    ensures var from, dest, found := CellOf(l, states[b].pos[p]), CellOf(l, to), FoundBy(states[j], p, n, q);
            if from == dest then
              n == 0 && found == Once(Adjacent(dest, c))
            else
              && n < 3
              && (n == 0 ==> found == Once(Adjacent(from, c) && !Adjacent(dest, c)))
              && (n == 1 ==> found == Once(Adjacent(dest, c) && !Adjacent(from, c)))
              && (n == 2 ==> found == Once(Adjacent(dest, c)))
  {
    var s := states[b];
    var g := Guess(s.threads[p].loaded, s.pos[p], 0, {c}, true);
    ValidCell(l, states, b, i, j, p, n, q, c);
    MovePlan(l, false, to, g);
    HitsAround(l, s.pos[p], to, c, g.(loaded := s.pos[p], pos := to));
    HitsAround(l, to, s.pos[p], c, g.(loaded := s.pos[p], pos := to));
    var all := Plan(l, false, MoveStages(to), g).counts;
    StartBound(l, s, p, MoveStages(to), c, all);
    ReadIs(l, states, b, i, j, p, n, q, c, all);
  }

  /** Joining: the one read finds exactly the players in and next to the own cell, each once. */
  lemma JoinReads(l: Layout, states: seq<Machine>, b: nat, i: nat, j: nat, p: Pid, n: nat, q: Pid, c: Cell)
    requires IsExecution(l, states) && j < |states| && ReadsBetween(states, b, i, j, p, n, q, c)
    requires Starts(states[b], p, JOIN)
    ensures n == 0 < |states[j].threads[p].results|
    ensures FoundBy(states[j], p, n, q) == Once(Adjacent(CellOf(l, states[b].pos[p]), c))
  {
    var s := states[b];
    var g := Guess(s.threads[p].loaded, s.pos[p], 0, {c}, true);
    ValidCell(l, states, b, i, j, p, n, q, c);
    JoinPlan(l, false, g);
    HitsAround(l, s.pos[p], s.pos[p], c, g.(loaded := s.pos[p]));
    StartBound(l, s, p, JOIN, c, Plan(l, false, JOIN, g).counts);
    ReadIs(l, states, b, i, j, p, n, q, c, Plan(l, false, JOIN, g).counts);
  }

  /** Leaving: so does the read of the players to be told. */
  lemma QuitReads(l: Layout, states: seq<Machine>, b: nat, i: nat, j: nat, p: Pid, n: nat, q: Pid, c: Cell)
    requires IsExecution(l, states) && j < |states| && ReadsBetween(states, b, i, j, p, n, q, c)
    requires Starts(states[b], p, QUIT)
    ensures n == 0 < |states[j].threads[p].results|
    ensures FoundBy(states[j], p, n, q) == Once(Adjacent(CellOf(l, states[b].pos[p]), c))
  {
    var s := states[b];
    var g := Guess(s.threads[p].loaded, s.pos[p], 0, {c}, true);
    ValidCell(l, states, b, i, j, p, n, q, c);
    QuitPlan(l, false, g);
    HitsAround(l, s.pos[p], s.pos[p], c, g);
    StartBound(l, s, p, QUIT, c, Plan(l, false, QUIT, g).counts);
    ReadIs(l, states, b, i, j, p, n, q, c, Plan(l, false, QUIT, g).counts);
  }

  // ---- The copy of the whole map ----

  /** No grid will be read any more in this operation. */
  predicate NoGrids(code: seq<Instr>, next: seq<Stage>) {
    && (forall k :: 0 <= k < |code| ==> !code[k].GridRead?)
    && (forall k :: 0 <= k < |next| ==> !IsScan(next[k]))
  }

  lemma NoGridsTail(code: seq<Instr>, next: seq<Stage>)
    requires NoGrids(code, next)
    ensures code != [] ==> NoGrids(code[1..], next) && !code[0].GridRead?
    ensures next != [] ==> NoGrids([], next[1..]) && !IsScan(next[0])
  {
  }

  lemma UnfoldNoGrids(l: Layout, p: Pid, stage: Stage, at: Position, next: seq<Stage>)
    requires NoGrids([], next) && !IsScan(stage)
    ensures NoGrids(Unfold(l, p, stage, at), next)
  {
  }

  lemma {:induction false} PlanAtFree(l: Layout, next: seq<Stage>, g: Guess, at: set<Cell>)
    requires NoGrids([], next)
    ensures Plan(l, false, next, g).counts == Plan(l, false, next, g.(at := at)).counts
  {
    if next != [] {
      NoGridsTail([], next);
      PlanAtFree(l, next[1..], StageAhead(l, false, next[0], g), at);
      assert StageAhead(l, false, next[0], g.(at := at)) == StageAhead(l, false, next[0], g).(at := at);
    }
  }

  /** Then it does not matter in which grids anybody is. */
  lemma {:induction false} AtFree(l: Layout, code: seq<Instr>, next: seq<Stage>, g: Guess, at: set<Cell>)
    requires NoGrids(code, next)
    ensures Outlook(l, false, code, next, g).counts == Outlook(l, false, code, next, g.(at := at)).counts
  {
    if code == [] {
      PlanAtFree(l, next, g, at);
    } else {
      NoGridsTail(code, next);
      AtFree(l, code[1..], next, Ahead(false, code[0], g), at);
      assert Ahead(false, code[0], g.(at := at)) == Ahead(false, code[0], g).(at := at);
    }
  }

  ghost predicate ReadsNoGrids(s: Machine, p: Pid) {
    p in s.threads && p in s.pos && NoGrids(s.threads[p].code, s.threads[p].next)
  }

  lemma NextNoGrids(l: Layout, s: Machine, s': Machine, p: Pid)
    requires GoesOn(l, s, s', p) && ReadsNoGrids(s, p)
    ensures ReadsNoGrids(s', p)
  {
    OthersStep(l, s, s', p);
    if !Untouched(s, s', p) {
      var t := s.threads[p];
      NoGridsTail(t.code, t.next);
      if t.code != [] {
        ExecuteThreads(s, p);
      } else {
        var u :| s' == s.(threads := s.threads[p := u]) && Unfolds(l, p, t, u);
        if !t.next[0].PeekOthers? {
          UnfoldNoGrids(l, p, t.next[0], t.loaded, t.next[1..]);
        }
      }
    }
  }

  /** So only coming online and going offline would change the forecast. */
  lemma NextCounts(l: Layout, s: Machine, s': Machine, p: Pid, q: Pid)
    requires GoesOn(l, s, s', p) && ReadsNoGrids(s, p) && q != p && (q in s'.players <==> q in s.players)
    ensures ReadsNoGrids(s', p) && Total(l, s', p, q).counts == Total(l, s, p, q).counts
  {
    OthersStep(l, s, s', p);
    NextNoGrids(l, s, s', p);
    if Untouched(s, s', p) {
      AtFree(l, s.threads[p].code, s.threads[p].next, GuessOf(s, p, q), CellsOf(s', q));
    } else {
      OwnTotal(l, s, s', p, q);
    }
  }

  ghost predicate SameCounts(l: Layout, s: Machine, s': Machine, p: Pid, q: Pid) {
    && p in s.threads && p in s.pos && ReadsNoGrids(s', p)
    && Total(l, s', p, q).counts == Total(l, s, p, q).counts
  }

  predicate IsOnline(s: Machine, q: Pid, online: bool) {
    q in s.players <==> online
  }

  lemma CountsGoOn(l: Layout, s: Machine, m: Machine, s': Machine, p: Pid, q: Pid, online: bool)
    requires SameCounts(l, s, m, p, q) && GoesOn(l, m, s', p) && q != p
    requires IsOnline(m, q, online) && IsOnline(s', q, online)
    ensures SameCounts(l, s, s', p, q)
  {
    NextCounts(l, m, s', p, q);
  }

  lemma {:induction false} RunCounts(l: Layout, states: seq<Machine>, i: nat, j: nat, p: Pid, q: Pid, online: bool)
    requires IsExecution(l, states) && UnderWay(states, i, j, p) && SameCounts(l, states[i], states[i], p, q) && q != p
    requires forall k :: i <= k <= j ==> IsOnline(states[k], q, online)
    ensures SameCounts(l, states[i], states[j], p, q)
    decreases j
  {
    if i < j {
      RunCounts(l, states, i, j - 1, p, q, online);
      GoesOnAt(l, states, j - 1, p);
      CountsGoOn(l, states[i], states[j - 1], states[j], p, q, online);
    }
  }

  /** Chatting: the one read finds a player that is online all the while once, one that is not never. */
  lemma ChatReads(l: Layout, states: seq<Machine>, b: nat, j: nat, p: Pid, q: Pid, online: bool)
    requires IsExecution(l, states) && UnderWay(states, b, j, p) && Starts(states[b], p, CHAT) && q != p
    requires forall k :: b <= k <= j ==> IsOnline(states[k], q, online)
    requires p in states[j].threads && |states[j].threads[p].results| > 0
    ensures FoundBy(states[j], p, 0, q) == Once(online)
  {
    var s := states[b];
    ChatNoGrids();
    RunCounts(l, states, b, j, p, q, online);
    assert IsOnline(s, q, online);
    ChatPlan(l, false, GuessOf(s, p, q));
    assert Total(l, s, p, q).counts == CountsOf(s.threads[p].results, q) + [Once(online)];
    assert Total(l, states[j], p, q).counts[0] == CountsOf(states[j].threads[p].results, q)[0];
  }

  /** The moment of the read: everybody who is in the map, once, and nobody else */
  lemma CopyIsWhole(l: Layout, s: Machine, s': Machine, p: Pid, q: Pid)
    requires ThreadStep(l, s, s', p) && s.threads[p].code != [] && s.threads[p].code[0] == CopyMap
    ensures p in s'.threads && s'.threads[p].collected[q] == Once(q in s.players) && s'.players == s.players
  {
  }

  lemma ChatNoGrids()
    ensures NoGrids([], CHAT)
  {
  }

  // ---- What an operation leaves behind, and what it finds of its own player ----

  /** The operation that starts at state `b` ends with state `j`. */
  ghost predicate Completes(states: seq<Machine>, b: nat, j: nat, p: Pid, stages: seq<Stage>) {
    && UnderWay(states, b, j, p) && Starts(states[b], p, stages)
    && p in states[j].threads && !Unfinished(states[j].threads[p])
  }

  lemma EndsAsPlanned(l: Layout, states: seq<Machine>, b: nat, j: nat, p: Pid, stages: seq<Stage>)
    requires IsExecution(l, states) && Completes(states, b, j, p, stages)
    ensures p in states[j].pos
    ensures var plan := Plan(l, true, stages, GuessOf(states[b], p, p));
            && CountsOf(states[j].threads[p].results, p) == plan.counts
            && GuessOf(states[j], p, p) == plan.end
  {
    RunTotal(l, states, b, j, p, p);
    var s, s' := states[b], states[j];
    Plan(l, true, stages, GuessOf(s, p, p)).AfterNothing();
    assert CountsOf(s.threads[p].results, p) == [];
    assert CountsOf(s'.threads[p].results, p) + [] == CountsOf(s'.threads[p].results, p);
  }

  /** A player that starts to move or to leave is in exactly the grid of its position. */
  ghost predicate InItsGrid(l: Layout, s: Machine, p: Pid) {
    && p in s.threads && p in s.pos && OnMap(l, s.pos[p])
    && p in s.players && CellsOf(s, p) == {CellOf(l, s.pos[p])}
  }

  /** A thread at rest at state `b` has an operation at the next state: its player is where the index says. */
  lemma BegunInItsGrid(l: Layout, states: seq<Machine>, b: nat, p: Pid)
    requires IsExecution(l, states) && b + 1 < |states|
    requires p in states[b].threads && !Unfinished(states[b].threads[p])
    requires p in states[b + 1].threads && Unfinished(states[b + 1].threads[p])
    ensures InItsGrid(l, states[b], p) && InItsGrid(l, states[b + 1], p) && states[b + 1].pos[p] == states[b].pos[p]
  {
    var s, s' := states[b], states[b + 1];
    AlwaysInv(l, states, b);
    assert ThreadOk(l, s, p);
    assert NextAt(l, states, b);
    if r :| ThreadStep(l, s, s', r) && r != p {
      AnothersStep(l, s, s', r, p);
    }
    assert CellsOf(s', p) == CellsOf(s, p);
  }

  lemma InValidCell(l: Layout, states: seq<Machine>, j: nat, p: Pid, c: Cell)
    requires IsExecution(l, states) && j < |states| && c in CellsOf(states[j], p)
    ensures IsValid(l, c)
  {
    AlwaysInv(l, states, j);
  }

  /** How often a player in cell `c` counts, being the only one asked about */
  lemma OwnHits(l: Layout, here: Position, there: Position, c: Cell)
    requires IsValid(l, c)
    ensures Hits(Around(l, here), {c}) == Once(Adjacent(CellOf(l, here), c))
    ensures Hits(Beyond(l, here, there), {c}) == Once(Adjacent(CellOf(l, here), c) && !Adjacent(CellOf(l, there), c))
  {
    HitsAround(l, here, there, c, Guess(here, here, 0, {c}, true));
  }

  /**
    A completed move leaves the player at the new position and in exactly the grid of it. The
    mover is never among those told to forget it, is told to meet itself if and only if it has
    jumped out of its own sight, and is told of its own move once.
   */
  lemma MoveEnds(l: Layout, states: seq<Machine>, b: nat, j: nat, p: Pid, to: Position)
    requires IsExecution(l, states) && b + 1 < |states|
    requires p in states[b].threads && !Unfinished(states[b].threads[p])
    requires Completes(states, b + 1, j, p, MoveStages(to))
    ensures InItsGrid(l, states[j], p) && states[j].pos[p] == to && p in states[b].pos
    ensures var from, dest := CellOf(l, states[b].pos[p]), CellOf(l, to);
            CountsOf(states[j].threads[p].results, p)
            == if from == dest then [1] else [0, Once(!Adjacent(from, dest)), 1]
  {
    MoveStagesAre(to);
    BegunInItsGrid(l, states, b, p);
    var g := GuessOf(states[b + 1], p, p);
    var from, dest := states[b].pos[p], CellOf(l, to);
    EndsAsPlanned(l, states, b + 1, j, p, MoveStages(to));
    MovePlan(l, true, to, g);
    assert Regridded(l, true, from, to, {CellOf(l, from)}) == {dest};
    assert CellsOf(states[j], p) == {dest};
    InValidCell(l, states, j, p, dest);
    OwnHits(l, from, to, dest);
    OwnHits(l, to, from, dest);
  }

  lemma JoinStartsOutside(l: Layout, s: Machine, p: Pid)
    requires Inv(l, s) && Starts(s, p, JOIN)
    ensures p !in s.players && CellsOf(s, p) == {}
  {
    assert ThreadOk(l, s, p);
    var v := ViewOf(s, p);
    JoinIs();
    var code := Unfold(l, p, EnterMap, v.loaded);
    assert Safe(l, p, code, JOIN[1..], v);
    assert Safe(l, p, code[1..], JOIN[1..], After(p, code[0], v));
    assert code[1..][0] == MapInsert;
  }

  /** A completed join leaves the player online, in exactly its grid; it has found itself once. */
  lemma JoinEnds(l: Layout, states: seq<Machine>, b: nat, j: nat, p: Pid)
    requires IsExecution(l, states) && Completes(states, b, j, p, JOIN)
    ensures InItsGrid(l, states[j], p) && states[j].pos[p] == states[b].pos[p]
    ensures CountsOf(states[j].threads[p].results, p) == [1]
  {
    AlwaysInv(l, states, b);
    JoinStartsOutside(l, states[b], p);
    var g := GuessOf(states[b], p, p);
    var c := CellOf(l, g.pos);
    EndsAsPlanned(l, states, b, j, p, JOIN);
    JoinPlan(l, true, g);
    assert Placed(l, true, g.pos, {}) == {c};
    InValidCell(l, states, j, p, c);
    OwnHits(l, g.pos, g.pos, c);
  }

  /** A completed quit leaves the player offline and in no grid; its own client was told, too. */
  lemma QuitEnds(l: Layout, states: seq<Machine>, b: nat, j: nat, p: Pid)
    requires IsExecution(l, states) && b + 1 < |states|
    requires p in states[b].threads && !Unfinished(states[b].threads[p])
    requires Completes(states, b + 1, j, p, QUIT)
    ensures p !in states[j].players && CellsOf(states[j], p) == {}
    ensures CountsOf(states[j].threads[p].results, p) == [1]
  {
    QuitIs();
    BegunInItsGrid(l, states, b, p);
    var g := GuessOf(states[b + 1], p, p);
    var c := CellOf(l, g.pos);
    EndsAsPlanned(l, states, b + 1, j, p, QUIT);
    QuitPlan(l, true, g);
    assert Lifted(l, true, g.pos, {c}) == {};
    OwnHits(l, g.pos, g.pos, c);
  }

  lemma QuitIs()
    ensures QUIT != []
  {
    QuitParts();
  }

  // ---- Players who move meanwhile ----

  /** If the read of a leaving or joining player finds another one wrongly, that one has changed its grid. */
  lemma MisfoundHasMoved(l: Layout, states: seq<Machine>, b: nat, i: nat, j: nat, p: Pid, q: Pid, c: Cell)
    requires IsExecution(l, states) && b <= i <= j && UnderWay(states, b, j, p) && q != p
    requires Starts(states[b], p, JOIN) || Starts(states[b], p, QUIT)
    requires p in states[i].threads && states[i].threads[p].world.None? && states[i].threads[p].results == []
    requires p in states[j].threads && |states[j].threads[p].results| > 0
    requires CellsOf(states[i], q) == {c}
    requires FoundBy(states[j], p, 0, q) != Once(Adjacent(CellOf(l, states[b].pos[p]), c))
    ensures exists k :: i < k <= j && CellsOf(states[k], q) != {c}
  {
    if forall k :: i < k <= j ==> CellsOf(states[k], q) == {c} {
      assert ReadsBetween(states, b, i, j, p, 0, q, c);
      if Starts(states[b], p, JOIN) {
        JoinReads(l, states, b, i, j, p, 0, q, c);
      } else {
        QuitReads(l, states, b, i, j, p, 0, q, c);
      }
    }
  }

  /** How often the read number `n` of a move should find a player in cell `c` */
  function MoveExpects(l: Layout, from: Position, to: Position, n: nat, c: Cell): nat {
    var near, far := Adjacent(CellOf(l, to), c), Adjacent(CellOf(l, from), c);
    if CellOf(l, from) == CellOf(l, to) || n > 1 then Once(near)
    else if n == 0 then Once(far && !near)
    else Once(near && !far)
  }

  /** The same for each read of a move */
  lemma MisfoundByMoveHasMoved(l: Layout, states: seq<Machine>, b: nat, i: nat, j: nat, p: Pid, n: nat, q: Pid, c: Cell,
                               to: Position)
    requires IsExecution(l, states) && b <= i <= j && UnderWay(states, b, j, p) && q != p
    requires Starts(states[b], p, MoveStages(to))
    requires p in states[i].threads && states[i].threads[p].world.None? && |states[i].threads[p].results| == n
    requires p in states[j].threads && |states[j].threads[p].results| > n
    requires CellsOf(states[i], q) == {c}
    requires FoundBy(states[j], p, n, q) != MoveExpects(l, states[b].pos[p], to, n, c)
    ensures exists k :: i < k <= j && CellsOf(states[k], q) != {c}
  {
    if forall k :: i < k <= j ==> CellsOf(states[k], q) == {c} {
      assert ReadsBetween(states, b, i, j, p, n, q, c);
      MoveReads(l, states, b, i, j, p, n, q, c, to);
    }
  }
}
