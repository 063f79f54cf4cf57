/**
  What the reads of an operation return while other players move. The grids are read one at
  a time, under their own mutexes, so a player that changes its grid meanwhile may be found
  twice or not at all; one that stays in its cell is found exactly as the cells say.

  The rest of a thread's program says how often it will find a player that stays where it is
  (`Outlook`). No step of any thread changes that.
 */
module LockReads {
  import opened Containers
  import opened Geometry
  import opened Visibility
  import opened LockModel
  import opened LockSafety

  /**
    What matters for how often thread `p` finds player `q`: the positions of `p`, how often
    the result under way holds `q`, the cells whose grids hold `q`, whether it is online
   */
  datatype Guess = Guess(loaded: Position, pos: Position, count: nat, at: set<Cell>, online: bool)

  /** How often the reads still to come find `q`, and the guess at the end of the operation */
  datatype Forecast = Forecast(counts: seq<nat>, end: Guess) {
    function After(earlier: seq<nat>): Forecast {
      Forecast(earlier + counts, end)
    }

    lemma AfterAfter(a: seq<nat>, b: seq<nat>)
      ensures After(b).After(a) == After(a + b)
    {
      Associate(a, b, counts);
    }

    lemma AfterNothing()
      ensures After([]) == this
    {
      assert [] + counts == counts;
    }
  }

  function Once(b: bool): nat {
    if b then 1 else 0
  }

  /** `own` is whether `q` is `p` itself: then its cells and its being online change, too. */
  function Ahead(own: bool, i: Instr, g: Guess): Guess {
    match i
    case AcquireWorld(_) => g.(count := 0)
    case CopyMap => g.(count := Once(g.online))
    case GridRead(c) => g.(count := g.count + Once(c in g.at))
    case ReadPos => g.(loaded := g.pos)
    case WritePos(to) => g.(pos := to)
    case MapInsert => if own then g.(online := true) else g
    case MapErase => if own then g.(online := false) else g
    case GridInsert(c) => if own then g.(at := g.at + {c}) else g
    case GridErase(c) => if own then g.(at := g.at - {c}) else g
    case _ => g
  }

  function Returned(i: Instr, g: Guess): seq<nat> {
    if i.Return? then [g.count] else []
  }

  /** The same for whole stages */
  function StageAhead(l: Layout, own: bool, stage: Stage, g: Guess): Guess {
    if IsScan(stage) then g.(count := g.count + Hits(CellsToScan(l, stage, g.loaded), g.at))
    else PlainAhead(l, own, stage, g)
  }

  function Hits(cells: set<Cell>, at: set<Cell>): nat {
    |cells * at|
  }

  function PlainAhead(l: Layout, own: bool, stage: Stage, g: Guess): Guess {
    match stage
    case Lookup => g.(count := 0)
    case LoadPos => g.(loaded := g.pos)
    case PeekSelf => g
    case PeekNew(_) => g
    case PeekOthers => g.(count := 0)
    case EnterMap => g.(count := 0, online := g.online || own)
    case EnterGrid => if own then g.(at := g.at + {CellOf(l, g.loaded)}) else g
    case StorePos(to) => g.(pos := to)
    case Regrid(to) =>
      if own && Crosses(l, g.loaded, to) then g.(at := g.at - {CellOf(l, g.loaded)} + {CellOf(l, to)}) else g
    case OpenCross(to) => if Crosses(l, g.loaded, to) then g.(count := 0) else g
    case CloseCross(_) => g
    case OpenQuery => g.(count := 0, loaded := g.pos)
    case CloseQuery => g
    case CopyAll => g.(count := Once(g.online))
    case OpenRemoval => g.(count := 0, loaded := g.pos)
    case CloseRemoval => if own then g.(at := g.at - {CellOf(l, g.loaded)}, online := false) else g
    case _ => g
  }

  function StageReturned(l: Layout, stage: Stage, g: Guess): seq<nat> {
    match stage
    case CloseQuery => [g.count]
    case CloseCross(to) => if Crosses(l, g.loaded, to) then [g.count] else []
    case CopyAll => [Once(g.online)]
    case _ => []
  }

  function Plan(l: Layout, own: bool, next: seq<Stage>, g: Guess): Forecast {
    if next == [] then Forecast([], g)
    else Plan(l, own, next[1..], StageAhead(l, own, next[0], g)).After(StageReturned(l, next[0], g))
  }

  function Outlook(l: Layout, own: bool, code: seq<Instr>, next: seq<Stage>, g: Guess): Forecast
    decreases |code|
  {
    if code == [] then Plan(l, own, next, g)
    else Outlook(l, own, code[1..], next, Ahead(own, code[0], g)).After(Returned(code[0], g))
  }

  // ---- Code and stages agree ----

  lemma Outlook1(l: Layout, own: bool, a: Instr, code: seq<Instr>, next: seq<Stage>, g: Guess)
    ensures Outlook(l, own, [a] + code, next, g)
         == Outlook(l, own, code, next, Ahead(own, a, g)).After(Returned(a, g))
  {
    assert ([a] + code)[1..] == code;
  }

  lemma Outlook3(l: Layout, own: bool, a: Instr, b: Instr, c: Instr, code: seq<Instr>, next: seq<Stage>, g: Guess)
    requires !a.Return? && !b.Return?
    ensures var h := Ahead(own, b, Ahead(own, a, g));
            Outlook(l, own, [a, b, c] + code, next, g)
            == Outlook(l, own, code, next, Ahead(own, c, h)).After(Returned(c, h))
  {
    var h := Ahead(own, b, Ahead(own, a, g));
    Outlook1(l, own, c, code, next, h);
    Outlook1(l, own, b, [c] + code, next, Ahead(own, a, g));
    Outlook1(l, own, a, [b] + ([c] + code), next, g);
    Outlook(l, own, [b] + ([c] + code), next, Ahead(own, a, g)).AfterNothing();
    Outlook(l, own, [c] + code, next, h).AfterNothing();
    assert [a, b, c] + code == [a] + ([b] + ([c] + code));
  }

  lemma Outlook2(l: Layout, own: bool, a: Instr, b: Instr, next: seq<Stage>, g: Guess)
    requires !b.Return?
    ensures Outlook(l, own, [a, b], next, g) == Plan(l, own, next, Ahead(own, b, Ahead(own, a, g))).After(Returned(a, g))
  {
    Outlook1(l, own, b, [], next, Ahead(own, a, g));
    Outlook1(l, own, a, [b], next, g);
    Plan(l, own, next, Ahead(own, b, Ahead(own, a, g))).AfterNothing();
    assert [a] + [b] == [a, b] && [b] + [] == [b];
  }

  /** Three instructions that return nothing */
  lemma Silent3(l: Layout, own: bool, a: Instr, b: Instr, c: Instr, next: seq<Stage>, g: Guess)
    requires !a.Return? && !b.Return? && !c.Return?
    ensures Outlook(l, own, [a, b, c], next, g) == Plan(l, own, next, Ahead(own, c, Ahead(own, b, Ahead(own, a, g)))).After([])
  {
    assert [a, b, c] == [a, b, c] + [];
    Outlook3(l, own, a, b, c, [], next, g);
  }

  /** What the code of a stage amounts to */
  ghost predicate StageIs(l: Layout, own: bool, p: Pid, stage: Stage, next: seq<Stage>, g: Guess) {
    Outlook(l, own, Unfold(l, p, stage, g.loaded), next, g)
    == Plan(l, own, next, StageAhead(l, own, stage, g)).After(StageReturned(l, stage, g))
  }

  lemma SilentStageIs(l: Layout, own: bool, p: Pid, stage: Stage, a: Instr, b: Instr, c: Instr, next: seq<Stage>, g: Guess)
    requires Unfold(l, p, stage, g.loaded) == [a, b, c] && !a.Return? && !b.Return? && !c.Return?
    requires StageReturned(l, stage, g) == []
    requires StageAhead(l, own, stage, g) == Ahead(own, c, Ahead(own, b, Ahead(own, a, g)))
    ensures StageIs(l, own, p, stage, next, g)
  {
    Silent3(l, own, a, b, c, next, g);
  }

  lemma ShortStageIs(l: Layout, own: bool, p: Pid, stage: Stage, next: seq<Stage>, g: Guess)
    requires stage.Lookup? || stage.EnterMap? || stage.EnterGrid?
    ensures StageIs(l, own, p, stage, next, g)
  {
    match stage
    case Lookup => SilentStageIs(l, own, p, stage, AcquireWorld(Shared), FindSelf, ReleaseWorld, next, g);
    case EnterMap => SilentStageIs(l, own, p, stage, AcquireWorld(Exclusive), MapInsert, ReleaseWorld, next, g);
    case EnterGrid =>
      var c := CellOf(l, g.loaded);
      SilentStageIs(l, own, p, stage, AcquireGrid(c), GridInsert(c), ReleaseGrid, next, g);
  }

  lemma PositionStageIs(l: Layout, own: bool, p: Pid, stage: Stage, next: seq<Stage>, g: Guess)
    requires stage.LoadPos? || stage.PeekSelf? || stage.StorePos? || (stage.PeekNew? && Crosses(l, g.loaded, stage.to))
    ensures StageIs(l, own, p, stage, next, g)
  {
    var lock := AcquirePlayer(p, Shared);
    match stage
    case LoadPos => SilentStageIs(l, own, p, stage, lock, ReleasePlayer, ReadPos, next, g);
    case PeekSelf => SilentStageIs(l, own, p, stage, lock, ReleasePlayer, PeekPos(p), next, g);
    case PeekNew(to) => SilentStageIs(l, own, p, stage, lock, ReleasePlayer, PeekPos(p), next, g);
    case StorePos(to) => SilentStageIs(l, own, p, stage, AcquirePlayer(p, Exclusive), WritePos(to), ReleasePlayer, next, g);
  }

  lemma StageIsCode(l: Layout, own: bool, p: Pid, stage: Stage, next: seq<Stage>, g: Guess,
                    code: seq<Instr>, h: Guess, found: seq<nat>)
    requires Unfold(l, p, stage, g.loaded) == code
    requires StageAhead(l, own, stage, g) == h && StageReturned(l, stage, g) == found
    requires Outlook(l, own, code, next, g) == Plan(l, own, next, h).After(found)
    ensures StageIs(l, own, p, stage, next, g)
  {
  }

  /** Three instructions that return nothing, and more */
  lemma Then3(l: Layout, own: bool, a: Instr, b: Instr, c: Instr, more: seq<Instr>, next: seq<Stage>, g: Guess, h: Guess,
              f: Forecast)
    requires !a.Return? && !b.Return? && !c.Return? && h == Ahead(own, c, Ahead(own, b, Ahead(own, a, g)))
    requires Outlook(l, own, more, next, h) == f
    ensures Outlook(l, own, [a, b, c] + more, next, g) == f
  {
    Outlook3(l, own, a, b, c, more, next, g);
    f.AfterNothing();
  }

  lemma RegridCode(l: Layout, own: bool, c: Cell, d: Cell, next: seq<Stage>, g: Guess, h: Guess, k: Guess)
    requires h == Ahead(own, GridErase(c), g) && k == Ahead(own, GridInsert(d), h)
    ensures Outlook(l, own, [AcquireGrid(c), GridErase(c), ReleaseGrid] + [AcquireGrid(d), GridInsert(d), ReleaseGrid], next, g)
         == Plan(l, own, next, k).After([])
  {
    Silent3(l, own, AcquireGrid(d), GridInsert(d), ReleaseGrid, next, h);
    Then3(l, own, AcquireGrid(c), GridErase(c), ReleaseGrid, [AcquireGrid(d), GridInsert(d), ReleaseGrid], next, g, h,
          Plan(l, own, next, k).After([]));
  }

  lemma RegridIs(l: Layout, own: bool, p: Pid, to: Position, next: seq<Stage>, g: Guess)
    requires Crosses(l, g.loaded, to)
    ensures StageIs(l, own, p, Regrid(to), next, g)
  {
    var c, d := CellOf(l, g.loaded), CellOf(l, to);
    var h := Ahead(own, GridErase(c), g);
    var k := Ahead(own, GridInsert(d), h);
    RegridCode(l, own, c, d, next, g, h, k);
    StageIsCode(l, own, p, Regrid(to), next, g,
                [AcquireGrid(c), GridErase(c), ReleaseGrid] + [AcquireGrid(d), GridInsert(d), ReleaseGrid], k, []);
  }

  lemma NothingIs(l: Layout, own: bool, p: Pid, stage: Stage, next: seq<Stage>, g: Guess)
    requires Unfold(l, p, stage, g.loaded) == []
    requires StageAhead(l, own, stage, g) == g && StageReturned(l, stage, g) == []
    ensures StageIs(l, own, p, stage, next, g)
  {
    Plan(l, own, next, g).AfterNothing();
  }

  lemma OpenCrossIs(l: Layout, own: bool, p: Pid, to: Position, next: seq<Stage>, g: Guess)
    requires Crosses(l, g.loaded, to)
    ensures StageIs(l, own, p, OpenCross(to), next, g)
  {
    Outlook1(l, own, AcquireWorld(Shared), [], next, g);
    assert [AcquireWorld(Shared)] + [] == [AcquireWorld(Shared)];
    StageIsCode(l, own, p, OpenCross(to), next, g, [AcquireWorld(Shared)], g.(count := 0), []);
  }

  lemma CloseCrossCode(l: Layout, own: bool, next: seq<Stage>, g: Guess)
    ensures Outlook(l, own, [Return, ReleaseWorld], next, g) == Plan(l, own, next, g).After([g.count])
  {
    Outlook2(l, own, Return, ReleaseWorld, next, g);
  }

  lemma CloseCrossIs(l: Layout, own: bool, p: Pid, to: Position, next: seq<Stage>, g: Guess)
    requires Crosses(l, g.loaded, to)
    ensures StageIs(l, own, p, CloseCross(to), next, g)
  {
    CloseCrossCode(l, own, next, g);
    StageIsCode(l, own, p, CloseCross(to), next, g, [Return, ReleaseWorld], g, [g.count]);
  }

  /** The stages that do nothing without a crossing */
  lemma CrossStageIs(l: Layout, own: bool, p: Pid, stage: Stage, next: seq<Stage>, g: Guess)
    requires stage.Regrid? || stage.OpenCross? || stage.CloseCross? || stage.PeekNew?
    ensures StageIs(l, own, p, stage, next, g)
  {
    if !Crosses(l, g.loaded, stage.to) {
      NothingIs(l, own, p, stage, next, g);
    } else if stage.Regrid? {
      RegridIs(l, own, p, stage.to, next, g);
    } else if stage.OpenCross? {
      OpenCrossIs(l, own, p, stage.to, next, g);
    } else if stage.CloseCross? {
      CloseCrossIs(l, own, p, stage.to, next, g);
    } else {
      PositionStageIs(l, own, p, stage, next, g);
    }
  }

  lemma CloseQueryCode(l: Layout, own: bool, next: seq<Stage>, g: Guess)
    ensures Outlook(l, own, [FindCollected, Return, ReleaseWorld], next, g) == Plan(l, own, next, g).After([g.count])
  {
    CloseCrossCode(l, own, next, g);
    Outlook1(l, own, FindCollected, [Return, ReleaseWorld], next, g);
    Plan(l, own, next, g).After([g.count]).AfterNothing();
    assert [FindCollected] + [Return, ReleaseWorld] == [FindCollected, Return, ReleaseWorld];
  }

  lemma CloseQueryIs(l: Layout, own: bool, p: Pid, next: seq<Stage>, g: Guess)
    ensures StageIs(l, own, p, CloseQuery, next, g)
  {
    CloseQueryCode(l, own, next, g);
    StageIsCode(l, own, p, CloseQuery, next, g, [FindCollected, Return, ReleaseWorld], g, [g.count]);
  }

  lemma CopyAllCode(l: Layout, own: bool, next: seq<Stage>, g: Guess, h: Guess)
    requires h == g.(count := Once(g.online))
    ensures Outlook(l, own, [AcquireWorld(Shared), CopyMap, Return] + [ReleaseWorld], next, g)
         == Plan(l, own, next, h).After([h.count])
  {
    Outlook3(l, own, AcquireWorld(Shared), CopyMap, Return, [ReleaseWorld], next, g);
    Outlook1(l, own, ReleaseWorld, [], next, h);
    assert [ReleaseWorld] + [] == [ReleaseWorld];
    Plan(l, own, next, h).AfterNothing();
  }

  lemma CopyAllIs(l: Layout, own: bool, p: Pid, next: seq<Stage>, g: Guess)
    ensures StageIs(l, own, p, CopyAll, next, g)
  {
    var h := g.(count := Once(g.online));
    CopyAllCode(l, own, next, g, h);
    StageIsCode(l, own, p, CopyAll, next, g, [AcquireWorld(Shared), CopyMap, Return] + [ReleaseWorld], h, [h.count]);
  }

  lemma OpenStageIs(l: Layout, own: bool, p: Pid, stage: Stage, next: seq<Stage>, g: Guess)
    requires stage.OpenQuery? || stage.OpenRemoval?
    ensures StageIs(l, own, p, stage, next, g)
  {
    var mode := if stage.OpenQuery? then Shared else Exclusive;
    var load := [AcquirePlayer(p, Shared), ReleasePlayer, ReadPos];
    var h := g.(count := 0);
    Silent3(l, own, AcquirePlayer(p, Shared), ReleasePlayer, ReadPos, next, h);
    Outlook1(l, own, FindSelf, load, next, h);
    Outlook1(l, own, AcquireWorld(mode), [FindSelf] + load, next, g);
    assert [AcquireWorld(mode)] + ([FindSelf] + load) == [AcquireWorld(mode), FindSelf] + load;
    Nothing3(Plan(l, own, next, StageAhead(l, own, stage, g)));
  }

  lemma Nothing3(f: Forecast)
    ensures f.After([]) == f && f.After([]).After([]) == f && f.After([]).After([]).After([]) == f
  {
    f.AfterNothing();
  }

  lemma CloseRemovalCode(l: Layout, own: bool, c: Cell, next: seq<Stage>, g: Guess, h: Guess, k: Guess)
    requires h == Ahead(own, GridErase(c), g) && k == Ahead(own, MapErase, h)
    ensures Outlook(l, own, [AcquireGrid(c), GridErase(c), ReleaseGrid] + [MapErase, ReleaseWorld], next, g)
         == Plan(l, own, next, k).After([])
  {
    Outlook2(l, own, MapErase, ReleaseWorld, next, h);
    Then3(l, own, AcquireGrid(c), GridErase(c), ReleaseGrid, [MapErase, ReleaseWorld], next, g, h,
          Plan(l, own, next, k).After([]));
  }

  lemma CloseRemovalIs(l: Layout, own: bool, p: Pid, next: seq<Stage>, g: Guess)
    ensures StageIs(l, own, p, CloseRemoval, next, g)
  {
    var c := CellOf(l, g.loaded);
    var h := Ahead(own, GridErase(c), g);
    var k := Ahead(own, MapErase, h);
    CloseRemovalCode(l, own, c, next, g, h, k);
    StageIsCode(l, own, p, CloseRemoval, next, g,
                [AcquireGrid(c), GridErase(c), ReleaseGrid] + [MapErase, ReleaseWorld], k, []);
  }

  predicate IsWalk(stage: Stage) {
    IsScan(stage) || stage.PeekOthers?
  }

  lemma AnyStageIs(l: Layout, own: bool, p: Pid, stage: Stage, next: seq<Stage>, g: Guess)
    requires !IsWalk(stage)
    ensures StageIs(l, own, p, stage, next, g)
  {
    if stage.Regrid? || stage.OpenCross? || stage.CloseCross? || stage.PeekNew? {
      CrossStageIs(l, own, p, stage, next, g);
    } else if stage.OpenQuery? || stage.OpenRemoval? {
      OpenStageIs(l, own, p, stage, next, g);
    } else if stage.CloseQuery? {
      CloseQueryIs(l, own, p, next, g);
    } else if stage.CopyAll? {
      CopyAllIs(l, own, p, next, g);
    } else if stage.CloseRemoval? {
      CloseRemovalIs(l, own, p, next, g);
    } else if stage.LoadPos? || stage.PeekSelf? || stage.StorePos? {
      PositionStageIs(l, own, p, stage, next, g);
    } else {
      ShortStageIs(l, own, p, stage, next, g);
    }
  }

  // ---- Walks ----

  lemma OneCellLess(cells: set<Cell>, c: Cell, at: set<Cell>)
    requires c in cells
    ensures Hits(cells, at) == Hits(cells - {c}, at) + Once(c in at)
  {
    if c in at {
      assert (cells - {c}) * at == cells * at - {c};
    } else {
      assert (cells - {c}) * at == cells * at;
    }
  }

  lemma LookupsIs(l: Layout, own: bool, next: seq<Stage>, g: Guess)
    ensures Outlook(l, own, [FindCollected], next, g) == Plan(l, own, next, g)
  {
    Outlook1(l, own, FindCollected, [], next, g);
    assert [FindCollected] + [] == [FindCollected];
    Plan(l, own, next, g).AfterNothing();
  }

  lemma ScanLookupsIs(l: Layout, own: bool, c: Cell, next: seq<Stage>, g: Guess, h: Guess)
    requires h == g.(count := g.count + Once(c in g.at))
    ensures Outlook(l, own, [AcquireGrid(c), GridRead(c), ReleaseGrid] + [FindCollected], next, g) == Plan(l, own, next, h)
  {
    LookupsIs(l, own, next, h);
    Then3(l, own, AcquireGrid(c), GridRead(c), ReleaseGrid, [FindCollected], next, g, h, Plan(l, own, next, h));
  }

  lemma ScanPlainIs(l: Layout, own: bool, c: Cell, next: seq<Stage>, g: Guess, h: Guess)
    requires h == g.(count := g.count + Once(c in g.at))
    ensures Outlook(l, own, [AcquireGrid(c), GridRead(c), ReleaseGrid] + [], next, g) == Plan(l, own, next, h)
  {
    Then3(l, own, AcquireGrid(c), GridRead(c), ReleaseGrid, [], next, g, h, Plan(l, own, next, h));
  }

  lemma ScanCodeIs(l: Layout, own: bool, c: Cell, lookups: bool, next: seq<Stage>, g: Guess, h: Guess)
    requires h == g.(count := g.count + Once(c in g.at))
    ensures Outlook(l, own, ScanCode(c, lookups), next, g) == Plan(l, own, next, h)
  {
    if lookups {
      ScanLookupsIs(l, own, c, next, g, h);
    } else {
      ScanPlainIs(l, own, c, next, g, h);
    }
  }

  lemma PlanCons(l: Layout, own: bool, stage: Stage, rest: seq<Stage>, g: Guess)
    ensures Plan(l, own, [stage] + rest, g)
         == Plan(l, own, rest, StageAhead(l, own, stage, g)).After(StageReturned(l, stage, g))
  {
    assert ([stage] + rest)[1..] == rest;
  }

  lemma ScanAhead(l: Layout, own: bool, stage: Stage, g: Guess)
    requires IsScan(stage)
    ensures StageAhead(l, own, stage, g) == g.(count := g.count + Hits(CellsToScan(l, stage, g.loaded), g.at))
    ensures StageReturned(l, stage, g) == []
  {
  }

  lemma LeftAhead(l: Layout, own: bool, stage: Stage, left: Stage, c: Cell, g: Guess, h: Guess)
    requires IsScan(stage) && IsScan(left) && c in CellsToScan(l, stage, g.loaded)
    requires CellsToScan(l, left, g.loaded) == CellsToScan(l, stage, g.loaded) - {c}
    requires h == g.(count := g.count + Once(c in g.at))
    ensures StageAhead(l, own, left, h) == StageAhead(l, own, stage, g)
    ensures StageReturned(l, left, h) == StageReturned(l, stage, g)
  {
    ScanAhead(l, own, stage, g);
    ScanAhead(l, own, left, h);
    OneCellLess(CellsToScan(l, stage, g.loaded), c, g.at);
  }

  lemma LeftIs(l: Layout, own: bool, stage: Stage, left: Stage, rest: seq<Stage>, g: Guess, h: Guess)
    requires StageAhead(l, own, left, h) == StageAhead(l, own, stage, g)
    requires StageReturned(l, left, h) == StageReturned(l, stage, g)
    ensures Plan(l, own, [left] + rest, h) == Plan(l, own, [stage] + rest, g)
  {
    PlanCons(l, own, left, rest, h);
    PlanCons(l, own, stage, rest, g);
  }

  /** Reading one grid and then the rest finds what reading all of them does. */
  lemma ScanOneIs(l: Layout, own: bool, stage: Stage, c: Cell, rest: seq<Stage>, g: Guess)
    requires IsScan(stage) && c in CellsToScan(l, stage, g.loaded)
    ensures var cells, lookups := CellsToScan(l, stage, g.loaded), WithLookups(stage);
            Outlook(l, own, ScanCode(c, lookups), [Scan(cells - {c}, lookups)] + rest, g)
            == Plan(l, own, [stage] + rest, g)
  {
    var cells, lookups := CellsToScan(l, stage, g.loaded), WithLookups(stage);
    var left := Scan(cells - {c}, lookups);
    var h := g.(count := g.count + Once(c in g.at));
    ScanCodeIs(l, own, c, lookups, [left] + rest, g, h);
    LeftAhead(l, own, stage, left, c, g, h);
    LeftIs(l, own, stage, left, rest, g, h);
  }

  lemma PlanPeek(l: Layout, own: bool, next: seq<Stage>, g: Guess)
    requires next != [] && next[0].PeekOthers?
    ensures Plan(l, own, next, g) == Plan(l, own, next[1..], g.(count := 0))
  {
    Plan(l, own, next[1..], g.(count := 0)).AfterNothing();
  }

  /** A walk over what was found empties it, however much is left. */
  lemma PeekOneIs(l: Layout, own: bool, q: Pid, next: seq<Stage>, g: Guess, h: Guess)
    requires next != [] && next[0].PeekOthers? && h == g.(count := h.count)
    ensures Outlook(l, own, [AcquirePlayer(q, Shared), ReleasePlayer, PeekPos(q)], next, h) == Plan(l, own, next, g)
  {
    PlanPeek(l, own, next, g);
    PlanPeek(l, own, next, h);
    Silent3(l, own, AcquirePlayer(q, Shared), ReleasePlayer, PeekPos(q), next, h);
    Plan(l, own, next, h).AfterNothing();
  }

  // ---- Steps keep the forecast ----

  function CountsOf(results: seq<multiset<Pid>>, q: Pid): (counts: seq<nat>)
    ensures |counts| == |results|
  {
    seq(|results|, k requires 0 <= k < |results| => results[k][q])
  }

  function GuessOf(s: Machine, p: Pid, q: Pid): Guess
    requires p in s.threads && p in s.pos
  {
    Guess(s.threads[p].loaded, s.pos[p], s.threads[p].collected[q], CellsOf(s, q), q in s.players)
  }

  /** How often the operation's reads have found and will find `q`, and how it ends */
  function Total(l: Layout, s: Machine, p: Pid, q: Pid): Forecast
    requires p in s.threads && p in s.pos
  {
    var t := s.threads[p];
    Outlook(l, p == q, t.code, t.next, GuessOf(s, p, q)).After(CountsOf(t.results, q))
  }

  lemma ProceedCounts(s: Machine, p: Pid, q: Pid)
    requires p in s.threads && p in s.pos && s.threads[p].code != []
    ensures var t := s.threads[p];
            var i, u := t.code[0], Proceed(s, p, t, t.code[0]);
            && CountsOf(u.results, q) == CountsOf(t.results, q) + Returned(i, GuessOf(s, p, q))
            && u.collected[q] == Ahead(p == q, i, GuessOf(s, p, q)).count
  {
    var t := s.threads[p];
    var i := t.code[0];
    if i.GridRead? {
      assert q in Members(s, i.cell) <==> i.cell in CellsOf(s, q);
    }
    if i.Return? {
      assert CountsOf(t.results + [t.collected], q) == CountsOf(t.results, q) + [t.collected[q]];
    } else {
      assert CountsOf(t.results, q) + [] == CountsOf(t.results, q);
    }
  }

  lemma ExecuteGuess(l: Layout, s: Machine, p: Pid, q: Pid)
    requires Inv(l, s) && p in s.threads && s.threads[p].code != []
    ensures p in s.pos
    ensures var i := s.threads[p].code[0];
            var s' := Execute(s, p, i);
            p in s'.pos && GuessOf(s', p, q) == Ahead(p == q, i, GuessOf(s, p, q))
  {
    ExecuteOwn(l, s, p);
    ExecuteTouches(l, s, p);
    ExecuteView(l, s, p);
    ExecuteThreads(s, p);
    ProceedCounts(s, p, q);
    if q != p {
      var s' := Execute(s, p, s.threads[p].code[0]);
      assert CellsOf(s', q) == CellsOf(s, q);
    }
  }

  lemma ExecuteTotal(l: Layout, s: Machine, p: Pid, q: Pid)
    requires Inv(l, s) && p in s.threads && s.threads[p].code != []
    ensures p in s.pos
    ensures var s' := Execute(s, p, s.threads[p].code[0]);
            p in s'.pos && Total(l, s', p, q) == Total(l, s, p, q)
  {
    var t := s.threads[p];
    var i := t.code[0];
    ExecuteGuess(l, s, p, q);
    ExecuteThreads(s, p);
    ProceedCounts(s, p, q);
    var f := Outlook(l, p == q, t.code[1..], t.next, Ahead(p == q, i, GuessOf(s, p, q)));
    f.AfterAfter(CountsOf(t.results, q), Returned(i, GuessOf(s, p, q)));
  }

  lemma UnfoldScan(l: Layout, own: bool, p: Pid, t: Thread, u: Thread, g: Guess)
    requires t.code == [] && t.next != [] && IsScan(t.next[0]) && Unfolds(l, p, t, u) && g.loaded == t.loaded
    ensures Outlook(l, own, u.code, u.next, g) == Plan(l, own, t.next, g)
  {
    var stage, rest := t.next[0], t.next[1..];
    var cells := CellsToScan(l, stage, t.loaded);
    assert t.next == [stage] + rest;
    if cells == {} {
      assert cells * g.at == {};
      Plan(l, own, rest, g).AfterNothing();
    } else {
      var c :| c in cells && u == ScanOne(t, c, cells, WithLookups(stage));
      ScanOneIs(l, own, stage, c, rest, g);
    }
  }

  lemma UnfoldPeek(l: Layout, own: bool, p: Pid, t: Thread, u: Thread, g: Guess, h: Guess)
    requires t.code == [] && t.next != [] && t.next[0].PeekOthers? && Unfolds(l, p, t, u)
    requires h == g.(count := h.count) && (t.collected == multiset{} ==> h.count == 0)
    ensures Outlook(l, own, u.code, u.next, h) == Plan(l, own, t.next, g)
  {
    if t.collected == multiset{} {
      Plan(l, own, t.next[1..], h).AfterNothing();
    } else {
      var q :| q in t.collected && u == PeekOne(t, q);
      PeekOneIs(l, own, q, t.next, g, h);
    }
  }

  /** Unfolding changes nothing; the walk over the players found forgets them. */
  lemma UnfoldOutlook(l: Layout, own: bool, p: Pid, t: Thread, u: Thread, g: Guess, h: Guess)
    requires t.code == [] && t.next != [] && Unfolds(l, p, t, u) && g.loaded == t.loaded
    requires h == g.(count := h.count)
    requires if t.next[0].PeekOthers? then t.collected == multiset{} ==> h.count == 0 else h.count == g.count
    ensures Outlook(l, own, u.code, u.next, h) == Outlook(l, own, t.code, t.next, g)
  {
    if IsScan(t.next[0]) {
      UnfoldScan(l, own, p, t, u, g);
    } else if t.next[0].PeekOthers? {
      UnfoldPeek(l, own, p, t, u, g, h);
    } else {
      AnyStageIs(l, own, p, t.next[0], t.next[1..], g);
    }
  }

  /** An operation of thread `p` goes on from `s` to `s'`. */
  ghost predicate GoesOn(l: Layout, s: Machine, s': Machine, p: Pid) {
    Inv(l, s) && Next(l, s, s') && p in s.threads && Unfinished(s.threads[p])
  }

  lemma OwnTotal(l: Layout, s: Machine, s': Machine, p: Pid, q: Pid)
    requires GoesOn(l, s, s', p) && ThreadStep(l, s, s', p)
    ensures p in s.pos && p in s'.threads && p in s'.pos && Total(l, s', p, q) == Total(l, s, p, q)
  {
    var t := s.threads[p];
    if t.code != [] {
      ExecuteTotal(l, s, p, q);
      assert s' == Execute(s, p, t.code[0]);
      ExecuteThreads(s, p);
    } else {
      var u :| s' == s.(threads := s.threads[p := u]) && Unfolds(l, p, t, u);
      assert CellsOf(s', q) == CellsOf(s, q);
      UnfoldOutlook(l, p == q, p, t, u, GuessOf(s, p, q), GuessOf(s', p, q));
    }
  }

  /** A step of another thread that leaves `q` where it is */
  lemma OtherTotal(l: Layout, s: Machine, s': Machine, p: Pid, q: Pid)
    requires GoesOn(l, s, s', p) && p in s'.threads && s'.threads[p] == s.threads[p]
    requires p in s.pos && p in s'.pos && s'.pos[p] == s.pos[p]
    requires CellsOf(s', q) == CellsOf(s, q) && (q in s'.players <==> q in s.players)
    ensures Total(l, s', p, q) == Total(l, s, p, q)
  {
  }

  /** Everything that thread `p` alone changes is as it was. */
  ghost predicate Untouched(s: Machine, s': Machine, p: Pid) {
    && p in s.threads && p in s.pos && p in s'.threads && p in s'.pos
    && s'.threads[p] == s.threads[p] && s'.pos[p] == s.pos[p]
    && CellsOf(s', p) == CellsOf(s, p) && (p in s'.players <==> p in s.players)
  }

  lemma OthersStep(l: Layout, s: Machine, s': Machine, p: Pid)
    requires GoesOn(l, s, s', p)
    ensures ThreadStep(l, s, s', p) || Untouched(s, s', p)
  {
    assert ThreadOk(l, s, p);
    if Connects(l, s, s') {
      assert CellsOf(s', p) == CellsOf(s, p);
    } else if r :| ThreadStep(l, s, s', r) {
      if r != p {
        AnothersStep(l, s, s', r, p);
      }
    } else {
      assert CellsOf(s', p) == CellsOf(s, p);
    }
  }

  lemma AnothersStep(l: Layout, s: Machine, s': Machine, r: Pid, p: Pid)
    requires Inv(l, s) && ThreadStep(l, s, s', r) && r != p && p in s.threads && p in s.pos
    ensures Untouched(s, s', p)
  {
    if s.threads[r].code != [] {
      ExecuteOwn(l, s, r);
      ExecuteTouches(l, s, r);
      OtherView(s, s', r, p);
    } else {
      assert CellsOf(s', p) == CellsOf(s, p);
    }
  }

  /** No step changes the forecast, as long as `q`, if it is another player, stays where it is. */
  lemma NextTotal(l: Layout, s: Machine, s': Machine, p: Pid, q: Pid)
    requires GoesOn(l, s, s', p)
    requires q != p ==> CellsOf(s', q) == CellsOf(s, q) && (q in s'.players <==> q in s.players)
    ensures p in s.pos && p in s'.threads && p in s'.pos && Total(l, s', p, q) == Total(l, s, p, q)
  {
    OthersStep(l, s, s', p);
    if Untouched(s, s', p) {
      OtherTotal(l, s, s', p, q);
    } else {
      OwnTotal(l, s, s', p, q);
    }
  }

  // ---- What an operation is bound to find, before its reads begin ----

  /**
    The results still to come will be the rest of `all` for a player that stays in the cells
    `at` until then, if the one under way holds it `n` times.
   */
  ghost predicate Bound(l: Layout, s: Machine, p: Pid, n: nat, at: set<Cell>, online: bool, all: seq<nat>) {
    && p in s.threads && p in s.pos
    && var t := s.threads[p];
       && |t.results| <= |all|
       && Outlook(l, false, t.code, t.next, Guess(t.loaded, s.pos[p], n, at, online)).counts == all[|t.results|..]
  }

  lemma ExecuteBound(l: Layout, s: Machine, p: Pid, n: nat, at: set<Cell>, online: bool, all: seq<nat>) returns (n': nat)
    requires Inv(l, s) && Bound(l, s, p, n, at, online, all) && s.threads[p].code != []
    ensures Bound(l, Execute(s, p, s.threads[p].code[0]), p, n', at, online, all)
  {
    var t := s.threads[p];
    var i, g := t.code[0], Guess(t.loaded, s.pos[p], n, at, online);
    var g' := Ahead(false, i, g);
    n' := g'.count;
    ExecuteThreads(s, p);
    var u, s' := Proceed(s, p, t, i), Execute(s, p, i);
    assert g' == Guess(u.loaded, s'.pos[p], n', at, online);
    assert |u.results| == |t.results| + |Returned(i, g)|;
    var later := Outlook(l, false, u.code, u.next, g').counts;
    assert Returned(i, g) + later == all[|t.results|..];
    assert later == all[|t.results|..][|Returned(i, g)|..];
  }

  lemma OwnBound(l: Layout, s: Machine, s': Machine, p: Pid, n: nat, at: set<Cell>, online: bool, all: seq<nat>)
    returns (n': nat)
    requires GoesOn(l, s, s', p) && ThreadStep(l, s, s', p) && Bound(l, s, p, n, at, online, all)
    ensures Bound(l, s', p, n', at, online, all)
  {
    var t := s.threads[p];
    if t.code != [] {
      n' := ExecuteBound(l, s, p, n, at, online, all);
      assert s' == Execute(s, p, t.code[0]);
    } else {
      var u :| s' == s.(threads := s.threads[p := u]) && Unfolds(l, p, t, u);
      var g := Guess(t.loaded, s.pos[p], n, at, online);
      n' := if t.next[0].PeekOthers? then 0 else n;
      UnfoldOutlook(l, false, p, t, u, g, g.(count := n'));
    }
  }

  lemma NextBound(l: Layout, s: Machine, s': Machine, p: Pid, n: nat, at: set<Cell>, online: bool, all: seq<nat>)
    returns (n': nat)
    requires GoesOn(l, s, s', p) && Bound(l, s, p, n, at, online, all)
    ensures Bound(l, s', p, n', at, online, all)
  {
    OthersStep(l, s, s', p);
    if Untouched(s, s', p) {
      n' := n;
    } else {
      n' := OwnBound(l, s, s', p, n, at, online, all);
    }
  }

  lemma SilentStep(l: Layout, own: bool, code: seq<Instr>, next: seq<Stage>, g: Guess)
    requires code != [] && !code[0].Return?
    ensures Outlook(l, own, code, next, g) == Outlook(l, own, code[1..], next, Ahead(own, code[0], g))
  {
    Outlook(l, own, code[1..], next, Ahead(own, code[0], g)).AfterNothing();
  }

  /** An instruction without the world lock: it does not add to a result, or starts a new one. */
  lemma AheadCountFree(l: Layout, p: Pid, i: Instr, v: Local, g: Guess, n: nat)
    requires Ok(l, p, i, v) && v.world.None? && g.loaded == v.loaded && g.pos == v.pos
    ensures !i.Return?
    ensures var w, h := After(p, i, v), Ahead(false, i, g);
            && h.loaded == w.loaded && h.pos == w.pos
            && (if i.AcquireWorld? then Ahead(false, i, g.(count := n)) == h
                else w.world.None? && Ahead(false, i, g.(count := n)) == h.(count := n))
  {
  }

  /** Between two reads it does not matter what the last one found. */
  lemma {:induction false} CountFree(l: Layout, p: Pid, code: seq<Instr>, next: seq<Stage>, v: Local, g: Guess, n: nat)
    requires Safe(l, p, code, next, v) && v.world.None? && g.loaded == v.loaded && g.pos == v.pos
    ensures Outlook(l, false, code, next, g).counts == Outlook(l, false, code, next, g.(count := n)).counts
    decreases |next|, |code|, 1
  {
    if code != [] {
      AheadCountFree(l, p, code[0], v, g, n);
      SilentStep(l, false, code, next, g);
      SilentStep(l, false, code, next, g.(count := n));
      if !code[0].AcquireWorld? {
        CountFree(l, p, code[1..], next, After(p, code[0], v), Ahead(false, code[0], g), n);
      }
    } else if next != [] {
      StageCountFree(l, p, next, v, g, n);
    }
  }

  lemma {:induction false} StageCountFree(l: Layout, p: Pid, next: seq<Stage>, v: Local, g: Guess, n: nat)
    requires next != [] && Safe(l, p, [], next, v) && v.world.None? && g.loaded == v.loaded && g.pos == v.pos
    ensures Plan(l, false, next, g).counts == Plan(l, false, next, g.(count := n)).counts
    decreases |next|, 0, 0
  {
    var stage, rest, h := next[0], next[1..], g.(count := n);
    if IsScan(stage) {
      CountFree(l, p, [], rest, v, g, n);
      assert CellsToScan(l, stage, g.loaded) * g.at == {};
    } else if !stage.PeekOthers? {
      CountFree(l, p, Unfold(l, p, stage, v.loaded), rest, v, g, n);
      AnyStageIs(l, false, p, stage, rest, g);
      AnyStageIs(l, false, p, stage, rest, h);
    }
  }

  // ---- Over a whole operation ----

  /** From state `i` to state `j` the same operation of thread `p` is under way; it may end with `j`. */
  ghost predicate UnderWay(states: seq<Machine>, i: nat, j: nat, p: Pid) {
    && i <= j < |states| && p in states[i].threads
    && forall k :: i <= k < j ==> p in states[k].threads ==> Unfinished(states[k].threads[p])
  }

  ghost predicate SameCells(s: Machine, s': Machine, q: Pid) {
    CellsOf(s', q) == CellsOf(s, q) && (q in s'.players <==> q in s.players)
  }

  /** From state `i` to state `j` player `q` stays in its grid, and in or out of the map. */
  ghost predicate Stays(states: seq<Machine>, i: nat, j: nat, q: Pid)
    requires i <= j < |states|
  {
    forall k :: i <= k <= j ==> SameCells(states[i], states[k], q)
  }

  ghost predicate SameTotal(l: Layout, s: Machine, s': Machine, p: Pid, q: Pid) {
    && p in s.threads && p in s.pos && p in s'.threads && p in s'.pos
    && Total(l, s', p, q) == Total(l, s, p, q)
  }

  lemma GoesOnAt(l: Layout, states: seq<Machine>, k: nat, p: Pid)
    requires IsExecution(l, states) && k + 1 < |states|
    requires p in states[k].threads && Unfinished(states[k].threads[p])
    ensures GoesOn(l, states[k], states[k + 1], p)
  {
    AlwaysInv(l, states, k);
    assert NextAt(l, states, k);
  }

  lemma {:induction false} RunTotal(l: Layout, states: seq<Machine>, i: nat, j: nat, p: Pid, q: Pid)
    requires IsExecution(l, states) && UnderWay(states, i, j, p) && (q != p ==> Stays(states, i, j, q))
    ensures SameTotal(l, states[i], states[j], p, q)
    decreases j
  {
    if i == j {
      AlwaysInv(l, states, i);
      assert ThreadOk(l, states[i], p);
    } else {
      RunTotal(l, states, i, j - 1, p, q);
      GoesOnAt(l, states, j - 1, p);
      if q != p {
        assert SameCells(states[i], states[j - 1], q) && SameCells(states[i], states[j], q);
      }
      NextTotal(l, states[j - 1], states[j], p, q);
    }
  }

  lemma {:induction false} RunBound(l: Layout, states: seq<Machine>, b: nat, i: nat, p: Pid, n: nat, at: set<Cell>,
                                    online: bool, all: seq<nat>) returns (n': nat)
    requires IsExecution(l, states) && UnderWay(states, b, i, p) && Bound(l, states[b], p, n, at, online, all)
    ensures Bound(l, states[i], p, n', at, online, all)
    decreases i
  {
    if b == i {
      n' := n;
    } else {
      var m := RunBound(l, states, b, i - 1, p, n, at, online, all);
      GoesOnAt(l, states, i - 1, p);
      n' := NextBound(l, states[i - 1], states[i], p, m, at, online, all);
    }
  }

  /** At state `b` thread `p` is about to start these stages. */
  ghost predicate Starts(s: Machine, p: Pid, stages: seq<Stage>) {
    && p in s.threads && p in s.pos
    && s.threads[p].code == [] && s.threads[p].next == stages && s.threads[p].results == []
  }

  /**
    The operation that starts at state `b` makes its read number `n` between the states `i`,
    where the thread does not hold the world lock, and `j`; player `q` stays in cell `c`.
   */
  ghost predicate ReadsBetween(states: seq<Machine>, b: nat, i: nat, j: nat, p: Pid, n: nat, q: Pid, c: Cell) {
    && b <= i <= j && UnderWay(states, b, j, p) && p in states[i].threads && p in states[j].threads && q != p
    && states[i].threads[p].world.None?
    && |states[i].threads[p].results| == n < |states[j].threads[p].results|
    && forall k :: i <= k <= j ==> CellsOf(states[k], q) == {c}
  }

  /** How often that read found `q` */
  function FoundBy(s: Machine, p: Pid, n: nat, q: Pid): nat
    requires p in s.threads && n < |s.threads[p].results|
  {
    s.threads[p].results[n][q]
  }

  lemma StaysInCell(l: Layout, states: seq<Machine>, i: nat, j: nat, q: Pid, c: Cell)
    requires IsExecution(l, states) && i <= j < |states| && forall k :: i <= k <= j ==> CellsOf(states[k], q) == {c}
    ensures Stays(states, i, j, q) && q in states[i].players && IsValid(l, c)
  {
    forall k | i <= k <= j
      ensures SameCells(states[i], states[k], q) && q in states[k].players && IsValid(l, c)
    {
      AlwaysInv(l, states, k);
      AlwaysInv(l, states, i);
      assert c in CellsOf(states[k], q) && c in CellsOf(states[i], q);
      InGridIsOnline(l, states[k], c);
      InGridIsOnline(l, states[i], c);
    }
  }
}
