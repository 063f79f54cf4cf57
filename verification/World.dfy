/**
  The world manager and the players: the player map with its derived index of grids, and
  the operations that update both and send incremental notices.

  Each operation runs here as a whole; the model with interleaved threads is LockModel.
  `Network` stands for all the clients' connections: what was sent on each.
 */
module World {
  import opened Containers
  import opened Geometry
  import opened Visibility
  import opened Aoi

  /** What was sent on every connection, as one value */
  datatype Traffic = Traffic(sent: Outboxes)

  class Network {
    var traffic: Traffic

    constructor ()
      ensures traffic.sent == map[]
    {
      traffic := Traffic(map[]);
    }

    /** A new connection, on which nothing has been sent */
    method Connect(pid: Pid)
      modifies this
      ensures traffic.sent == old(traffic.sent)[pid := []]
    {
      traffic := Traffic(traffic.sent[pid := []]);
    }

    method Deliver(to: Pid, m: Message)
      requires to in traffic.sent
      modifies this
      ensures traffic.sent == Send(old(traffic.sent), to, m)
    {
      traffic := Traffic(traffic.sent[to := traffic.sent[to] + [m]]);
    }
  }

  /** operator[] of a counting map: a missing key counts 0. */
  function At<G>(count: map<G, int>, g: G): int {
    if g in count then count[g] else 0
  }

  function Sign(b: bool): int {
    if b then 1 else 0
  }

  /** The counting map of a crossing: +1 for each grid of the old neighbourhood, -1 for each of the new */
  method CountGrids<G(==)>(before: seq<G>, after: seq<G>) returns (count: map<G, int>)
    requires Distinct(before) && Distinct(after)
    ensures count.Keys == Elements(before) + Elements(after)
    ensures forall g :: g in count ==> count[g] == Sign(g in before) - Sign(g in after)
  {
    count := map[];
    for i := 0 to |before|
      invariant count.Keys == Elements(before[..i])
      invariant forall g :: g in count ==> count[g] == 1
    {
      ElementsNext(before, i);
      count := count[before[i] := At(count, before[i]) + 1];
    }
    assert before[..|before|] == before;
    for i := 0 to |after|
      invariant count.Keys == Elements(before) + Elements(after[..i])
      invariant forall g :: g in count ==> count[g] == Sign(g in before) - Sign(g in Elements(after[..i]))
    {
      ElementsNext(after, i);
      count := count[after[i] := At(count, after[i]) - 1];
    }
    assert after[..|after|] == after;
  }

  /**
    The counting map, walked in any order, gives the difference of the two
    neighbourhoods each way, each grid once.
   */
  method CrossingDelta<G(==)>(before: seq<G>, after: seq<G>) returns (gone: seq<G>, come: seq<G>)
    requires Distinct(before) && Distinct(after)
    ensures Enumerates(gone, Elements(before) - Elements(after))
    ensures Enumerates(come, Elements(after) - Elements(before))
  {
    var count := CountGrids(before, after);
    var keys := Walk(count.Keys);
    gone, come := [], [];
    for i := 0 to |keys|
      invariant Enumerates(gone, Counted(keys[..i], count, 1))
      invariant Enumerates(come, Counted(keys[..i], count, -1))
    {
      var g := keys[i];
      assert g in count.Keys;
      CountedNext(keys, i, count, 1);
      CountedNext(keys, i, count, -1);
      if count[g] == 1 {
        EnumeratesNext(gone, Counted(keys[..i], count, 1), g);
        gone := gone + [g];
      } else if count[g] == -1 {
        EnumeratesNext(come, Counted(keys[..i], count, -1), g);
        come := come + [g];
      }
    }
    assert keys[..|keys|] == keys;
    assert Counted(keys, count, 1) == Elements(before) - Elements(after);
    assert Counted(keys, count, -1) == Elements(after) - Elements(before);
  }

  ghost function Counted<G>(keys: seq<G>, count: map<G, int>, n: int): set<G> {
    set g | g in keys && g in count && count[g] == n
  }

  lemma CountedNext<G>(keys: seq<G>, i: nat, count: map<G, int>, n: int)
    requires i < |keys| && Distinct(keys) && keys[i] in count
    ensures keys[i] !in Counted(keys[..i], count, n)
    ensures Counted(keys[..i + 1], count, n)
         == Counted(keys[..i], count, n) + if count[keys[i]] == n then {keys[i]} else {}
  {
    assert keys[..i + 1] == keys[..i] + [keys[i]];
  }

  function PidsOf(players: seq<Player>): (pids: seq<Pid>)
    ensures |pids| == |players|
  {
    seq(|players|, i requires 0 <= i < |players| => players[i].pid)
  }

  predicate OnNetwork(players: seq<Player>, net: Network) {
    forall i :: 0 <= i < |players| ==> players[i].net == net
  }

  /** One packet to each of some players */
  method SendToEach(targets: seq<Player>, m: Message, net: Network)
    requires OnNetwork(targets, net) && AllIn(PidsOf(targets), net.traffic.sent)
    modifies net
    ensures net.traffic.sent == SendEach(old(net.traffic.sent), PidsOf(targets), m)
  {
    ghost var before, pids := net.traffic.sent, PidsOf(targets);
    for i := 0 to |targets|
      invariant net.traffic.sent == SendEach(before, pids[..i], m)
    {
      assert pids[..i + 1][..i] == pids[..i] && pids[i] in before;
      targets[i].SendPacket(m);
    }
    assert pids[..|targets|] == pids;
  }

  class Player {
    const pid: Pid
    const net: Network
    var pos: Position

    constructor (pid: Pid, net: Network, pos: Position)
      ensures this.pid == pid && this.net == net && this.pos == pos
    {
      this.pid := pid;
      this.net := net;
      this.pos := pos;
    }

    method SendPacket(m: Message)
      requires pid in net.traffic.sent
      modifies net
      ensures net.traffic.sent == Send(old(net.traffic.sent), pid, m)
    {
      net.Deliver(pid, m);
    }

    method SendPid()
      requires pid in net.traffic.sent
      modifies net
      ensures net.traffic.sent == Send(old(net.traffic.sent), pid, SyncPid(pid))
    {
      SendPacket(SyncPid(pid));
    }

    /** This player's position to some players, and the list of theirs */
    method IntroduceTo(others: seq<Player>, ghost online: map<Pid, Position>) returns (infos: seq<Info>)
      requires OnNetwork(others, net) && AllIn(PidsOf(others), net.traffic.sent)
      requires AllOnline(PidsOf(others), online)
      requires forall i :: 0 <= i < |others| ==> online[PidsOf(others)[i]] == others[i].pos
      modifies net
      ensures net.traffic.sent == SendEach(old(net.traffic.sent), PidsOf(others), Appear(pid, pos))
      ensures infos == Infos(online, PidsOf(others))
    {
      ghost var before, pids := net.traffic.sent, PidsOf(others);
      infos := [];
      for i := 0 to |others|
        invariant net.traffic.sent == SendEach(before, pids[..i], Appear(pid, pos))
        invariant infos == Infos(online, pids)[..i]
      {
        assert pids[..i + 1][..i] == pids[..i] && pids[i] in before;
        assert Infos(online, pids)[i] == Info(others[i].pid, others[i].pos);
        others[i].SendPacket(Appear(pid, pos));
        infos := infos + [Info(others[i].pid, others[i].pos)];
      }
      assert pids[..|others|] == pids;
    }

    method Synchronise(others: seq<Player>, ghost online: map<Pid, Position>, ghost visible: set<Pid>)
      requires OnNetwork(others, net) && AllIn(PidsOf(others), net.traffic.sent)
      requires AllOnline(PidsOf(others), online) && Enumerates(PidsOf(others), visible)
      requires forall i :: 0 <= i < |others| ==> online[PidsOf(others)[i]] == others[i].pos
      requires pid in net.traffic.sent
      modifies net
      ensures net.traffic.sent == Send(Broadcast(old(net.traffic.sent), visible, Appear(pid, pos)),
                                       pid, SyncPlayers(Infos(online, PidsOf(others))))
    {
      SendEachIsBroadcast(net.traffic.sent, PidsOf(others), visible, Appear(pid, pos));
      var infos := IntroduceTo(others, online);
      SendPacket(SyncPlayers(infos));
    }

    /** This player's position to everybody around and to itself, then all of theirs to its client */
    method SyncWithSurrounding(wm: WorldManager) returns (ghost order: seq<Pid>)
      requires wm.Knows(this) && wm.AllConnected()
      modifies net
      ensures var visible := Visible(wm.aoi.layout, wm.Online(), pid);
              && Enumerates(order, visible) && AllOnline(order, wm.Online())
              && pid in old(net.traffic.sent)
              && net.traffic.sent == Send(Broadcast(old(net.traffic.sent), visible, Appear(pid, pos)),
                                  pid, SyncPlayers(Infos(wm.Online(), order)))
    {
      var surrounding := wm.GetSurroundingPlayers(pid);
      order := PidsOf(surrounding);
      Synchronise(surrounding, wm.Online(), Visible(wm.aoi.layout, wm.Online(), pid));
    }

    /** A leave of this player to everybody around, itself included */
    method Disappear(wm: WorldManager)
      requires wm.Knows(this) && wm.AllConnected()
      modifies net
      ensures net.traffic.sent == Broadcast(old(net.traffic.sent), Visible(wm.aoi.layout, wm.Online(), pid), Leave(pid))
    {
      var surrounding := wm.GetSurroundingPlayers(pid);
      SendEachIsBroadcast(net.traffic.sent, PidsOf(surrounding), Visible(wm.aoi.layout, wm.Online(), pid), Leave(pid));
      SendToEach(surrounding, Leave(pid), net);
    }

    method WorldChat(content: string, wm: WorldManager)
      requires wm.Knows(this) && wm.AllConnected()
      modifies net
      ensures net.traffic.sent == Broadcast(old(net.traffic.sent), wm.players.Keys, Talk(pid, content))
    {
      var all := wm.GetAllPlayers();
      SendEachIsBroadcast(net.traffic.sent, PidsOf(all), wm.players.Keys, Talk(pid, content));
      SendToEach(all, Talk(pid, content), net);
    }

    /** Leaves both ways with the players of some grids */
    method PartFrom(grids: seq<Grid>, wm: WorldManager) returns (ghost gone: seq<Pid>)
      requires wm.Knows(this) && wm.AllConnected() && Distinct(grids) && Elements(grids) <= wm.aoi.grids
      modifies net
      ensures Enumerates(gone, Occupants(Elements(grids)))
      ensures pid in old(net.traffic.sent) && AllIn(gone, old(net.traffic.sent))
      ensures net.traffic.sent == LeaveBoth(old(net.traffic.sent), pid, gone)
    {
      var others := wm.GetAllPlayersOf(grids);
      gone := PidsOf(others);
      SendLeaves(others);
    }

    method SendLeaves(others: seq<Player>)
      requires pid in net.traffic.sent && OnNetwork(others, net) && AllIn(PidsOf(others), net.traffic.sent)
      modifies net
      ensures net.traffic.sent == LeaveBoth(old(net.traffic.sent), pid, PidsOf(others))
    {
      ghost var before, pids := net.traffic.sent, PidsOf(others);
      for i := 0 to |others|
        invariant net.traffic.sent == LeaveBoth(before, pid, pids[..i])
      {
        assert pids[..i + 1][..i] == pids[..i] && pids[i] in before;
        others[i].SendPacket(Leave(pid));
        SendPacket(Leave(others[i].pid));
      }
      assert pids[..|others|] == pids;
    }

    /** Appearances both ways with the players of some grids, which may include this one */
    method MeetWith(grids: seq<Grid>, wm: WorldManager) returns (ghost come: seq<Pid>)
      requires wm.Knows(this) && wm.AllConnected() && Distinct(grids) && Elements(grids) <= wm.aoi.grids
      modifies net
      ensures Enumerates(come, Occupants(Elements(grids)))
      ensures pid in old(net.traffic.sent) && AllIn(come, old(net.traffic.sent)) && AllOnline(come, wm.Online())
      ensures net.traffic.sent == AppearBoth(old(net.traffic.sent), wm.Online(), pid, come)
    {
      var others := wm.GetAllPlayersOf(grids);
      come := PidsOf(others);
      SendAppearances(others, wm.Online());
    }

    method SendAppearances(others: seq<Player>, ghost online: map<Pid, Position>)
      requires pid in net.traffic.sent && OnNetwork(others, net) && AllIn(PidsOf(others), net.traffic.sent)
      requires pid in online && online[pid] == pos && AllOnline(PidsOf(others), online)
      requires forall i :: 0 <= i < |others| ==> online[PidsOf(others)[i]] == others[i].pos
      modifies net
      ensures net.traffic.sent == AppearBoth(old(net.traffic.sent), online, pid, PidsOf(others))
    {
      ghost var before, pids := net.traffic.sent, PidsOf(others);
      for i := 0 to |others|
        invariant net.traffic.sent == AppearBoth(before, online, pid, pids[..i])
      {
        assert pids[..i + 1][..i] == pids[..i] && pids[i] in before && pids[i] in online;
        others[i].SendPacket(Appear(pid, pos));
        SendPacket(Appear(others[i].pid, others[i].pos));
      }
      assert pids[..|others|] == pids;
    }

    /**
      Out of sight of those only near the old position, into sight of those only near the
      new one. The index already has this player at the new position.
     */
    method HandleCrossedGrid(oldPos: Position, newPos: Position, wm: WorldManager)
      returns (ghost gone: seq<Pid>, ghost come: seq<Pid>)
      requires wm.Knows(this) && wm.AllConnected() && pos == newPos
      modifies net
      ensures CrossOrders(wm.aoi.layout, old(net.traffic.sent), wm.Online(), pid, oldPos, gone, come)
      ensures net.traffic.sent == AppearBoth(LeaveBoth(old(net.traffic.sent), pid, gone), wm.Online(), pid, come)
    {
      ghost var before, l, online := net.traffic.sent, wm.aoi.layout, wm.Online();
      var disappeared, nascent := wm.CrossedGrids(oldPos, newPos);
      gone := PartFrom(disappeared, wm);
      assert wm.Online() == online;
      assert Occupants(Elements(nascent)) == OnlyNear(l, online, newPos, oldPos);
      come := MeetWith(nascent, wm);
      CrossOrdersIntro(l, before, online, pid, oldPos, gone, come);
    }

    /** Without a crossing nobody is told of one, and nobody would have to be. */
    method NoticeCrossing(crossed: bool, oldPos: Position, newPos: Position, wm: WorldManager)
      returns (ghost gone: seq<Pid>, ghost come: seq<Pid>)
      requires wm.Knows(this) && wm.AllConnected() && pos == newPos
      requires crossed <==> CellOf(wm.aoi.layout, oldPos) != CellOf(wm.aoi.layout, newPos)
      modifies net
      ensures CrossOrders(wm.aoi.layout, old(net.traffic.sent), wm.Online(), pid, oldPos, gone, come)
      ensures net.traffic.sent == AppearBoth(LeaveBoth(old(net.traffic.sent), pid, gone), wm.Online(), pid, come)
    {
      gone, come := [], [];
      if crossed {
        gone, come := HandleCrossedGrid(oldPos, newPos, wm);
      } else {
        wm.SameCell(oldPos, newPos);
      }
    }

    /** The new position and, across a cell border, the index */
    method Relocate(newPos: Position, wm: WorldManager) returns (crossed: bool)
      requires wm.Knows(this) && OnMap(wm.aoi.layout, newPos)
      modifies this`pos, wm.aoi.grids
      ensures wm.Valid() && wm.players == old(wm.players) && pos == newPos
      ensures wm.Online() == old(wm.Online())[pid := newPos]
      ensures crossed <==> CellOf(wm.aoi.layout, old(pos)) != CellOf(wm.aoi.layout, newPos)
    {
      assert wm.PlayerOk(pid);
      var oldPos := pos;
      pos := newPos;
      var oldGrid := wm.aoi.GetGridByPosition(oldPos);
      var newGrid := wm.aoi.GetGridByPosition(newPos);
      crossed := oldGrid != newGrid;
      if crossed {
        assert old(wm.IndexOk(oldGrid, pid)) && old(wm.IndexOk(newGrid, pid));
        assert wm.aoi.OnItsCell(oldGrid) && wm.aoi.OnItsCell(newGrid);
        oldGrid.RemovePlayer(pid);
        newGrid.AddNewPlayer(pid);
      }
      forall p
        ensures wm.PlayerOk(p)
      {
        assert old(wm.PlayerOk(p));
      }
      forall g, p | g in wm.aoi.grids
        ensures wm.IndexOk(g, p)
      {
        assert old(wm.IndexOk(g, p)) && old(wm.PlayerOk(p));
        assert wm.aoi.OnItsCell(g);
      }
      forall q | q in wm.players
        ensures wm.Online()[q] == old(wm.Online())[pid := newPos][q]
      {
        assert wm.PlayerOk(q);
      }
    }

    /** This player's move to everybody around, itself included */
    method AnnounceMove(wm: WorldManager)
      requires wm.Knows(this) && wm.AllConnected()
      modifies net
      ensures net.traffic.sent == Broadcast(old(net.traffic.sent), Visible(wm.aoi.layout, wm.Online(), pid), Move(pid, pos))
    {
      var surrounding := wm.GetSurroundingPlayers(pid);
      SendEachIsBroadcast(net.traffic.sent, PidsOf(surrounding), Visible(wm.aoi.layout, wm.Online(), pid), Move(pid, pos));
      SendToEach(surrounding, Move(pid, pos), net);
    }

    /** The notices of the crossing, if any, then the move, which began in `before` */
    method NotifyMove(crossed: bool, oldPos: Position, newPos: Position, wm: WorldManager, ghost before: State)
      requires wm.Knows(this) && wm.AllConnected() && pos == newPos && OnMap(wm.aoi.layout, newPos)
      requires crossed <==> CellOf(wm.aoi.layout, oldPos) != CellOf(wm.aoi.layout, newPos)
      requires pid in before.online && before.online[pid] == oldPos && Connected(before)
      requires before.sent == net.traffic.sent && wm.Online() == before.online[pid := newPos]
      modifies net
      ensures MoveStep(wm.aoi.layout, before, wm.Now(), pid, newPos)
    {
      ghost var l, online := wm.aoi.layout, wm.Online();
      ghost var gone, come := NoticeCrossing(crossed, oldPos, newPos, wm);
      ghost var mid := net.traffic.sent;
      assert wm.Online() == online;
      AnnounceMove(wm);
      MoveSendsIntro(l, before.sent, State(online, net.traffic.sent), pid, oldPos, gone, come, mid);
      MoveStepIntro(l, before, State(online, net.traffic.sent), pid, newPos, gone, come);
    }

    /** The position first, then the index, then the notices */
    method UpdatePos(newPos: Position, wm: WorldManager)
      requires wm.Knows(this) && wm.AllConnected() && OnMap(wm.aoi.layout, newPos)
      modifies this`pos, wm.aoi.grids, net
      ensures wm.Valid() && wm.players == old(wm.players)
      ensures MoveStep(wm.aoi.layout, old(wm.Now()), wm.Now(), pid, newPos)
    {
      var oldPos := pos;
      ghost var before := wm.Now();
      var crossed := Relocate(newPos, wm);
      NotifyMove(crossed, oldPos, newPos, wm, before);
    }
  }

  lemma CrossOrdersIntro(l: Layout, sent: Outboxes, online: map<Pid, Position>, p: Pid, from: Position,
                         gone: seq<Pid>, come: seq<Pid>)
    requires p in online && p in sent && AllIn(gone, sent) && AllIn(come, LeaveBoth(sent, p, gone)) && AllOnline(come, online)
    requires Enumerates(gone, OnlyNear(l, online, from, online[p]))
    requires Enumerates(come, OnlyNear(l, online, online[p], from))
    ensures CrossOrders(l, sent, online, p, from, gone, come)
  {
  }

  lemma MoveSendsIntro(l: Layout, sent: Outboxes, s': State, p: Pid, from: Position, gone: seq<Pid>, come: seq<Pid>,
                       mid: Outboxes)
    requires p in s'.online && CrossOrders(l, sent, s'.online, p, from, gone, come)
    requires mid == AppearBoth(LeaveBoth(sent, p, gone), s'.online, p, come)
    requires s'.sent == Broadcast(mid, Visible(l, s'.online, p), Move(p, s'.online[p]))
    ensures MoveSends(l, sent, s', p, from, gone, come)
  {
  }

  lemma MoveStepIntro(l: Layout, s: State, s': State, p: Pid, to: Position, gone: seq<Pid>, come: seq<Pid>)
    requires p in s.online && OnMap(l, to) && Connected(s) && s'.online == s.online[p := to]
    requires MoveSends(l, s.sent, s', p, s.online[p], gone, come)
    ensures MoveStep(l, s, s', p, to)
  {
  }

  class WorldManager {
    const aoi: AoiManager
    ghost const net: Network
    var players: map<Pid, Player>

    ghost predicate PlayerOk(p: Pid)
      reads this, players.Values
    {
      p in players ==> players[p].pid == p && players[p].net == net && OnMap(aoi.layout, players[p].pos)
    }

    /** A grid holds a player exactly when the player is online and its position is in the cell. */
    ghost predicate IndexOk(g: Grid, p: Pid)
      reads this, players.Values, g
    {
      p in g.players <==> p in players && CellOf(aoi.layout, players[p].pos) == g.cell
    }

    /** Every grid holds exactly the online players whose position falls in its cell. */
    ghost predicate Valid()
      reads this, players.Values, aoi.grids
    {
      && aoi.Valid()
      && (forall p :: PlayerOk(p))
      && (forall g, p {:trigger IndexOk(g, p)} :: g in aoi.grids ==> IndexOk(g, p))
    }

    /** This player is the one the world knows under its id. */
    ghost predicate Knows(player: Player)
      reads this, players.Values, aoi.grids
    {
      Valid() && player.net == net && player.pid in players && players[player.pid] == player
    }

    /** Every online player has a connection. */
    ghost predicate AllConnected()
      reads this, net
    {
      players.Keys <= net.traffic.sent.Keys
    }

    ghost function Online(): map<Pid, Position>
      reads this, players.Values
    {
      map p | p in players :: players[p].pos
    }

    ghost function Now(): State
      reads this, players.Values, net
    {
      State(Online(), net.traffic.sent)
    }

    constructor (worldLength: nat, worldWidth: nat, cellSize: Size, ghost net: Network)
      ensures Valid() && this.net == net && fresh(aoi) && fresh(aoi.grids)
      ensures aoi.layout == Layout(cellSize, worldLength / cellSize, worldWidth / cellSize)
      ensures players == map[]
    {
      aoi := new AoiManager(worldLength, worldWidth, cellSize);
      this.net := net;
      players := map[];
    }

    predicate HasPlayer(pid: Pid)
      reads this
    {
      pid in players
    }

    function GetPlayerByPid(pid: Pid): Player
      reads this
      requires HasPlayer(pid)
    {
      players[pid]
    }

    /** The map first, then the grid of the player's position */
    method AddPlayer(player: Player)
      requires Valid() && !HasPlayer(player.pid)
      requires player.net == net && OnMap(aoi.layout, player.pos)
      modifies this, aoi.grids
      ensures Valid() && players == old(players)[player.pid := player]
      ensures Online() == old(Online())[player.pid := player.pos]
    {
      players := players[player.pid := player];
      var grid := aoi.GetGridByPosition(player.pos);
      assert old(IndexOk(grid, player.pid));
      grid.AddNewPlayer(player.pid);
      forall p
        ensures PlayerOk(p)
      {
        assert old(PlayerOk(p));
      }
      forall g, p | g in aoi.grids
        ensures IndexOk(g, p)
      {
        assert old(IndexOk(g, p)) && aoi.OnItsCell(g);
      }
    }

    method RemovePlayerByPid(pid: Pid)
      requires Valid() && HasPlayer(pid)
      modifies this, aoi.grids
      ensures Valid() && players == old(players) - {pid}
      ensures Online() == old(Online()) - {pid}
    {
      var target := players[pid];
      assert PlayerOk(pid);
      var grid := aoi.GetGridByPosition(target.pos);
      assert IndexOk(grid, pid);
      grid.RemovePlayer(pid);
      players := players - {pid};
      forall p
        ensures PlayerOk(p)
      {
        assert old(PlayerOk(p));
      }
      forall g, p | g in aoi.grids
        ensures IndexOk(g, p)
      {
        assert old(IndexOk(g, p)) && aoi.OnItsCell(g);
      }
    }

    /** `result` holds the players with these ids, each once. */
    ghost predicate Resolves(result: seq<Player>, pids: set<Pid>)
      reads this
    {
      && Enumerates(PidsOf(result), pids) && OnNetwork(result, net)
      && forall i :: 0 <= i < |result| ==> PidsOf(result)[i] in players && players[PidsOf(result)[i]] == result[i]
    }

    /** The lookups of a list of ids */
    method Resolve(pids: seq<Pid>) returns (result: seq<Player>)
      requires Valid() && forall i :: 0 <= i < |pids| ==> HasPlayer(pids[i])
      ensures PidsOf(result) == pids && OnNetwork(result, net)
      ensures forall i :: 0 <= i < |result| ==> pids[i] in players && players[pids[i]] == result[i]
    {
      result := [];
      for i := 0 to |pids|
        invariant |result| == i
        invariant forall k :: 0 <= k < i ==> result[k].pid == pids[k] && result[k].net == net && players[pids[k]] == result[k]
      {
        assert PlayerOk(pids[i]);
        result := result + [GetPlayerByPid(pids[i])];
      }
    }

    method GetAllPlayers() returns (result: seq<Player>)
      requires Valid()
      ensures Resolves(result, players.Keys)
    {
      var pids := Walk(players.Keys);
      forall i | 0 <= i < |pids|
        ensures pids[i] in players
      {
        assert pids[i] in pids;
      }
      result := Resolve(pids);
    }

    /** The grid a player stands in */
    ghost function GridOf(pid: Pid): (g: Grid)
      requires Valid() && HasPlayer(pid)
      reads this, players.Values, aoi.grids
      ensures g in aoi.grids && g.cell == CellOf(aoi.layout, players[pid].pos)
    {
      assert PlayerOk(pid);
      aoi.GetGridByPosition(players[pid].pos)
    }

    /** A player is in the grid it stands in and in no other. */
    lemma InGrid(g: Grid, pid: Pid)
      requires Valid() && g in aoi.grids
      ensures pid in g.players <==> HasPlayer(pid) && GridOf(pid) == g
    {
      assert IndexOk(g, pid);
      assert aoi.OnItsCell(g);
      if HasPlayer(pid) {
        assert aoi.OnItsCell(GridOf(pid));
      }
    }

    /** Who is in some grids, by position */
    lemma OccupantsByPosition(grids: set<Grid>)
      requires Valid() && grids <= aoi.grids
      ensures Occupants(grids) == set p | HasPlayer(p) && p in players && GridOf(p) in grids
    {
      forall p
        ensures p in Occupants(grids) <==> HasPlayer(p) && GridOf(p) in grids
      {
        if p in Occupants(grids) {
          var g :| g in grids && p in g.players;
          InGrid(g, p);
        }
        if HasPlayer(p) {
          InGrid(GridOf(p), p);
        }
      }
    }

    lemma GridsDisjoint()
      requires Valid()
      ensures forall g, h :: g in aoi.grids && h in aoi.grids && g != h ==> g.players !! h.players
    {
      forall g, h, p | g in aoi.grids && h in aoi.grids && p in g.players && p in h.players
        ensures g == h
      {
        InGrid(g, p);
        InGrid(h, p);
      }
    }

    lemma OneGrid(g: Grid)
      ensures Occupants({g}) == g.players
    {
      forall p
        ensures p in Occupants({g}) <==> p in g.players
      {
        if p in g.players {
          assert g in {g};
        }
      }
    }

    lemma OccupantsOnline(pids: seq<Pid>, grids: set<Grid>)
      requires Valid() && grids <= aoi.grids && Enumerates(pids, Occupants(grids))
      ensures forall i :: 0 <= i < |pids| ==> HasPlayer(pids[i])
    {
      OccupantsByPosition(grids);
      forall i | 0 <= i < |pids|
        ensures HasPlayer(pids[i])
      {
        assert pids[i] in pids;
      }
    }

    /** The players of the given grids */
    method GetAllPlayersOf(grids: seq<Grid>) returns (result: seq<Player>)
      requires Valid() && Distinct(grids) && Elements(grids) <= aoi.grids
      ensures Resolves(result, Occupants(Elements(grids)))
    {
      GridsDisjoint();
      result := [];
      for i := 0 to |grids|
        invariant Resolves(result, Occupants(Prefix(grids, i)))
      {
        var pids := grids[i].GetAllPlayers();
        assert grids[i] in Elements(grids);
        OneGrid(grids[i]);
        OccupantsOnline(pids, {grids[i]});
        var more := Resolve(pids);
        NextGrid(grids, i, PidsOf(result), pids);
        assert PidsOf(result + more) == PidsOf(result) + pids;
        result := result + more;
      }
      assert Prefix(grids, |grids|) == Elements(grids);
    }

    /** The index gives what a scan over all players would. */
    method GetSurroundingPlayers(pid: Pid) returns (result: seq<Player>)
      requires Valid() && HasPlayer(pid)
      ensures Resolves(result, Visible(aoi.layout, Online(), pid))
    {
      var target := GetPlayerByPid(pid);
      GridsDisjoint();
      var pids := aoi.GetSurroundingPlayersByPid(target.pos);
      SurroundingsAreVisible(pid);
      OccupantsOnline(pids, aoi.Around(CellOf(aoi.layout, target.pos)));
      result := Resolve(pids);
    }

    lemma SurroundingsAreVisible(pid: Pid)
      requires Valid() && HasPlayer(pid)
      ensures Occupants(aoi.Around(CellOf(aoi.layout, players[pid].pos))) == Visible(aoi.layout, Online(), pid)
    {
      var l, online, center := aoi.layout, Online(), CellOf(aoi.layout, players[pid].pos);
      OccupantsByPosition(aoi.Around(center));
      forall p
        ensures p in Occupants(aoi.Around(center)) <==> p in Visible(l, online, pid)
      {
        if HasPlayer(p) {
          assert GridOf(p) in aoi.Around(center) <==> Near(l, online[pid], online[p]);
        }
      }
    }

    /** The grids that drop out of the neighbourhood and those that come into it */
    method CrossedGrids(oldPos: Position, newPos: Position) returns (disappeared: seq<Grid>, nascent: seq<Grid>)
      requires Valid()
      ensures Distinct(disappeared) && Elements(disappeared) <= aoi.grids
      ensures Distinct(nascent) && Elements(nascent) <= aoi.grids
      ensures Occupants(Elements(disappeared)) == OnlyNear(aoi.layout, Online(), oldPos, newPos)
      ensures Occupants(Elements(nascent)) == OnlyNear(aoi.layout, Online(), newPos, oldPos)
    {
      var oldGrids := aoi.GetSudokuByPosition(oldPos);
      var newGrids := aoi.GetSudokuByPosition(newPos);
      disappeared, nascent := CrossingDelta(oldGrids, newGrids);
      DifferenceIsOnlyNear(oldGrids, newGrids, oldPos, newPos, disappeared);
      DifferenceIsOnlyNear(newGrids, oldGrids, newPos, oldPos, nascent);
    }

    /** The grids of one neighbourhood and not of the other hold the players near only the one. */
    lemma DifferenceIsOnlyNear(here: seq<Grid>, there: seq<Grid>, a: Position, b: Position, difference: seq<Grid>)
      requires Valid()
      requires Enumerates(here, aoi.Around(CellOf(aoi.layout, a)))
      requires Enumerates(there, aoi.Around(CellOf(aoi.layout, b)))
      requires Enumerates(difference, Elements(here) - Elements(there))
      ensures Elements(difference) <= aoi.grids
      ensures Occupants(Elements(difference)) == OnlyNear(aoi.layout, Online(), a, b)
    {
      var l := aoi.layout;
      EnumeratedElements(here, aoi.Around(CellOf(l, a)));
      EnumeratedElements(there, aoi.Around(CellOf(l, b)));
      var grids := aoi.Around(CellOf(l, a)) - aoi.Around(CellOf(l, b));
      EnumeratedElements(difference, grids);
      OccupantsByPosition(grids);
      forall p
        ensures p in Occupants(grids) <==> p in OnlyNear(l, Online(), a, b)
      {
        if HasPlayer(p) {
          assert GridOf(p) in aoi.Around(CellOf(l, a)) <==> Near(l, a, players[p].pos);
          assert GridOf(p) in aoi.Around(CellOf(l, b)) <==> Near(l, b, players[p].pos);
        }
      }
    }

    lemma SameCell(a: Position, b: Position)
      requires CellOf(aoi.layout, a) == CellOf(aoi.layout, b)
      ensures OnlyNear(aoi.layout, Online(), a, b) == {} && OnlyNear(aoi.layout, Online(), b, a) == {}
    {
      assert forall q :: Near(aoi.layout, a, q) == Near(aoi.layout, b, q);
    }
  }
}
