/**
  The game server's callbacks: joining, leaving, moving and chatting, each as a whole.

  The ghost fields record the run of operations so far; the class invariant ties the
  world and the connections to the end of a run of the visibility protocol, so every
  theorem about runs holds of the objects at all times.
 */
module MmoServer {
  import opened Geometry
  import opened Visibility
  import opened Agreement
  import opened Delivery
  import opened Discipline
  import opened PlayerIds
  import opened World

  class GameServer {
    const net: Network
    const wm: WorldManager
    var nextPid: Pid
    ghost var issued: nat
    ghost var states: seq<State>
    ghost var ops: seq<Op>

    /** The recorded run ends in the world as it is. */
    ghost predicate Running()
      reads this, net, wm, wm.players.Values, wm.aoi.grids
    {
      && wm.net == net && wm.Valid() && wm.AllConnected()
      && IsRun(wm.aoi.layout, states, ops)
      && states[|ops|] == wm.Now()
    }

    ghost predicate Valid()
      reads this, net, wm, wm.players.Values, wm.aoi.grids
    {
      && Running()
      && nextPid == PidAt(issued)
      && AllIssued(issued, wm.players.Keys)
    }

    constructor (worldLength: nat, worldWidth: nat, cellSize: Size)
      ensures Valid() && fresh(net) && fresh(wm) && fresh(wm.aoi.grids)
      ensures wm.aoi.layout == Layout(cellSize, worldLength / cellSize, worldWidth / cellSize)
      ensures ops == [] && nextPid == 1
    {
      var network := new Network();
      net := network;
      wm := new WorldManager(worldLength, worldWidth, cellSize, network);
      nextPid := 1;
      issued := 0;
      states := [INITIAL];
      ops := [];
    }

    /** Until 2^32 players have joined, AddPlayer's assertion that the id is new holds. */
    lemma NextPidIsNew()
      requires Valid() && issued < 0x1_0000_0000
      ensures nextPid !in wm.players
    {
      if nextPid in wm.players {
        assert IsIssued(issued, nextPid);
        var i :| 0 <= i < issued && PidAt(i) == nextPid;
        PidsFresh(i, issued);
      }
    }

    /**
      Whatever operations have been carried out, every online client's picture is the
      brute-force one, and everything it was told of others came in legal order.
     */
    lemma ClientsAreRight()
      requires Valid()
      ensures AllAgree(wm.aoi.layout, wm.Now())
      ensures Disciplined(wm.aoi.layout, wm.Now())
    {
      ViewAgreement(wm.aoi.layout, states, ops);
      TraceDiscipline(wm.aoi.layout, states, ops);
    }

    ghost method Record(op: Op)
      requires wm.net == net && wm.Valid() && wm.AllConnected()
      requires IsRun(wm.aoi.layout, states, ops)
      requires Step(wm.aoi.layout, states[|ops|], wm.Now(), op)
      modifies this`states, this`ops
      ensures Running() && ops == old(ops) + [op]
      ensures wm.players == old(wm.players) && wm.Now() == old(wm.Now())
    {
      RunExtended(wm.aoi.layout, states, ops, wm.Now(), op);
      states := states + [wm.Now()];
      ops := ops + [op];
    }

    /** The callback on a new connection */
    method InitPlayer(pos: Position) returns (pid: Pid)
      requires Valid() && OnMap(wm.aoi.layout, pos) && nextPid !in wm.players
      modifies this, net, wm, wm.aoi.grids
      ensures Valid() && pid == old(nextPid)
      ensures nextPid == if pid == 0x7fff_ffff then -0x8000_0000 else pid + 1
      ensures ops == old(ops) + [Join(pid, pos)]
      ensures JoinTold(wm.aoi.layout, old(wm.Now()), wm.Now(), pid, pos)
    {
      IssueNext(issued, wm.players.Keys);
      pid := nextPid;
      nextPid := Next32(nextPid);
      issued := issued + 1;
      JoinWorld(pid, pos);
    }

    method JoinWorld(pid: Pid, pos: Position)
      requires Running() && OnMap(wm.aoi.layout, pos) && pid !in wm.players
      modifies this`states, this`ops, net, wm, wm.aoi.grids
      ensures Running() && wm.players.Keys == old(wm.players.Keys) + {pid}
      ensures ops == old(ops) + [Join(pid, pos)]
      ensures JoinTold(wm.aoi.layout, old(wm.Now()), wm.Now(), pid, pos)
    {
      EnterWorld(pid, pos);
      JoinTells(wm.aoi.layout, states[|ops|], wm.Now(), pid, pos);
      Record(Join(pid, pos));
    }

    /** The player is put in the world, told its id, and synchronised with its surroundings. */
    method EnterWorld(pid: Pid, pos: Position)
      requires wm.net == net && wm.Valid() && wm.AllConnected()
      requires OnMap(wm.aoi.layout, pos) && pid !in wm.players
      modifies net, wm, wm.aoi.grids
      ensures wm.Valid() && wm.AllConnected() && wm.players.Keys == old(wm.players.Keys) + {pid}
      ensures JoinStep(wm.aoi.layout, old(wm.Now()), wm.Now(), pid, pos)
    {
      ghost var before := wm.Now();
      var p := Admit(pid, pos);
      ghost var online, keys := wm.Online(), wm.players.Keys;
      ghost var order := p.SyncWithSurrounding(wm);
      assert wm.Online() == online && wm.players.Keys == keys;
      JoinStepIntro(wm.aoi.layout, before, State(online, net.traffic.sent), pid, pos, order);
    }

    /** The new connection's player, in the map and the index; its client knows its id. */
    method Admit(pid: Pid, pos: Position) returns (p: Player)
      requires wm.net == net && wm.Valid() && wm.AllConnected()
      requires OnMap(wm.aoi.layout, pos) && pid !in wm.players
      modifies net, wm, wm.aoi.grids
      ensures wm.Knows(p) && p.pid == pid && p.pos == pos && wm.AllConnected()
      ensures wm.players == old(wm.players)[pid := p]
      ensures wm.Online() == old(wm.Online())[pid := pos]
      ensures net.traffic.sent == old(net.traffic.sent)[pid := [SyncPid(pid)]]
    {
      ghost var sent := net.traffic.sent;
      net.Connect(pid);
      p := new Player(pid, net, pos);
      wm.AddPlayer(p);
      p.SendPid();
      assert [] + [SyncPid(pid)] == [SyncPid(pid)];
      assert sent[pid := []][pid := [SyncPid(pid)]] == sent[pid := [SyncPid(pid)]];
    }

    /** The callback on a closed connection: first the leave notices, then the removal */
    method DestroyPlayer(pid: Pid)
      requires Valid() && wm.HasPlayer(pid)
      modifies this`states, this`ops, net, wm, wm.aoi.grids
      ensures Valid() && ops == old(ops) + [Quit(pid)]
      ensures QuitTold(wm.aoi.layout, old(wm.Now()), wm.Now(), pid)
    {
      var player := wm.GetPlayerByPid(pid);
      assert wm.PlayerOk(pid);
      player.Disappear(wm);
      wm.RemovePlayerByPid(pid);
      QuitTells(wm.aoi.layout, states[|ops|], wm.Now(), pid);
      Record(Quit(pid));
    }

    method HandleMove(pid: Pid, pos: Position)
      requires Valid() && wm.HasPlayer(pid) && OnMap(wm.aoi.layout, pos)
      modifies this`states, this`ops, net, wm.players.Values, wm.aoi.grids
      ensures Valid() && ops == old(ops) + [MoveTo(pid, pos)]
      ensures MoveTold(wm.aoi.layout, old(wm.Now()), wm.Now(), pid, pos)
    {
      MoveInWorld(pid, pos);
    }

    method MoveInWorld(pid: Pid, pos: Position)
      requires Running() && wm.HasPlayer(pid) && OnMap(wm.aoi.layout, pos)
      modifies this`states, this`ops, net, wm.players.Values, wm.aoi.grids
      ensures Running() && wm.players == old(wm.players)
      ensures ops == old(ops) + [MoveTo(pid, pos)]
      ensures MoveTold(wm.aoi.layout, old(wm.Now()), wm.Now(), pid, pos)
    {
      ghost var l, before := wm.aoi.layout, wm.Now();
      MovePlayer(pid, pos);
      MoveIsStep(l, before, wm.Now(), pid, pos);
      Record(MoveTo(pid, pos));
    }

    method MovePlayer(pid: Pid, pos: Position)
      requires wm.net == net && wm.Valid() && wm.AllConnected() && wm.HasPlayer(pid) && OnMap(wm.aoi.layout, pos)
      modifies net, wm.players.Values, wm.aoi.grids
      ensures wm.Valid() && wm.AllConnected() && wm.players == old(wm.players)
      ensures MoveStep(wm.aoi.layout, old(wm.Now()), wm.Now(), pid, pos)
      ensures MoveTold(wm.aoi.layout, old(wm.Now()), wm.Now(), pid, pos)
    {
      ghost var before := wm.Now();
      var player := wm.GetPlayerByPid(pid);
      assert wm.PlayerOk(pid);
      player.UpdatePos(pos, wm);
      StepConnected(wm.aoi.layout, before, wm.Now(), MoveTo(pid, pos));
      MoveTells(wm.aoi.layout, before, wm.Now(), pid, pos);
    }

    method HandleChat(pid: Pid, content: string)
      requires Valid() && wm.HasPlayer(pid)
      modifies this`states, this`ops, net
      ensures Valid() && ops == old(ops) + [Say(pid, content)]
      ensures wm.players == old(wm.players) && wm.Online() == old(wm.Online())
      ensures SayTold(old(net.traffic.sent), net.traffic.sent, wm.players.Keys, pid, content)
    {
      ChatInWorld(pid, content);
    }

    method ChatInWorld(pid: Pid, content: string)
      requires Running() && wm.HasPlayer(pid)
      modifies this`states, this`ops, net
      ensures Running() && wm.Online() == old(wm.Online())
      ensures ops == old(ops) + [Say(pid, content)]
      ensures SayTold(old(net.traffic.sent), net.traffic.sent, wm.players.Keys, pid, content)
    {
      Chat(pid, content);
      Record(Say(pid, content));
    }

    method Chat(pid: Pid, content: string)
      requires wm.net == net && wm.Valid() && wm.AllConnected() && wm.HasPlayer(pid)
      modifies net
      ensures SayStep(old(wm.Now()), wm.Now(), pid, content) && wm.AllConnected()
      ensures SayTold(old(net.traffic.sent), net.traffic.sent, wm.players.Keys, pid, content)
    {
      SayTells(net.traffic.sent, wm.players.Keys, pid, content);
      var player := wm.GetPlayerByPid(pid);
      assert wm.PlayerOk(pid);
      player.WorldChat(content, wm);
    }
  }

  lemma MoveIsStep(l: Layout, s: State, s': State, p: Pid, to: Position)
    requires MoveStep(l, s, s', p, to)
    ensures Step(l, s, s', MoveTo(p, to))
  {
  }

  lemma JoinStepIntro(l: Layout, s: State, s': State, p: Pid, pos: Position, order: seq<Pid>)
    requires p !in s.online && OnMap(l, pos) && Connected(s) && s'.online == s.online[p := pos]
    requires JoinSends(l, s.sent, s', p, order)
    ensures JoinStep(l, s, s', p, pos) && Connected(s')
  {
  }

  lemma RunExtended(l: Layout, states: seq<State>, ops: seq<Op>, next: State, op: Op)
    requires IsRun(l, states, ops) && Step(l, states[|ops|], next, op)
    ensures IsRun(l, states + [next], ops + [op])
  {
    var more, acts := states + [next], ops + [op];
    forall i | 0 <= i < |acts|
      ensures StepAt(l, more, acts, i)
    {
      assert i < |ops| ==> StepAt(l, states, ops, i);
    }
  }
}
