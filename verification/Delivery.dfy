/**
  What each operation puts on the connections of the online players, packet by packet, in
  terms of cells alone.
 */
module Delivery {
  import opened Containers
  import opened Geometry
  import opened Visibility
  import opened Agreement

  /** Every online player's client gets the talk once, and nobody else anything. */
  ghost predicate SayTold(sent: Outboxes, sent': Outboxes, online: set<Pid>, p: Pid, content: string) {
    && online <= sent.Keys == sent'.Keys
    && forall c :: c in sent ==> sent'[c] == sent[c] + if c in online then [Talk(p, content)] else []
  }

  lemma SayTells(sent: Outboxes, online: set<Pid>, p: Pid, content: string)
    requires online <= sent.Keys
    ensures SayTold(sent, Broadcast(sent, online, Talk(p, content)), online, p, content)
  {
    forall c | c in sent
      ensures Broadcast(sent, online, Talk(p, content))[c] == sent[c] + if c in online then [Talk(p, content)] else []
    {
      BroadcastAt(sent, online, Talk(p, content), c);
    }
  }

  /** The newcomer's client gets three packets; those around it one, and nobody else anything. */
  ghost predicate JoinTold(l: Layout, s: State, s': State, p: Pid, pos: Position) {
    && s'.online == s.online[p := pos]
    && s.online.Keys <= s.sent.Keys && s'.online.Keys <= s'.sent.Keys
    && (exists infos :: s'.sent[p] == [SyncPid(p), Appear(p, pos), SyncPlayers(infos)] && Lists(l, infos, s'.online, pos))
    && (forall c :: c in s.online ==>
         s'.sent[c] == s.sent[c] + if Near(l, pos, s.online[c]) then [Appear(p, pos)] else [])
  }

  /** Every player around the position once, with its own position, and nobody else */
  ghost predicate Lists(l: Layout, infos: seq<Info>, online: map<Pid, Position>, pos: Position) {
    && (forall i :: 0 <= i < |infos| ==>
         infos[i].pid in online && infos[i].pos == online[infos[i].pid] && Near(l, pos, infos[i].pos))
    && (forall i, j :: 0 <= i < j < |infos| ==> infos[i].pid != infos[j].pid)
    && (forall q :: q in online && Near(l, pos, online[q]) ==> exists i :: 0 <= i < |infos| && infos[i].pid == q)
  }

  lemma InfosList(l: Layout, online: map<Pid, Position>, p: Pid, order: seq<Pid>)
    requires p in online && Enumerates(order, Visible(l, online, p)) && AllOnline(order, online)
    ensures Lists(l, Infos(online, order), online, online[p])
  {
    forall i | 0 <= i < |order|
      ensures order[i] in Visible(l, online, p)
    {
      assert order[i] in order;
    }
    var infos := Infos(online, order);
    forall q | q in online && Near(l, online[p], online[q])
      ensures exists i :: 0 <= i < |infos| && infos[i].pid == q
    {
      assert q in Visible(l, online, p) && q in order;
      var i :| 0 <= i < |order| && order[i] == q;
      assert infos[i].pid == q;
    }
  }

  lemma JoinTells(l: Layout, s: State, s': State, p: Pid, pos: Position)
    requires JoinStep(l, s, s', p, pos) && Connected(s')
    ensures JoinTold(l, s, s', p, pos)
  {
    var order :| JoinSends(l, s.sent, s', p, order);
    JoinSentSelf(l, s, s', p, order);
    InfosList(l, s'.online, p, order);
    forall c | c in s.online
      ensures s'.sent[c] == s.sent[c] + if Near(l, pos, s.online[c]) then [Appear(p, pos)] else []
    {
      JoinSentOther(l, s, s', p, order, c);
    }
  }

  /** Everybody around is told of the leave once, and nobody else anything. */
  ghost predicate QuitTold(l: Layout, s: State, s': State, p: Pid) {
    && p in s.online && s'.online == s.online - {p} && s.online.Keys <= s.sent.Keys == s'.sent.Keys
    && forall c :: c in s.online ==>
         s'.sent[c] == s.sent[c] + if Near(l, s.online[p], s.online[c]) then [Leave(p)] else []
  }

  lemma QuitTells(l: Layout, s: State, s': State, p: Pid)
    requires QuitStep(l, s, s', p)
    ensures QuitTold(l, s, s', p)
  {
    forall c | c in s.online
      ensures s'.sent[c] == s.sent[c] + if Near(l, s.online[p], s.online[c]) then [Leave(p)] else []
    {
      BroadcastAt(s.sent, Visible(l, s.online, p), Leave(p), c);
    }
  }

  /** What a move tells another player's client, from where it was in or out of sight before and after */
  function MoveNews(before: bool, after: bool, p: Pid, to: Position): seq<Message> {
    if before && after then [Move(p, to)]
    else if before then [Leave(p)]
    else if after then [Appear(p, to), Move(p, to)]
    else []
  }

  ghost predicate MoveTold(l: Layout, s: State, s': State, p: Pid, to: Position) {
    && p in s.online && s'.online == s.online[p := to] && s.online.Keys <= s.sent.Keys == s'.sent.Keys
    && forall c :: c in s.online && c != p ==>
         s'.sent[c] == s.sent[c] + MoveNews(Near(l, s.online[p], s.online[c]), Near(l, to, s.online[c]), p, to)
  }

  lemma NewsIs(inbox: seq<Message>, before: bool, after: bool, p: Pid, to: Position)
    ensures inbox + If(before && !after, Leave(p)) + If(after && !before, Appear(p, to)) + If(after, Move(p, to))
         == inbox + MoveNews(before, after, p, to)
  {
  }

  lemma MoveTells(l: Layout, s: State, s': State, p: Pid, to: Position)
    requires MoveStep(l, s, s', p, to)
    ensures MoveTold(l, s, s', p, to)
  {
    var from := s.online[p];
    var gone, come :| MoveSends(l, s.sent, s', p, from, gone, come);
    MoveSentSelf(l, s.sent, s', p, from, gone, come);
    forall c | c in s.online && c != p
      ensures s'.sent[c] == s.sent[c] + MoveNews(Near(l, from, s.online[c]), Near(l, to, s.online[c]), p, to)
    {
      MoveSentOther(l, s.sent, s', p, from, gone, come, c);
      assert c in gone <==> c in OnlyNear(l, s'.online, from, to);
      assert c in come <==> c in OnlyNear(l, s'.online, to, from);
      NewsIs(s.sent[c], Near(l, from, s.online[c]), Near(l, to, s.online[c]), p, to);
    }
  }
}
