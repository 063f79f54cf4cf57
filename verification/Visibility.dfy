/**
  The visibility protocol on values: what each operation of the world does to the players'
  positions and to the messages sent to every client, and what a client makes of them.

  The order in which a hash set or hash map is walked is left open: where the program
  walks one, the effect of the operation is described for some enumeration of its elements.
 */
module Visibility {
  import opened Containers
  import opened Geometry

  type Pid = int

  datatype Info = Info(pid: Pid, pos: Position)

  /** What the server sends to a client: packet ids 1, 200 (with its kinds 1, 2 and 4), 201 and 202 */
  datatype Message =
    | SyncPid(pid: Pid)
    | Talk(pid: Pid, content: string)
    | Appear(pid: Pid, pos: Position)
    | Move(pid: Pid, pos: Position)
    | Leave(pid: Pid)
    | SyncPlayers(players: seq<Info>)

  /** Who a client believes is around, and where */
  type View = map<Pid, Position>

  /** Everything sent so far on each client's connection */
  type Outboxes = map<Pid, seq<Message>>

  datatype State = State(online: map<Pid, Position>, sent: Outboxes)

  // ---- The client's picture ----

  function SeeAll(view: View, players: seq<Info>): View {
    if players == [] then view
    else
      var n := |players| - 1;
      SeeAll(view, players[..n])[players[n].pid := players[n].pos]
  }

  /** A move of a player the client has not been shown means nothing to it. */
  function See(view: View, m: Message): View {
    match m
    case Appear(q, pos) => view[q := pos]
    case Move(q, pos) => if q in view then view[q := pos] else view
    case Leave(q) => view - {q}
    case SyncPlayers(players) => SeeAll(view, players)
    case SyncPid(_) => view
    case Talk(_, _) => view
  }

  function Watch(view: View, inbox: seq<Message>): View {
    if inbox == [] then view
    else See(Watch(view, inbox[..|inbox| - 1]), inbox[|inbox| - 1])
  }

  lemma {:induction false} WatchAppend(view: View, a: seq<Message>, b: seq<Message>)
    ensures Watch(view, a + b) == Watch(Watch(view, a), b)
  {
    if b == [] {
      assert a + b == a;
    } else {
      var n := |b| - 1;
      assert (a + b)[..|a + b| - 1] == a + b[..n];
      WatchAppend(view, a, b[..n]);
    }
  }

  // ---- Who sees whom, by a scan over all players ----

  function Visible(l: Layout, online: map<Pid, Position>, p: Pid): set<Pid>
    requires p in online
  {
    set q | q in online && Near(l, online[p], online[q])
  }

  /** The picture client `p` ought to have */
  function Surroundings(l: Layout, online: map<Pid, Position>, p: Pid): View
    requires p in online
  {
    map q | q in online && Near(l, online[p], online[q]) :: online[q]
  }

  /** The players near `here` but not near `there` */
  function OnlyNear(l: Layout, online: map<Pid, Position>, here: Position, there: Position): set<Pid> {
    set q | q in online && Near(l, here, online[q]) && !Near(l, there, online[q])
  }

  // ---- Sending ----

  function Send(sent: Outboxes, to: Pid, m: Message): Outboxes
    requires to in sent
  {
    sent[to := sent[to] + [m]]
  }

  function Broadcast(sent: Outboxes, to: set<Pid>, m: Message): Outboxes {
    map q | q in sent :: if q in to then sent[q] + [m] else sent[q]
  }

  /** The same message to each player in turn */
  function SendEach(sent: Outboxes, order: seq<Pid>, m: Message): (r: Outboxes)
    requires AllIn(order, sent)
    ensures r.Keys == sent.Keys
  {
    if order == [] then sent
    else
      var n := |order| - 1;
      Send(SendEach(sent, order[..n], m), order[n], m)
  }

  lemma {:induction false} SendEachIsBroadcast(sent: Outboxes, order: seq<Pid>, to: set<Pid>, m: Message)
    requires AllIn(order, sent) && Enumerates(order, to)
    ensures SendEach(sent, order, m) == Broadcast(sent, to, m)
  {
    if order == [] {
      assert Broadcast(sent, {}, m) == sent;
    } else {
      var before, q := order[..|order| - 1], order[|order| - 1];
      LastIsNew(order);
      forall x
        ensures x in order <==> x in before || x == q
      {
        InPrefix(order, x);
      }
      assert Enumerates(before, to - {q});
      SendEachIsBroadcast(sent, before, to - {q}, m);
      BroadcastNext(sent, to - {q}, m, q);
      assert to - {q} + {q} == to;
    }
  }

  lemma BroadcastNext(sent: Outboxes, to: set<Pid>, m: Message, q: Pid)
    requires q in sent && q !in to
    ensures q in Broadcast(sent, to, m)
    ensures Send(Broadcast(sent, to, m), q, m) == Broadcast(sent, to + {q}, m)
  {
  }

  predicate AllIn(order: seq<Pid>, sent: Outboxes) {
    forall i :: 0 <= i < |order| ==> order[i] in sent
  }

  /** To each player in turn a leave of `p`, and to `p` a leave of that player */
  function LeaveBoth(sent: Outboxes, p: Pid, order: seq<Pid>): (r: Outboxes)
    requires p in sent && AllIn(order, sent)
    ensures r.Keys == sent.Keys
  {
    if order == [] then sent
    else
      var n := |order| - 1;
      var q := order[n];
      Send(Send(LeaveBoth(sent, p, order[..n]), q, Leave(p)), p, Leave(q))
  }

  /** To each player in turn an appearance of `p`, and to `p` one of that player */
  function AppearBoth(sent: Outboxes, online: map<Pid, Position>, p: Pid, order: seq<Pid>): (r: Outboxes)
    requires p in sent && AllIn(order, sent)
    requires p in online && AllOnline(order, online)
    ensures r.Keys == sent.Keys
  {
    if order == [] then sent
    else
      var n := |order| - 1;
      var q := order[n];
      Send(Send(AppearBoth(sent, online, p, order[..n]), q, Appear(p, online[p])), p, Appear(q, online[q]))
  }

  predicate AllOnline(order: seq<Pid>, online: map<Pid, Position>) {
    forall i :: 0 <= i < |order| ==> order[i] in online
  }

  function Infos(online: map<Pid, Position>, order: seq<Pid>): (players: seq<Info>)
    requires AllOnline(order, online)
    ensures |players| == |order|
  {
    seq(|order|, i requires 0 <= i < |order| => Info(order[i], online[order[i]]))
  }

  // ---- The operations ----

  datatype Op =
    | Join(pid: Pid, pos: Position)
    | MoveTo(pid: Pid, pos: Position)
    | Say(pid: Pid, content: string)
    | Quit(pid: Pid)

  /** Every online player has a connection. */
  predicate Connected(s: State) {
    s.online.Keys <= s.sent.Keys
  }

  ghost predicate JoinStep(l: Layout, s: State, s': State, p: Pid, pos: Position) {
    && p !in s.online && OnMap(l, pos) && Connected(s)
    && s'.online == s.online[p := pos]
    && exists order :: JoinSends(l, s.sent, s', p, order)
  }

  ghost predicate JoinSends(l: Layout, sent: Outboxes, s': State, p: Pid, order: seq<Pid>)
    requires p in s'.online
  {
    var visible := Visible(l, s'.online, p);
    && Enumerates(order, visible) && AllOnline(order, s'.online)
    && s'.sent == Send(Broadcast(sent[p := [SyncPid(p)]], visible, Appear(p, s'.online[p])),
                       p, SyncPlayers(Infos(s'.online, order)))
  }

  ghost predicate MoveStep(l: Layout, s: State, s': State, p: Pid, to: Position) {
    && p in s.online && OnMap(l, to) && Connected(s)
    && s'.online == s.online[p := to]
    && exists gone, come :: MoveSends(l, s.sent, s', p, s.online[p], gone, come)
  }

  /** Walks of the players a move from `from` loses sight of, and of those it comes in sight of */
  ghost predicate CrossOrders(l: Layout, sent: Outboxes, online: map<Pid, Position>, p: Pid, from: Position,
                              gone: seq<Pid>, come: seq<Pid>)
    requires p in online
  {
    && Enumerates(gone, OnlyNear(l, online, from, online[p]))
    && Enumerates(come, OnlyNear(l, online, online[p], from))
    && p in sent && AllIn(gone, sent) && AllIn(come, sent) && AllOnline(come, online)
  }

  ghost predicate MoveSends(l: Layout, sent: Outboxes, s': State, p: Pid, from: Position,
                            gone: seq<Pid>, come: seq<Pid>)
    requires p in s'.online
  {
    && CrossOrders(l, sent, s'.online, p, from, gone, come)
    && s'.sent == Broadcast(AppearBoth(LeaveBoth(sent, p, gone), s'.online, p, come),
                            Visible(l, s'.online, p), Move(p, s'.online[p]))
  }

  ghost predicate SayStep(s: State, s': State, p: Pid, content: string) {
    && p in s.online && Connected(s)
    && s' == State(s.online, Broadcast(s.sent, s.online.Keys, Talk(p, content)))
  }

  ghost predicate QuitStep(l: Layout, s: State, s': State, p: Pid) {
    && p in s.online && Connected(s)
    && s' == State(s.online - {p}, Broadcast(s.sent, Visible(l, s.online, p), Leave(p)))
  }

  ghost predicate Step(l: Layout, s: State, s': State, op: Op) {
    match op
    case Join(p, pos) => JoinStep(l, s, s', p, pos)
    case MoveTo(p, to) => MoveStep(l, s, s', p, to)
    case Say(p, content) => SayStep(s, s', p, content)
    case Quit(p) => QuitStep(l, s, s', p)
  }

  const INITIAL := State(map[], map[])

  ghost predicate StepAt(l: Layout, states: seq<State>, ops: seq<Op>, i: int)
    requires |states| == |ops| + 1 && 0 <= i < |ops|
  {
    Step(l, states[i], states[i + 1], ops[i])
  }

  /** `states` is a run of whole operations `ops` from the empty world. */
  ghost predicate IsRun(l: Layout, states: seq<State>, ops: seq<Op>) {
    && |states| == |ops| + 1
    && states[0] == INITIAL
    && forall i :: 0 <= i < |ops| ==> StepAt(l, states, ops, i)
  }

  // ---- What each client gets from an operation ----

  /** The message, or nothing */
  function If(b: bool, m: Message): seq<Message> {
    if b then [m] else []
  }

  function Leaves(order: seq<Pid>): seq<Message> {
    if order == [] then []
    else Leaves(order[..|order| - 1]) + [Leave(order[|order| - 1])]
  }

  /** What `p` gets while `order` comes into its sight: its own position again for itself */
  function Appears(online: map<Pid, Position>, p: Pid, order: seq<Pid>): seq<Message>
    requires p in online && AllOnline(order, online)
  {
    if order == [] then []
    else
      var n := |order| - 1;
      var q := order[n];
      Appears(online, p, order[..n])
      + If(q == p, Appear(p, online[p]))
      + [Appear(q, online[q])]
  }

  lemma InPrefix(order: seq<Pid>, q: Pid)
    requires order != []
    ensures q in order <==> q in order[..|order| - 1] || q == order[|order| - 1]
  {
    assert order == order[..|order| - 1] + [order[|order| - 1]];
  }

  lemma LastIsNew(order: seq<Pid>)
    requires order != [] && Distinct(order)
    ensures order[|order| - 1] !in order[..|order| - 1]
    ensures Distinct(order[..|order| - 1])
  {
  }

  lemma {:induction false} LeaveBothAt(sent: Outboxes, p: Pid, order: seq<Pid>, c: Pid)
    requires p in sent && AllIn(order, sent) && c in sent
    requires Distinct(order) && p !in order
    ensures c != p ==> LeaveBoth(sent, p, order)[c] == sent[c] + If(c in order, Leave(p))
    ensures LeaveBoth(sent, p, order)[p] == sent[p] + Leaves(order)
  {
    if order != [] {
      var before := order[..|order| - 1];
      InPrefix(order, c);
      InPrefix(order, p);
      LastIsNew(order);
      LeaveBothAt(sent, p, before, c);
      Associate(sent[p], Leaves(before), [Leave(order[|order| - 1])]);
    }
  }

  lemma {:induction false} AppearBothAt(sent: Outboxes, online: map<Pid, Position>, p: Pid, order: seq<Pid>, c: Pid)
    requires p in sent && AllIn(order, sent) && c in sent
    requires p in online && AllOnline(order, online)
    requires Distinct(order)
    ensures c != p ==> AppearBoth(sent, online, p, order)[c] == sent[c] + If(c in order, Appear(p, online[p]))
    ensures AppearBoth(sent, online, p, order)[p] == sent[p] + Appears(online, p, order)
  {
    if order != [] {
      var before, q := order[..|order| - 1], order[|order| - 1];
      InPrefix(order, c);
      LastIsNew(order);
      AppearBothAt(sent, online, p, before, c);
      var own := If(q == p, Appear(p, online[p]));
      Associate(sent[p], Appears(online, p, before), own);
      Associate(sent[p], Appears(online, p, before) + own, [Appear(q, online[q])]);
    }
  }

  lemma BroadcastAt(sent: Outboxes, to: set<Pid>, m: Message, c: Pid)
    requires c in sent
    ensures Broadcast(sent, to, m).Keys == sent.Keys
    ensures Broadcast(sent, to, m)[c] == sent[c] + If(c in to, m)
  {
    assert sent[c] + [] == sent[c];
  }

  lemma MoveSentOther(l: Layout, sent: Outboxes, s': State, p: Pid, from: Position, gone: seq<Pid>, come: seq<Pid>,
                      c: Pid)
    requires p in s'.online && MoveSends(l, sent, s', p, from, gone, come)
    requires c in sent && c != p
    ensures c in s'.sent
    ensures s'.sent[c] == sent[c] + If(c in gone, Leave(p)) + If(c in come, Appear(p, s'.online[p]))
                          + If(c in Visible(l, s'.online, p), Move(p, s'.online[p]))
  {
    var mid := LeaveBoth(sent, p, gone);
    LeaveBothAt(sent, p, gone, c);
    AppearBothAt(mid, s'.online, p, come, c);
    BroadcastAt(AppearBoth(mid, s'.online, p, come), Visible(l, s'.online, p), Move(p, s'.online[p]), c);
  }

  lemma MoveSentSelf(l: Layout, sent: Outboxes, s': State, p: Pid, from: Position, gone: seq<Pid>, come: seq<Pid>)
    requires p in s'.online && MoveSends(l, sent, s', p, from, gone, come)
    ensures s'.sent.Keys == sent.Keys
    ensures s'.sent[p] == sent[p] + Leaves(gone) + Appears(s'.online, p, come) + [Move(p, s'.online[p])]
  {
    var mid := LeaveBoth(sent, p, gone);
    assert p !in OnlyNear(l, s'.online, from, s'.online[p]);
    LeaveBothAt(sent, p, gone, p);
    AppearBothAt(mid, s'.online, p, come, p);
    BroadcastAt(AppearBoth(mid, s'.online, p, come), Visible(l, s'.online, p), Move(p, s'.online[p]), p);
  }
}
