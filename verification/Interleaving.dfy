/**
  Why view agreement is a theorem about whole operations. A move reads the players around
  it three times and sends its notices between the reads, with no lock held. Here a whole
  operation of another player falls into each of those gaps, and the exact condition under
  which the pictures of all clients still come out right is given for each.
 */
module Interleaving {
  import opened Containers
  import opened Geometry
  import opened Visibility
  import opened Agreement

  /** What UpdatePos does next, with the position and the index already updated, when it is interrupted */
  datatype Window =
    | BeforeGone         // the read of the players gone out of sight
    | BeforeLeaves       // the leaves
    | BeforeCome         // the read of the players come into sight
    | BeforeAppearances  // the appearances
    | BeforeAround       // the read of the players around
    | BeforeMoves        // the moves

  predicate NothingSent(w: Window) {
    w.BeforeGone? || w.BeforeLeaves?
  }

  predicate AppearancesSent(w: Window) {
    w.BeforeAround? || w.BeforeMoves?
  }

  /** What each of the three reads finds, when the world is `m` before the gap and `n` after it */
  function AtGone(w: Window, m: State, n: State): map<Pid, Position> {
    if w.BeforeGone? then n.online else m.online
  }

  function AtCome(w: Window, m: State, n: State): map<Pid, Position> {
    if NothingSent(w) || w.BeforeCome? then n.online else m.online
  }

  function AtAround(w: Window, m: State, n: State): map<Pid, Position> {
    if w.BeforeMoves? then m.online else n.online
  }

  /**
    The positions in the appearances, read as they are sent. A player's object outlives its
    removal from the world, so its last position can still be sent.
   */
  function LastPositions(w: Window, m: State, n: State): map<Pid, Position> {
    if AppearancesSent(w) then m.online else m.online + n.online
  }

  /** `gone` and `come` walk what the first two reads find; everybody in them has a connection. */
  ghost predicate ReadOrders(l: Layout, w: Window, s: State, m: State, n: State, p: Pid, to: Position,
                             gone: seq<Pid>, come: seq<Pid>)
    requires p in s.online
  {
    && Enumerates(gone, OnlyNear(l, AtGone(w, m, n), s.online[p], to))
    && Enumerates(come, OnlyNear(l, AtCome(w, m, n), to, s.online[p]))
    && AllIn(gone, if NothingSent(w) then n.sent else s.sent)
    && AllIn(come, if AppearancesSent(w) then s.sent else n.sent)
    && AllOnline(come, LastPositions(w, m, n))
  }

  /** A move from `s` to `t` whose gap `w` begins in `m` and ends in `n` */
  ghost predicate SplitMove(l: Layout, w: Window, s: State, m: State, n: State, t: State, p: Pid, to: Position,
                            gone: seq<Pid>, come: seq<Pid>)
  {
    && p in s.online && OnMap(l, to) && Connected(s) && p in s.sent
    && m.online == s.online[p := to]
    && p in n.online && n.online[p] == to && p in n.sent && t.online == n.online
    && ReadOrders(l, w, s, m, n, p, to, gone, come)
    && var pos, around := LastPositions(w, m, n), Visible(l, AtAround(w, m, n), p);
       if NothingSent(w) then
         && m.sent == s.sent
         && t.sent == Broadcast(AppearBoth(LeaveBoth(n.sent, p, gone), pos, p, come), around, Move(p, to))
       else if AppearancesSent(w) then
         && m.sent == AppearBoth(LeaveBoth(s.sent, p, gone), pos, p, come)
         && t.sent == Broadcast(n.sent, around, Move(p, to))
       else
         && m.sent == LeaveBoth(s.sent, p, gone)
         && t.sent == Broadcast(AppearBoth(n.sent, pos, p, come), around, Move(p, to))
  }

  /** With nothing in the gap, whichever it is, a split move is a move. */
  lemma Uninterrupted(l: Layout, w: Window, s: State, m: State, t: State, p: Pid, to: Position,
                      gone: seq<Pid>, come: seq<Pid>)
    requires SplitMove(l, w, s, m, m, t, p, to, gone, come)
    ensures MoveStep(l, s, t, p, to)
  {
    assert LastPositions(w, m, m) == m.online;
    assert MoveSends(l, s.sent, t, p, s.online[p], gone, come);
  }

  // ---- One client's picture of one player ----

  function Look(view: View, x: Pid): Option<Position> {
    if x in view then Some(view[x]) else None
  }

  /** Where client `c` believes player `x` to be */
  function Sees(sent: Outboxes, c: Pid, x: Pid): Option<Position>
    requires c in sent
  {
    Look(Watch(map[], sent[c]), x)
  }

  predicate InSight(l: Layout, online: map<Pid, Position>, c: Pid, x: Pid) {
    c in online && x in online && Near(l, online[c], online[x])
  }

  function Expected(l: Layout, online: map<Pid, Position>, c: Pid, x: Pid): Option<Position> {
    if InSight(l, online, c, x) then Some(online[x]) else None
  }

  ghost predicate PairRight(l: Layout, s: State, c: Pid, x: Pid) {
    c in s.online ==> c in s.sent && Sees(s.sent, c, x) == Expected(l, s.online, c, x)
  }

  lemma SameView(v: View, u: View)
    requires forall x :: Look(v, x) == Look(u, x)
    ensures v == u
  {
    forall x
      ensures x in v <==> x in u
      ensures x in v ==> v[x] == u[x]
    {
      assert Look(v, x) == Look(u, x);
    }
  }

  lemma LookAround(l: Layout, online: map<Pid, Position>, c: Pid, x: Pid)
    requires c in online
    ensures Look(Surroundings(l, online, c), x) == Expected(l, online, c, x)
  {
  }

  /** A picture is right if and only if it is right about every player. */
  lemma AgreesPairwise(l: Layout, s: State, c: Pid)
    ensures Agrees(l, s, c) <==> forall x :: PairRight(l, s, c, x)
  {
    if c in s.online {
      var around := Surroundings(l, s.online, c);
      if Agrees(l, s, c) {
        forall x
          ensures PairRight(l, s, c, x)
        {
          LookAround(l, s.online, c, x);
        }
      }
      if forall x :: PairRight(l, s, c, x) {
        assert PairRight(l, s, c, c);
        forall x
          ensures Look(Watch(map[], s.sent[c]), x) == Look(around, x)
        {
          assert PairRight(l, s, c, x);
          LookAround(l, s.online, c, x);
        }
        SameView(Watch(map[], s.sent[c]), around);
      }
    }
  }

  // ---- What each part of a move does to it ----

  function Left(v: Option<Position>, b: bool): Option<Position> {
    if b then None else v
  }

  function Shown(v: Option<Position>, b: bool, pos: Position): Option<Position> {
    if b then Some(pos) else v
  }

  function Moved(v: Option<Position>, b: bool, pos: Position): Option<Position> {
    if b && v.Some? then Some(pos) else v
  }

  /** Of the pair, one is `p` and the other is in the walk. */
  predicate Met(p: Pid, order: seq<Pid>, c: Pid, x: Pid) {
    (c == p && x in order) || (x == p && c in order)
  }

  lemma LeavesSeen(sent: Outboxes, p: Pid, gone: seq<Pid>, c: Pid, x: Pid)
    requires p in sent && AllIn(gone, sent) && c in sent && Distinct(gone) && p !in gone
    ensures Sees(LeaveBoth(sent, p, gone), c, x) == Left(Sees(sent, c, x), Met(p, gone, c, x))
  {
    LeaveBothAt(sent, p, gone, c);
    if c == p {
      WatchAppend(map[], sent[p], Leaves(gone));
      WatchLeaves(Watch(map[], sent[p]), gone);
    } else {
      WatchIf(map[], sent[c], c in gone, Leave(p));
    }
  }

  lemma AppearancesSeen(sent: Outboxes, pos: map<Pid, Position>, p: Pid, come: seq<Pid>, c: Pid, x: Pid)
    requires p in sent && AllIn(come, sent) && c in sent && Distinct(come)
    requires p in pos && AllOnline(come, pos)
    ensures Sees(AppearBoth(sent, pos, p, come), c, x)
         == if Met(p, come, c, x) && x in pos then Some(pos[x]) else Sees(sent, c, x)
  {
    AppearBothAt(sent, pos, p, come, c);
    if c == p {
      WatchAppend(map[], sent[p], Appears(pos, p, come));
      WatchAppears(Watch(map[], sent[p]), pos, p, come);
      assert x in PositionsOf(pos, come) <==> x in come;
    } else {
      WatchIf(map[], sent[c], c in come, Appear(p, pos[p]));
    }
  }

  lemma MovesSeen(sent: Outboxes, around: set<Pid>, p: Pid, to: Position, c: Pid, x: Pid)
    requires c in sent
    ensures c in Broadcast(sent, around, Move(p, to))
    ensures Sees(Broadcast(sent, around, Move(p, to)), c, x) == Moved(Sees(sent, c, x), c in around && x == p, to)
  {
    BroadcastAt(sent, around, Move(p, to), c);
    WatchIf(map[], sent[c], c in around, Move(p, to));
  }

  // ---- What a whole operation of `q` does to it ----

  /** The notices about `q` itself, at `pos` afterwards */
  function Noticed(v: Option<Position>, before: bool, after: bool, pos: Position): Option<Position> {
    Moved(Shown(Left(v, before && !after), after && !before, pos), after, pos)
  }

  lemma NoticesLook(inbox: seq<Message>, before: bool, after: bool, q: Pid, pos: Position, x: Pid)
    ensures Look(Watch(map[], inbox + If(before && !after, Leave(q)) + If(after && !before, Appear(q, pos))
                              + If(after, Move(q, pos))), x)
         == if x == q then Noticed(Look(Watch(map[], inbox), x), before, after, pos) else Look(Watch(map[], inbox), x)
  {
    WatchIf(map[], inbox, before && !after, Leave(q));
    WatchIf(map[], inbox + If(before && !after, Leave(q)), after && !before, Appear(q, pos));
    WatchIf(map[], inbox + If(before && !after, Leave(q)) + If(after && !before, Appear(q, pos)), after, Move(q, pos));
  }

  lemma JoinSeen(l: Layout, m: State, n: State, q: Pid, pos: Position, c: Pid, x: Pid)
    requires JoinStep(l, m, n, q, pos) && c in m.online && c != q
    ensures c in m.sent && c in n.sent
    ensures Sees(n.sent, c, x) == if x == q then Shown(Sees(m.sent, c, x), InSight(l, n.online, c, q), pos)
                                  else Sees(m.sent, c, x)
  {
    var order :| JoinSends(l, m.sent, n, q, order);
    JoinSentOther(l, m, n, q, order, c);
    WatchIf(map[], m.sent[c], c in Visible(l, n.online, q), Appear(q, pos));
    NearSymmetric(l, pos, m.online[c]);
  }

  lemma MoveSeen(l: Layout, m: State, n: State, q: Pid, far: Position, c: Pid, x: Pid)
    requires MoveStep(l, m, n, q, far) && c in m.online && c != q
    ensures c in m.sent && c in n.sent
    ensures Sees(n.sent, c, x) == if x == q then Noticed(Sees(m.sent, c, x), InSight(l, m.online, c, q),
                                                         InSight(l, n.online, c, q), far)
                                  else Sees(m.sent, c, x)
  {
    var from := m.online[q];
    var gone, come :| MoveSends(l, m.sent, n, q, from, gone, come);
    MoveSentOther(l, m.sent, n, q, from, gone, come, c);
    NearSymmetric(l, from, m.online[c]);
    NearSymmetric(l, far, m.online[c]);
    var before, after := InSight(l, m.online, c, q), InSight(l, n.online, c, q);
    assert c in gone <==> c in OnlyNear(l, n.online, from, far);
    assert c in come <==> c in OnlyNear(l, n.online, far, from);
    NoticesLook(m.sent[c], before, after, q, far, x);
  }

  lemma QuitSeen(l: Layout, m: State, n: State, q: Pid, c: Pid, x: Pid)
    requires QuitStep(l, m, n, q) && c in m.online && c != q
    ensures c in m.sent && c in n.sent
    ensures Sees(n.sent, c, x) == Left(Sees(m.sent, c, x), x == q && InSight(l, m.online, c, q))
  {
    var visible := Visible(l, m.online, q);
    BroadcastAt(m.sent, visible, Leave(q), c);
    WatchIf(map[], m.sent[c], c in visible, Leave(q));
    NearSymmetric(l, m.online[q], m.online[c]);
  }

  lemma SaySeen(m: State, n: State, q: Pid, content: string, c: Pid, x: Pid)
    requires SayStep(m, n, q, content) && c in m.online
    ensures c in m.sent && c in n.sent && Sees(n.sent, c, x) == Sees(m.sent, c, x)
  {
    BroadcastAt(m.sent, m.online.Keys, Talk(q, content), c);
    WatchIf(map[], m.sent[c], true, Talk(q, content));
  }

  /** The operation as another client `c` sees it; nothing but its picture of `q` changes */
  function OpSeen(op: Op, v: Option<Position>, before: bool, after: bool, pos: Position): Option<Position> {
    if op.Say? then v else Noticed(v, before, after, pos)
  }

  lemma OtherClient(l: Layout, m: State, n: State, op: Op, c: Pid, x: Pid)
    requires Step(l, m, n, op) && c in m.online && c != op.pid
    ensures c in n.online && n.online[c] == m.online[c] && c in m.sent && c in n.sent
    ensures x != op.pid ==> (x in n.online <==> x in m.online) && (x in n.online ==> n.online[x] == m.online[x])
    ensures x != op.pid ==> Sees(n.sent, c, x) == Sees(m.sent, c, x)
    ensures x == op.pid ==> Sees(n.sent, c, x) == OpSeen(op, Sees(m.sent, c, x), InSight(l, m.online, c, x),
                                InSight(l, n.online, c, x), if x in n.online then n.online[x] else m.online[c])
  {
    match op
    case Join(q, pos) => JoinSeen(l, m, n, q, pos, c, x);
    case MoveTo(q, far) => MoveSeen(l, m, n, q, far, c, x);
    case Say(q, content) => SaySeen(m, n, q, content, c, x);
    case Quit(q) => QuitSeen(l, m, n, q, c, x);
  }

  lemma MoverView(l: Layout, m: State, n: State, q: Pid, far: Position, gone: seq<Pid>, come: seq<Pid>)
    requires q in m.online && n.online == m.online[q := far] && MoveSends(l, m.sent, n, q, m.online[q], gone, come)
    ensures q in m.sent && q in n.sent
    ensures Watch(map[], n.sent[q])
         == See(Without(Watch(map[], m.sent[q]), gone) + PositionsOf(n.online, come), Move(q, far))
  {
    MoveSentSelf(l, m.sent, n, q, m.online[q], gone, come);
    var view, appears := Watch(map[], m.sent[q]), Appears(n.online, q, come);
    WatchAppend(map[], m.sent[q], Leaves(gone));
    WatchLeaves(view, gone);
    WatchAppend(map[], m.sent[q] + Leaves(gone), appears);
    WatchAppears(Without(view, gone), n.online, q, come);
    WatchIf(map[], m.sent[q] + Leaves(gone) + appears, true, Move(q, far));
  }

  lemma LookAtDelta(view: View, gone: seq<Pid>, online: map<Pid, Position>, come: seq<Pid>, q: Pid, far: Position, x: Pid)
    requires AllOnline(come, online) && q in online && online[q] == far
    ensures Look(See(Without(view, gone) + PositionsOf(online, come), Move(q, far)), x)
         == Moved(if x in come then Some(online[x]) else Left(Look(view, x), x in gone), x == q, far)
  {
    assert x in PositionsOf(online, come) <==> x in come;
  }

  /** A mover's own picture: who is out of sight now is gone, who is in sight now is there. */
  lemma MoverItself(l: Layout, m: State, n: State, q: Pid, far: Position, x: Pid)
    requires MoveStep(l, m, n, q, far)
    ensures q in m.sent && q in n.sent
    ensures var before, after := InSight(l, m.online, q, x), InSight(l, n.online, q, x);
            x != q ==> Sees(n.sent, q, x) == Shown(Left(Sees(m.sent, q, x), before && !after), after && !before,
                                                   if x in n.online then n.online[x] else far)
    ensures Sees(m.sent, q, q).Some? ==> Sees(n.sent, q, q) == Some(far)
  {
    var from := m.online[q];
    var gone, come :| MoveSends(l, m.sent, n, q, from, gone, come);
    MoverView(l, m, n, q, far, gone, come);
    LookAtDelta(Watch(map[], m.sent[q]), gone, n.online, come, q, far, x);
    LookAtDelta(Watch(map[], m.sent[q]), gone, n.online, come, q, far, q);
    assert x in gone <==> x in OnlyNear(l, n.online, from, far);
    assert x in come <==> x in OnlyNear(l, n.online, far, from);
    NearSymmetric(l, far, far);
    assert q in gone <==> q in OnlyNear(l, n.online, from, far);
  }

  // ---- The pairs that come out right wherever the gap is ----

  ghost predicate Interrupted(l: Layout, w: Window, s: State, m: State, n: State, t: State, p: Pid, to: Position,
                              gone: seq<Pid>, come: seq<Pid>, op: Op)
  {
    && SplitMove(l, w, s, m, n, t, p, to, gone, come)
    && Step(l, m, n, op) && op.pid != p
  }

  /** What the two parts of the move itself do to a pair */
  lemma PartsSeen(l: Layout, w: Window, s: State, m: State, n: State, t: State, p: Pid, to: Position,
                  gone: seq<Pid>, come: seq<Pid>, c: Pid, x: Pid)
    requires SplitMove(l, w, s, m, n, t, p, to, gone, come)
    requires c in n.sent && (c in s.sent ==> c in m.sent)
    ensures c in t.sent
    ensures c in s.sent ==> c in m.sent
    ensures var pos, left, shown := LastPositions(w, m, n), Met(p, gone, c, x), Met(p, come, c, x) && x in LastPositions(w, m, n);
            var moved := c in Visible(l, AtAround(w, m, n), p) && x == p;
            if NothingSent(w) then
              && (c in s.sent ==> Sees(m.sent, c, x) == Sees(s.sent, c, x))
              && var v := Left(Sees(n.sent, c, x), left);
                 Sees(t.sent, c, x) == Moved(if shown then Some(pos[x]) else v, moved, to)
            else if AppearancesSent(w) then
              && (c in s.sent ==> var v := Left(Sees(s.sent, c, x), left);
                                  Sees(m.sent, c, x) == if shown then Some(pos[x]) else v)
              && Sees(t.sent, c, x) == Moved(Sees(n.sent, c, x), moved, to)
            else
              && (c in s.sent ==> Sees(m.sent, c, x) == Left(Sees(s.sent, c, x), left))
              && Sees(t.sent, c, x) == Moved(if shown then Some(pos[x]) else Sees(n.sent, c, x), moved, to)
  {
    var pos, around := LastPositions(w, m, n), Visible(l, AtAround(w, m, n), p);
    NearSymmetric(l, to, to);
    assert p !in OnlyNear(l, AtGone(w, m, n), s.online[p], to);
    if NothingSent(w) {
      LeavesSeen(n.sent, p, gone, c, x);
      AppearancesSeen(LeaveBoth(n.sent, p, gone), pos, p, come, c, x);
      MovesSeen(AppearBoth(LeaveBoth(n.sent, p, gone), pos, p, come), around, p, to, c, x);
    } else if AppearancesSent(w) {
      if c in s.sent {
        LeavesSeen(s.sent, p, gone, c, x);
        AppearancesSeen(LeaveBoth(s.sent, p, gone), pos, p, come, c, x);
      }
      MovesSeen(n.sent, around, p, to, c, x);
    } else {
      if c in s.sent {
        LeavesSeen(s.sent, p, gone, c, x);
      }
      AppearancesSeen(n.sent, pos, p, come, c, x);
      MovesSeen(AppearBoth(n.sent, pos, p, come), around, p, to, c, x);
    }
  }

  /** Neither of the two players is the mover, and the client is not the other player. */
  lemma Bystander(l: Layout, w: Window, s: State, m: State, n: State, t: State, p: Pid, to: Position,
                  gone: seq<Pid>, come: seq<Pid>, op: Op, c: Pid, x: Pid)
    requires Interrupted(l, w, s, m, n, t, p, to, gone, come, op)
    requires c != p && c != op.pid && x != p && PairRight(l, s, c, x)
    ensures PairRight(l, t, c, x)
  {
    if c in t.online {
      assert c in m.online;
      OtherClient(l, m, n, op, c, x);
      PartsSeen(l, w, s, m, n, t, p, to, gone, come, c, x);
    }
  }

  /** A third player stays where it is. */
  lemma ThirdStays(l: Layout, s: State, m: State, n: State, p: Pid, to: Position, op: Op, x: Pid)
    requires p in s.online && m.online == s.online[p := to] && Step(l, m, n, op) && op.pid != p
    requires x != p && x != op.pid
    ensures Look(m.online, x) == Look(n.online, x) == Look(s.online, x)
    ensures p in n.online && n.online[p] == to
  {
  }

  /** How a third player and the mover are on each other's walks */
  lemma WalksOfThird(l: Layout, w: Window, s: State, m: State, n: State, t: State, p: Pid, to: Position,
                     gone: seq<Pid>, come: seq<Pid>, op: Op, x: Pid)
    requires Interrupted(l, w, s, m, n, t, p, to, gone, come, op) && x != p && x != op.pid
    ensures (x in t.online <==> x in s.online) && (x in t.online ==> t.online[x] == s.online[x])
    ensures x in gone <==> InSight(l, s.online, p, x) && !InSight(l, t.online, p, x)
    ensures x in come <==> InSight(l, t.online, p, x) && !InSight(l, s.online, p, x)
    ensures x in Visible(l, AtAround(w, m, n), p) <==> InSight(l, t.online, p, x)
    ensures x in t.online ==> x in LastPositions(w, m, n) && LastPositions(w, m, n)[x] == t.online[x]
    ensures InSight(l, s.online, p, x) == InSight(l, s.online, x, p)
    ensures InSight(l, t.online, p, x) == InSight(l, t.online, x, p)
  {
    ThirdStays(l, s, m, n, p, to, op, x);
    SightOfOther(l, s, m, n, p, to, x);
    assert x in gone <==> x in OnlyNear(l, AtGone(w, m, n), s.online[p], to);
    assert x in come <==> x in OnlyNear(l, AtCome(w, m, n), to, s.online[p]);
  }

  /** What a third client believes about the mover */
  lemma ThirdOfMover(l: Layout, w: Window, s: State, m: State, n: State, t: State, p: Pid, to: Position,
                     gone: seq<Pid>, come: seq<Pid>, op: Op, c: Pid)
    requires Interrupted(l, w, s, m, n, t, p, to, gone, come, op)
    requires c != p && c != op.pid && PairRight(l, s, c, p)
    ensures PairRight(l, t, c, p)
  {
    if c in t.online {
      WalksOfThird(l, w, s, m, n, t, p, to, gone, come, op, c);
      OtherClient(l, m, n, op, c, p);
      PartsSeen(l, w, s, m, n, t, p, to, gone, come, c, p);
      assert LastPositions(w, m, n)[p] == to;
    }
  }

  /** What the mover believes about a third player */
  lemma MoverOfThird(l: Layout, w: Window, s: State, m: State, n: State, t: State, p: Pid, to: Position,
                     gone: seq<Pid>, come: seq<Pid>, op: Op, x: Pid)
    requires Interrupted(l, w, s, m, n, t, p, to, gone, come, op)
    requires x != p && x != op.pid && PairRight(l, s, p, x)
    ensures PairRight(l, t, p, x)
  {
    WalksOfThird(l, w, s, m, n, t, p, to, gone, come, op, x);
    OtherClient(l, m, n, op, p, x);
    PartsSeen(l, w, s, m, n, t, p, to, gone, come, p, x);
  }

  lemma MoverOfItself(l: Layout, w: Window, s: State, m: State, n: State, t: State, p: Pid, to: Position,
                      gone: seq<Pid>, come: seq<Pid>, op: Op)
    requires Interrupted(l, w, s, m, n, t, p, to, gone, come, op) && PairRight(l, s, p, p)
    ensures PairRight(l, t, p, p)
  {
    NearSymmetric(l, s.online[p], s.online[p]);
    NearSymmetric(l, to, to);
    assert p !in OnlyNear(l, AtGone(w, m, n), s.online[p], to);
    assert LastPositions(w, m, n)[p] == to;
    OtherClient(l, m, n, op, p, p);
    PartsSeen(l, w, s, m, n, t, p, to, gone, come, p, p);
  }

  /** What the other player believes about everybody but the mover */
  lemma OtherOfThird(l: Layout, w: Window, s: State, m: State, n: State, t: State, p: Pid, to: Position,
                     gone: seq<Pid>, come: seq<Pid>, op: Op, x: Pid)
    requires Interrupted(l, w, s, m, n, t, p, to, gone, come, op)
    requires x != p && PairRight(l, s, op.pid, x) && PairRight(l, s, op.pid, op.pid)
    ensures PairRight(l, t, op.pid, x)
  {
    var q := op.pid;
    if q in t.online {
      NearSymmetric(l, t.online[q], t.online[q]);
      OwnPicture(l, m, n, op, x);
      PartsSeen(l, w, s, m, n, t, p, to, gone, come, q, x);
      PartsSeen(l, w, s, m, n, t, p, to, gone, come, q, q);
    }
  }

  /** The picture of the one whose operation it is, if it stays online */
  lemma OwnPicture(l: Layout, m: State, n: State, op: Op, x: Pid)
    requires Step(l, m, n, op) && op.pid in n.online
    ensures var q := op.pid;
            var before, after := InSight(l, m.online, q, x), InSight(l, n.online, q, x);
            && q in n.sent
            && (op.Join? ==> q !in m.online && Sees(n.sent, q, x) == Expected(l, n.online, q, x))
            && (!op.Join? ==> q in m.online && q in m.sent)
            && (op.Say? ==> n.online == m.online && Sees(n.sent, q, x) == Sees(m.sent, q, x))
            && (op.MoveTo? && x != q ==> Sees(n.sent, q, x) == Shown(Left(Sees(m.sent, q, x), before && !after),
                                           after && !before, if x in n.online then n.online[x] else n.online[q]))
            && (op.MoveTo? && x == q && Sees(m.sent, q, q).Some? ==> Sees(n.sent, q, q) == Some(n.online[q]))
  {
    match op
    case Join(q, pos) =>
      JoinAgreesSelf(l, m, n, q, pos);
      LookAround(l, n.online, q, x);
    case MoveTo(q, far) => MoverItself(l, m, n, q, far, x);
    case Say(q, content) => SaySeen(m, n, q, content, q, x);
    case Quit(q) =>
  }

  // ---- The mover and the other player ----

  predicate NearAt(l: Layout, here: Position, there: Option<Position>) {
    there.Some? && Near(l, here, there.value)
  }

  /**
    An operation that takes the other player from `was` to `now` (None is offline) in the
    gap `w` of a move from `from` to `to` leaves a picture wrong.
   */
  predicate Spoils(l: Layout, w: Window, from: Position, to: Position, was: Option<Position>, now: Option<Position>) {
    var wasOld, wasNew := NearAt(l, from, was), NearAt(l, to, was);
    var nowOld, nowNew := NearAt(l, from, now), NearAt(l, to, now);
    match w
    case BeforeGone => (wasOld && !wasNew && !nowOld && !nowNew) || (!wasOld && wasNew && nowOld && nowNew)
    case BeforeLeaves => wasOld != wasNew && nowOld && nowNew
    case BeforeCome => !wasOld && wasNew && nowOld && nowNew
    case BeforeAppearances => !wasOld && wasNew && !nowNew
    case BeforeAround => false
    case BeforeMoves => false
  }

  /** How the other player is on the mover's walks */
  lemma WalksOfOther(l: Layout, w: Window, s: State, m: State, n: State, t: State, p: Pid, to: Position,
                     gone: seq<Pid>, come: seq<Pid>, op: Op)
    requires Interrupted(l, w, s, m, n, t, p, to, gone, come, op)
    ensures var q, from := op.pid, s.online[p];
            var was, now := Look(s.online, q), Look(n.online, q);
            && (q in gone <==> NearAt(l, from, if w.BeforeGone? then now else was)
                               && !NearAt(l, to, if w.BeforeGone? then now else was))
            && (q in come <==> NearAt(l, to, if AppearancesSent(w) || w.BeforeAppearances? then was else now)
                               && !NearAt(l, from, if AppearancesSent(w) || w.BeforeAppearances? then was else now))
            && (q in Visible(l, AtAround(w, m, n), p) <==> NearAt(l, to, if w.BeforeMoves? then was else now))
            && Look(LastPositions(w, m, n), q) == if AppearancesSent(w) || now.None? then was else now
  {
    var q, from := op.pid, s.online[p];
    assert Look(m.online, q) == Look(s.online, q);
    assert q in gone <==> q in OnlyNear(l, AtGone(w, m, n), from, to);
    assert q in come <==> q in OnlyNear(l, AtCome(w, m, n), to, from);
  }

  lemma SightOfOther(l: Layout, s: State, m: State, n: State, p: Pid, to: Position, q: Pid)
    requires p in s.online && q != p && m.online == s.online[p := to] && p in n.online && n.online[p] == to
    ensures InSight(l, s.online, p, q) == InSight(l, s.online, q, p) == NearAt(l, s.online[p], Look(s.online, q))
    ensures InSight(l, m.online, p, q) == InSight(l, m.online, q, p) == NearAt(l, to, Look(s.online, q))
    ensures InSight(l, n.online, p, q) == InSight(l, n.online, q, p) == NearAt(l, to, Look(n.online, q))
  {
    if q in s.online {
      NearSymmetric(l, s.online[p], s.online[q]);
      NearSymmetric(l, to, s.online[q]);
    }
    if q in n.online {
      NearSymmetric(l, to, n.online[q]);
    }
  }

  lemma MoverOfOther(l: Layout, w: Window, s: State, m: State, n: State, t: State, p: Pid, to: Position,
                     gone: seq<Pid>, come: seq<Pid>, op: Op)
    requires Interrupted(l, w, s, m, n, t, p, to, gone, come, op) && PairRight(l, s, p, op.pid)
    ensures PairRight(l, t, p, op.pid) <==>
            !Spoils(l, w, s.online[p], to, Look(s.online, op.pid), Look(t.online, op.pid))
  {
    var q := op.pid;
    SightOfOther(l, s, m, n, p, to, q);
    WalksOfOther(l, w, s, m, n, t, p, to, gone, come, op);
    OtherClient(l, m, n, op, p, q);
    PartsSeen(l, w, s, m, n, t, p, to, gone, come, p, q);
  }

  lemma OtherOfMover(l: Layout, w: Window, s: State, m: State, n: State, t: State, p: Pid, to: Position,
                     gone: seq<Pid>, come: seq<Pid>, op: Op)
    requires Interrupted(l, w, s, m, n, t, p, to, gone, come, op) && PairRight(l, s, op.pid, p)
    requires !Spoils(l, w, s.online[p], to, Look(s.online, op.pid), Look(t.online, op.pid))
    ensures PairRight(l, t, op.pid, p)
  {
    var q := op.pid;
    if q in t.online {
      SightOfOther(l, s, m, n, p, to, q);
      WalksOfOther(l, w, s, m, n, t, p, to, gone, come, op);
      OwnPicture(l, m, n, op, p);
      PartsSeen(l, w, s, m, n, t, p, to, gone, come, q, p);
    }
  }

  /**
    A whole operation of another player falls into a gap of a move. When both are over, the
    pictures of all clients are right if and only if it is not one that spoils that gap.
   */
  lemma InterruptedMoveIff(l: Layout, w: Window, s: State, m: State, n: State, t: State, p: Pid, to: Position,
                           gone: seq<Pid>, come: seq<Pid>, op: Op)
    requires AllAgree(l, s) && Interrupted(l, w, s, m, n, t, p, to, gone, come, op)
    ensures AllAgree(l, t) <==>
            !Spoils(l, w, s.online[p], to, Look(s.online, op.pid), Look(t.online, op.pid))
  {
    var q := op.pid;
    PairsRight(l, s);
    MoverOfOther(l, w, s, m, n, t, p, to, gone, come, op);
    if Spoils(l, w, s.online[p], to, Look(s.online, q), Look(t.online, q)) {
      AgreesPairwise(l, t, p);
    } else {
      OtherOfMover(l, w, s, m, n, t, p, to, gone, come, op);
      forall c
        ensures Agrees(l, t, c)
      {
        forall x
          ensures PairRight(l, t, c, x)
        {
          assert PairRight(l, s, c, x) && PairRight(l, s, c, c);
          AnyPair(l, w, s, m, n, t, p, to, gone, come, op, c, x);
        }
        AgreesPairwise(l, t, c);
      }
    }
  }

  /** A player read as gone: all is well unless it has come back into sight without leaving the old one. */
  lemma LeavesGapIff(l: Layout, s: State, m: State, n: State, t: State, p: Pid, to: Position,
                     gone: seq<Pid>, come: seq<Pid>, op: Op)
    requires AllAgree(l, s) && Interrupted(l, BeforeLeaves, s, m, n, t, p, to, gone, come, op) && op.pid in gone
    ensures var now := Look(t.online, op.pid);
            AllAgree(l, t) <==> !(NearAt(l, s.online[p], now) && NearAt(l, to, now))
  {
    WalksOfOther(l, BeforeLeaves, s, m, n, t, p, to, gone, come, op);
    InterruptedMoveIff(l, BeforeLeaves, s, m, n, t, p, to, gone, come, op);
  }

  /** A player read as coming: all is well if and only if it is still in sight. */
  lemma AppearancesGapIff(l: Layout, s: State, m: State, n: State, t: State, p: Pid, to: Position,
                          gone: seq<Pid>, come: seq<Pid>, op: Op)
    requires AllAgree(l, s) && Interrupted(l, BeforeAppearances, s, m, n, t, p, to, gone, come, op) && op.pid in come
    ensures AllAgree(l, t) <==> NearAt(l, to, Look(t.online, op.pid))
  {
    WalksOfOther(l, BeforeAppearances, s, m, n, t, p, to, gone, come, op);
    InterruptedMoveIff(l, BeforeAppearances, s, m, n, t, p, to, gone, come, op);
  }

  /** A quit spoils the gap before a read that would have found the player gone, or appearances that include it. */
  lemma QuitIff(l: Layout, w: Window, s: State, m: State, n: State, t: State, p: Pid, to: Position,
                gone: seq<Pid>, come: seq<Pid>, q: Pid)
    requires AllAgree(l, s) && Interrupted(l, w, s, m, n, t, p, to, gone, come, Quit(q))
    ensures AllAgree(l, t) <==>
            !(w.BeforeGone? && Near(l, s.online[p], s.online[q]) && !Near(l, to, s.online[q]))
            && !(w.BeforeAppearances? && q in come)
  {
    WalksOfOther(l, w, s, m, n, t, p, to, gone, come, Quit(q));
    InterruptedMoveIff(l, w, s, m, n, t, p, to, gone, come, Quit(q));
  }

  lemma PairsRight(l: Layout, s: State)
    requires AllAgree(l, s)
    ensures forall c, x :: PairRight(l, s, c, x)
  {
    forall c, x
      ensures PairRight(l, s, c, x)
    {
      AgreesPairwise(l, s, c);
    }
  }

  lemma AnyPair(l: Layout, w: Window, s: State, m: State, n: State, t: State, p: Pid, to: Position,
                gone: seq<Pid>, come: seq<Pid>, op: Op, c: Pid, x: Pid)
    requires Interrupted(l, w, s, m, n, t, p, to, gone, come, op)
    requires PairRight(l, s, c, x) && PairRight(l, s, c, c)
    requires PairRight(l, t, p, op.pid) && PairRight(l, t, op.pid, p)
    ensures PairRight(l, t, c, x)
  {
    var q := op.pid;
    if c == p {
      if x == p {
        MoverOfItself(l, w, s, m, n, t, p, to, gone, come, op);
      } else if x != q {
        MoverOfThird(l, w, s, m, n, t, p, to, gone, come, op, x);
      }
    } else if c == q {
      if x != p {
        OtherOfThird(l, w, s, m, n, t, p, to, gone, come, op, x);
      }
    } else if x == p {
      ThirdOfMover(l, w, s, m, n, t, p, to, gone, come, op, c);
    } else {
      Bystander(l, w, s, m, n, t, p, to, gone, come, op, c, x);
    }
  }

  // ---- Such schedules exist ----

  lemma {:induction false} SomeWalk(elements: set<Pid>) returns (order: seq<Pid>)
    ensures Enumerates(order, elements)
  {
    if elements == {} {
      order := [];
    } else {
      var x := ElementOf(elements);
      var before := SomeWalk(elements - {x});
      EnumeratesNext(before, elements - {x}, x);
      order := before + [x];
      assert elements - {x} + {x} == elements;
    }
  }

  lemma WalkHas<T>(order: seq<Pid>, elements: set<Pid>, values: map<Pid, T>)
    requires Enumerates(order, elements) && elements <= values.Keys
    ensures forall i :: 0 <= i < |order| ==> order[i] in values
  {
    forall i | 0 <= i < |order|
      ensures order[i] in values
    {
      assert order[i] in elements;
    }
  }

  /** A walk of online players, each of whom has a connection */
  lemma WalkConnected(order: seq<Pid>, elements: set<Pid>, s: State)
    requires Enumerates(order, elements) && elements <= s.online.Keys && Connected(s)
    ensures AllIn(order, s.sent) && AllOnline(order, s.online)
  {
    WalkHas(order, elements, s.sent);
    WalkHas(order, elements, s.online);
  }

  /** What the handlers are called with */
  predicate Allowed(l: Layout, s: State, op: Op) {
    match op
    case Join(p, pos) => p !in s.online && OnMap(l, pos)
    case MoveTo(p, to) => p in s.online && OnMap(l, to)
    case Say(p, _) => p in s.online
    case Quit(p) => p in s.online
  }

  lemma MovePossible(l: Layout, s: State, p: Pid, to: Position) returns (t: State)
    requires Connected(s) && p in s.online && OnMap(l, to)
    ensures MoveStep(l, s, t, p, to)
  {
    var online, from := s.online[p := to], s.online[p];
    var gone := SomeWalk(OnlyNear(l, online, from, to));
    var come := SomeWalk(OnlyNear(l, online, to, from));
    WalkConnected(gone, OnlyNear(l, online, from, to), State(online, s.sent));
    WalkConnected(come, OnlyNear(l, online, to, from), State(online, s.sent));
    t := State(online, Broadcast(AppearBoth(LeaveBoth(s.sent, p, gone), online, p, come), Visible(l, online, p), Move(p, to)));
    assert MoveSends(l, s.sent, t, p, from, gone, come);
  }

  lemma JoinPossible(l: Layout, s: State, p: Pid, pos: Position) returns (t: State)
    requires Connected(s) && p !in s.online && OnMap(l, pos)
    ensures JoinStep(l, s, t, p, pos)
  {
    var online := s.online[p := pos];
    var order := SomeWalk(Visible(l, online, p));
    WalkHas(order, Visible(l, online, p), online);
    t := State(online, Send(Broadcast(s.sent[p := [SyncPid(p)]], Visible(l, online, p), Appear(p, pos)),
                            p, SyncPlayers(Infos(online, order))));
    assert JoinSends(l, s.sent, t, p, order);
  }

  lemma StepPossible(l: Layout, s: State, op: Op) returns (t: State)
    requires Connected(s) && Allowed(l, s, op)
    ensures Step(l, s, t, op)
  {
    match op
    case Join(p, pos) => t := JoinPossible(l, s, p, pos);
    case MoveTo(p, to) => t := MovePossible(l, s, p, to);
    case Say(p, content) => t := State(s.online, Broadcast(s.sent, s.online.Keys, Talk(p, content)));
    case Quit(p) => t := State(s.online - {p}, Broadcast(s.sent, Visible(l, s.online, p), Leave(p)));
  }

  lemma StepKeepsOthers(l: Layout, m: State, n: State, op: Op, p: Pid)
    requires Step(l, m, n, op) && p in m.online && op.pid != p
    ensures p in n.online && n.online[p] == m.online[p] && p in m.sent && p in n.sent
    ensures m.sent.Keys <= n.sent.Keys && Connected(n)
  {
    StepConnected(l, m, n, op);
    OtherClient(l, m, n, op, p, p);
    match op
    case Join(q, pos) => var order :| JoinSends(l, m.sent, n, q, order);
    case MoveTo(q, far) =>
      var gone, come :| MoveSends(l, m.sent, n, q, m.online[q], gone, come);
      MoveSentSelf(l, m.sent, n, q, m.online[q], gone, come);
    case Say(_, _) =>
    case Quit(_) =>
  }

  /** Every operation can fall into every gap of every move of another player. */
  lemma Interruptible(l: Layout, w: Window, s: State, p: Pid, to: Position, op: Op)
    returns (m: State, n: State, t: State, gone: seq<Pid>, come: seq<Pid>)
    requires Connected(s) && p in s.online && OnMap(l, to) && Allowed(l, s, op) && op.pid != p
    ensures Interrupted(l, w, s, m, n, t, p, to, gone, come, op)
  {
    var online, from := s.online[p := to], s.online[p];
    var start := State(online, s.sent);
    gone := SomeWalk(OnlyNear(l, online, from, to));
    come := SomeWalk(OnlyNear(l, online, to, from));
    WalkConnected(gone, OnlyNear(l, online, from, to), start);
    WalkConnected(come, OnlyNear(l, online, to, from), start);
    m := Begin(w, start, p, gone, come);
    n := StepPossible(l, m, op);
    StepKeepsOthers(l, m, n, op, p);
    if w.BeforeGone? {
      gone := SomeWalk(OnlyNear(l, n.online, from, to));
      WalkConnected(gone, OnlyNear(l, n.online, from, to), n);
    }
    if NothingSent(w) || w.BeforeCome? {
      come := SomeWalk(OnlyNear(l, n.online, to, from));
      WalkConnected(come, OnlyNear(l, n.online, to, from), n);
    }
    t := Resume(l, w, s, m, n, p, to, gone, come);
  }

  /** Up to the gap */
  lemma Begin(w: Window, s: State, p: Pid, gone: seq<Pid>, come: seq<Pid>) returns (m: State)
    requires Connected(s) && p in s.online
    requires AllIn(gone, s.sent) && AllIn(come, s.sent) && AllOnline(come, s.online)
    ensures m.online == s.online && m.sent.Keys == s.sent.Keys
    ensures m.sent == if NothingSent(w) then s.sent
                      else if AppearancesSent(w) then AppearBoth(LeaveBoth(s.sent, p, gone), s.online, p, come)
                      else LeaveBoth(s.sent, p, gone)
  {
    m := s;
    if !NothingSent(w) {
      m := State(m.online, LeaveBoth(m.sent, p, gone));
    }
    if AppearancesSent(w) {
      m := State(m.online, AppearBoth(m.sent, m.online, p, come));
    }
  }

  /** From the gap on */
  lemma Resume(l: Layout, w: Window, s: State, m: State, n: State, p: Pid, to: Position,
               gone: seq<Pid>, come: seq<Pid>) returns (t: State)
    requires p in s.online && OnMap(l, to) && Connected(s) && p in s.sent
    requires m.online == s.online[p := to] && p in n.online && n.online[p] == to && p in n.sent
    requires ReadOrders(l, w, s, m, n, p, to, gone, come)
    requires m.sent == if NothingSent(w) then s.sent
                       else if AppearancesSent(w) then AppearBoth(LeaveBoth(s.sent, p, gone), m.online, p, come)
                       else LeaveBoth(s.sent, p, gone)
    ensures SplitMove(l, w, s, m, n, t, p, to, gone, come)
  {
    var pos, around := LastPositions(w, m, n), Visible(l, AtAround(w, m, n), p);
    var sent := n.sent;
    if NothingSent(w) {
      sent := LeaveBoth(sent, p, gone);
    }
    if !AppearancesSent(w) {
      sent := AppearBoth(sent, pos, p, come);
    }
    t := State(n.online, Broadcast(sent, around, Move(p, to)));
  }

  // ---- On the shipped map ----

  /** A position on the shipped map; `x / 20` is its column. */
  function At(x: nat): Position {
    Position(x, 0, 10, 0)
  }

  const SHIPPED := Layout(20, 50, 50)

  /** Columns 3 and 4 are where the mover starts and ends; where the other player starts and ends */
  function Columns(w: Window): (nat, nat) {
    match w
    case BeforeGone => (2, 1)
    case BeforeLeaves => (2, 3)
    case BeforeCome => (5, 4)
    case BeforeAppearances => (5, 6)
    case _ => (3, 4)
  }

  lemma Neighbours(i: nat, j: nat)
    requires i < 50 && j < 50
    ensures OnMap(SHIPPED, At(20 * i + 10))
    ensures Near(SHIPPED, At(20 * i + 10), At(20 * j + 10)) <==> -1 <= i - j <= 1
  {
  }

  lemma ColumnsSpoil(w: Window)
    requires !AppearancesSent(w)
    ensures var (i, j) := Columns(w);
            Spoils(SHIPPED, w, At(70), At(90), Some(At(20 * i + 10)), Some(At(20 * j + 10)))
  {
    var (i, j) := Columns(w);
    Neighbours(3, i);
    Neighbours(4, i);
    Neighbours(3, j);
    Neighbours(4, j);
  }

  lemma TwoJoin(l: Layout, a: Position, b: Position) returns (states: seq<State>, ops: seq<Op>)
    requires OnMap(l, a) && OnMap(l, b)
    ensures ops == [Join(1, a), Join(2, b)] && IsRun(l, states, ops)
    ensures states[2].online == map[1 := a, 2 := b]
  {
    var first := JoinPossible(l, INITIAL, 1, a);
    StepConnected(l, INITIAL, first, Join(1, a));
    var second := JoinPossible(l, first, 2, b);
    states, ops := [INITIAL, first, second], [Join(1, a), Join(2, b)];
    assert StepAt(l, states, ops, 0) && StepAt(l, states, ops, 1);
  }

  /**
    Two players join; while the first moves one cell on, the second moves one cell on too.
    In each of the first four gaps there is such a schedule that leaves a picture wrong.
   */
  lemma DisagreementExample(w: Window)
    returns (states: seq<State>, ops: seq<Op>, m: State, n: State, t: State, gone: seq<Pid>, come: seq<Pid>)
    requires !AppearancesSent(w)
    ensures IsRun(SHIPPED, states, ops) && |ops| == 2
    ensures Interrupted(SHIPPED, w, states[2], m, n, t, 1, At(90), gone, come, MoveTo(2, At(20 * Columns(w).1 + 10)))
    ensures !AllAgree(SHIPPED, t)
  {
    var (i, j) := Columns(w);
    Neighbours(3, i);
    Neighbours(4, j);
    states, ops := TwoJoin(SHIPPED, At(70), At(20 * i + 10));
    ViewAgreement(SHIPPED, states, ops);
    var op := MoveTo(2, At(20 * j + 10));
    m, n, t, gone, come := Interruptible(SHIPPED, w, states[2], 1, At(90), op);
    ColumnsSpoil(w);
    assert n.online[2] == At(20 * j + 10);
    InterruptedMoveIff(SHIPPED, w, states[2], m, n, t, 1, At(90), gone, come, op);
  }
}
