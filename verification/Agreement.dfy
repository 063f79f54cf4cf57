/**
  View agreement: after any run of whole operations, the picture every client has folded
  from its messages is what a scan over all players would give.
 */
module Agreement {
  import opened Containers
  import opened Geometry
  import opened Visibility

  ghost predicate Agrees(l: Layout, s: State, c: Pid) {
    c in s.online ==> c in s.sent && Watch(map[], s.sent[c]) == Surroundings(l, s.online, c)
  }

  ghost predicate AllAgree(l: Layout, s: State) {
    Connected(s) && forall c :: Agrees(l, s, c)
  }

  lemma NearSymmetric(l: Layout, p: Position, q: Position)
    ensures Near(l, p, q) == Near(l, q, p)
    ensures Near(l, p, p)
  {
  }

  lemma WatchIf(view: View, inbox: seq<Message>, b: bool, m: Message)
    ensures Watch(view, inbox + If(b, m)) == if b then See(Watch(view, inbox), m) else Watch(view, inbox)
  {
    if b {
      assert (inbox + [m])[..|inbox|] == inbox;
    } else {
      assert inbox + [] == inbox;
    }
  }

  function PositionsOf(online: map<Pid, Position>, order: seq<Pid>): View {
    map q | q in order && q in online :: online[q]
  }

  lemma PositionsOfNext(online: map<Pid, Position>, order: seq<Pid>)
    requires order != [] && AllOnline(order, online)
    ensures var n := |order| - 1;
            PositionsOf(online, order) == PositionsOf(online, order[..n])[order[n] := online[order[n]]]
  {
    var n := |order| - 1;
    forall q
      ensures q in order <==> q in order[..n] || q == order[n]
    {
      InPrefix(order, q);
    }
  }

  lemma AddMaps(view: View, m: View, q: Pid, pos: Position)
    ensures (view + m)[q := pos] == view + m[q := pos]
  {
  }

  lemma {:induction false} SeeInfos(view: View, online: map<Pid, Position>, order: seq<Pid>)
    requires AllOnline(order, online)
    ensures SeeAll(view, Infos(online, order)) == view + PositionsOf(online, order)
  {
    if order == [] {
      assert view + PositionsOf(online, []) == view;
    } else {
      var n := |order| - 1;
      SeeInfos(view, online, order[..n]);
      assert Infos(online, order)[..n] == Infos(online, order[..n]);
      PositionsOfNext(online, order);
      AddMaps(view, PositionsOf(online, order[..n]), order[n], online[order[n]]);
    }
  }

  function Without(view: View, order: seq<Pid>): View {
    map q | q in view && q !in order :: view[q]
  }

  lemma WithoutNext(view: View, order: seq<Pid>)
    requires order != []
    ensures Without(view, order) == Without(view, order[..|order| - 1]) - {order[|order| - 1]}
  {
    forall q
      ensures q in order <==> q in order[..|order| - 1] || q == order[|order| - 1]
    {
      InPrefix(order, q);
    }
  }

  lemma {:induction false} WatchLeaves(view: View, order: seq<Pid>)
    ensures Watch(view, Leaves(order)) == Without(view, order)
  {
    if order == [] {
      assert Without(view, []) == view;
    } else {
      var before, q := order[..|order| - 1], order[|order| - 1];
      WatchLeaves(view, before);
      WatchIf(view, Leaves(before), true, Leave(q));
      WithoutNext(view, order);
    }
  }

  lemma WatchOwnAndOther(view: View, inbox: seq<Message>, p: Pid, own: Position, q: Pid, pos: Position)
    requires q == p ==> pos == own
    ensures Watch(view, inbox + If(q == p, Appear(p, own)) + [Appear(q, pos)]) == Watch(view, inbox)[q := pos]
  {
    WatchIf(view, inbox, q == p, Appear(p, own));
    WatchIf(view, inbox + If(q == p, Appear(p, own)), true, Appear(q, pos));
    var seen := Watch(view, inbox);
    assert seen[q := pos][q := pos] == seen[q := pos];
  }

  lemma {:induction false} WatchAppears(view: View, online: map<Pid, Position>, p: Pid, order: seq<Pid>)
    requires p in online && AllOnline(order, online)
    ensures Watch(view, Appears(online, p, order)) == view + PositionsOf(online, order)
  {
    if order == [] {
      assert view + PositionsOf(online, []) == view;
    } else {
      var before, q := order[..|order| - 1], order[|order| - 1];
      WatchAppears(view, online, p, before);
      WatchOwnAndOther(view, Appears(online, p, before), p, online[p], q, online[q]);
      PositionsOfNext(online, order);
      AddMaps(view, PositionsOf(online, before), q, online[q]);
    }
  }

  // ---- Each operation keeps agreement ----

  /** How one player's new position changes what another one ought to see */
  lemma PlacedSeen(l: Layout, online: map<Pid, Position>, p: Pid, to: Position, c: Pid)
    requires c in online && c != p
    ensures var view := Surroundings(l, online, c);
            Surroundings(l, online[p := to], c) == if Near(l, to, online[c]) then view[p := to] else view - {p}
  {
    NearSymmetric(l, to, online[c]);
  }

  /** What the notices of one move do to a picture that had the mover if it was near */
  lemma NoticesSeen(inbox: seq<Message>, before: bool, after: bool, p: Pid, to: Position)
    requires p in Watch(map[], inbox) <==> before
    ensures Watch(map[], inbox + If(before && !after, Leave(p)) + If(after && !before, Appear(p, to)) + If(after, Move(p, to)))
         == if after then Watch(map[], inbox)[p := to] else Watch(map[], inbox) - {p}
  {
    var view := Watch(map[], inbox);
    WatchIf(map[], inbox, before && !after, Leave(p));
    WatchIf(map[], inbox + If(before && !after, Leave(p)), after && !before, Appear(p, to));
    WatchIf(map[], inbox + If(before && !after, Leave(p)) + If(after && !before, Appear(p, to)), after, Move(p, to));
    assert view[p := to][p := to] == view[p := to];
    assert !before ==> view - {p} == view;
  }

  lemma JoinSentSelf(l: Layout, s: State, s': State, p: Pid, order: seq<Pid>)
    requires p in s'.online && JoinSends(l, s.sent, s', p, order)
    ensures p in s'.sent
    ensures s'.sent[p] == [SyncPid(p), Appear(p, s'.online[p]), SyncPlayers(Infos(s'.online, order))]
  {
    NearSymmetric(l, s'.online[p], s'.online[p]);
    BroadcastAt(s.sent[p := [SyncPid(p)]], Visible(l, s'.online, p), Appear(p, s'.online[p]), p);
  }

  lemma JoinSentOther(l: Layout, s: State, s': State, p: Pid, order: seq<Pid>, c: Pid)
    requires p in s'.online && JoinSends(l, s.sent, s', p, order) && c != p && c in s.sent
    ensures c in s'.sent
    ensures s'.sent[c] == s.sent[c] + If(c in Visible(l, s'.online, p), Appear(p, s'.online[p]))
  {
    BroadcastAt(s.sent[p := [SyncPid(p)]], Visible(l, s'.online, p), Appear(p, s'.online[p]), c);
  }

  lemma JoinAgreesSelf(l: Layout, s: State, s': State, p: Pid, pos: Position)
    requires JoinStep(l, s, s', p, pos)
    ensures Agrees(l, s', p)
  {
    var order :| JoinSends(l, s.sent, s', p, order);
    JoinSentSelf(l, s, s', p, order);
    var inbox, players := [SyncPid(p), Appear(p, pos)], Infos(s'.online, order);
    assert inbox == [SyncPid(p)] + If(true, Appear(p, pos));
    assert s'.sent[p] == inbox + If(true, SyncPlayers(players));
    assert Watch(map[], [SyncPid(p)]) == map[];
    WatchIf(map[], [SyncPid(p)], true, Appear(p, pos));
    WatchIf(map[], inbox, true, SyncPlayers(players));
    SeeInfos(map[p := pos], s'.online, order);
    JoinerSees(l, s'.online, p, order);
  }

  lemma JoinerSees(l: Layout, online: map<Pid, Position>, p: Pid, order: seq<Pid>)
    requires p in online && Enumerates(order, Visible(l, online, p))
    ensures map[p := online[p]] + PositionsOf(online, order) == Surroundings(l, online, p)
  {
    NearSymmetric(l, online[p], online[p]);
    forall q
      ensures q in order <==> q in Surroundings(l, online, p)
    {
      assert q in order <==> q in Visible(l, online, p);
    }
  }

  lemma JoinAgreesOther(l: Layout, s: State, s': State, p: Pid, pos: Position, c: Pid)
    requires Agrees(l, s, c) && JoinStep(l, s, s', p, pos) && c != p
    ensures Agrees(l, s', c)
  {
    if c in s'.online {
      var order :| JoinSends(l, s.sent, s', p, order);
      JoinSentOther(l, s, s', p, order, c);
      WatchIf(map[], s.sent[c], c in Visible(l, s'.online, p), Appear(p, pos));
      PlacedSeen(l, s.online, p, pos, c);
      var view := Surroundings(l, s.online, c);
      assert view - {p} == view;
    }
  }

  lemma MoveAgreesOther(l: Layout, s: State, s': State, p: Pid, to: Position, c: Pid)
    requires Agrees(l, s, c) && MoveStep(l, s, s', p, to) && c != p
    ensures Agrees(l, s', c)
  {
    if c in s'.online {
      var from := s.online[p];
      var gone, come :| MoveSends(l, s.sent, s', p, from, gone, come);
      var before, after := Near(l, from, s.online[c]), Near(l, to, s.online[c]);
      MoveSentOther(l, s.sent, s', p, from, gone, come, c);
      assert c in gone <==> c in OnlyNear(l, s'.online, from, to);
      assert c in come <==> c in OnlyNear(l, s'.online, to, from);
      NearSymmetric(l, from, s.online[c]);
      NoticesSeen(s.sent[c], before, after, p, to);
      PlacedSeen(l, s.online, p, to, c);
    }
  }

  lemma MoveAgreesSelf(l: Layout, s: State, s': State, p: Pid, to: Position)
    requires Agrees(l, s, p) && MoveStep(l, s, s', p, to)
    ensures Agrees(l, s', p)
  {
    var from := s.online[p];
    var gone, come :| MoveSends(l, s.sent, s', p, from, gone, come);
    MoveSentSelf(l, s.sent, s', p, from, gone, come);
    NearSymmetric(l, from, from);
    NearSymmetric(l, to, to);
    var before := Surroundings(l, s.online, p);
    var appears := Appears(s'.online, p, come);
    WatchAppend(map[], s.sent[p], Leaves(gone));
    WatchLeaves(before, gone);
    WatchAppend(map[], s.sent[p] + Leaves(gone), appears);
    var rest := Without(before, gone);
    WatchAppears(rest, s'.online, p, come);
    WatchIf(map[], s.sent[p] + Leaves(gone) + appears, true, Move(p, to));
    MoverSees(l, s.online, s'.online, p, to, gone, come);
  }

  /**
    The crossing delta: the old visible set, less what is only near the old position,
    plus what is only near the new one, with the mover's own entry brought up to date,
    is exactly the new visible set.
   */
  lemma MoverSees(l: Layout, online: map<Pid, Position>, online': map<Pid, Position>, p: Pid, to: Position,
                  gone: seq<Pid>, come: seq<Pid>)
    requires p in online && online' == online[p := to]
    requires Enumerates(gone, OnlyNear(l, online', online[p], to))
    requires Enumerates(come, OnlyNear(l, online', to, online[p]))
    ensures p !in gone
    ensures var before := Surroundings(l, online, p);
            See(Without(before, gone) + PositionsOf(online', come), Move(p, to)) == Surroundings(l, online', p)
  {
    NearSymmetric(l, online[p], online[p]);
    NearSymmetric(l, to, to);
    var before := Surroundings(l, online, p);
    var view := See(Without(before, gone) + PositionsOf(online', come), Move(p, to));
    forall q
      ensures q in view <==> q in Surroundings(l, online', p)
      ensures q in view ==> view[q] == online'[q]
    {
      assert q in gone <==> q in OnlyNear(l, online', online[p], to);
      assert q in come <==> q in OnlyNear(l, online', to, online[p]);
    }
  }

  lemma SayAgrees(l: Layout, s: State, s': State, p: Pid, content: string, c: Pid)
    requires Agrees(l, s, c) && SayStep(s, s', p, content)
    ensures Agrees(l, s', c)
  {
    if c in s.online {
      BroadcastAt(s.sent, s.online.Keys, Talk(p, content), c);
      WatchIf(map[], s.sent[c], true, Talk(p, content));
    }
  }

  lemma QuitAgrees(l: Layout, s: State, s': State, p: Pid, c: Pid)
    requires Agrees(l, s, c) && QuitStep(l, s, s', p)
    ensures Agrees(l, s', c)
  {
    if c in s'.online {
      NearSymmetric(l, s.online[p], s.online[c]);
      var visible := Visible(l, s.online, p);
      BroadcastAt(s.sent, visible, Leave(p), c);
      WatchIf(map[], s.sent[c], c in visible, Leave(p));
    }
  }

  lemma StepConnected(l: Layout, s: State, s': State, op: Op)
    requires Step(l, s, s', op)
    ensures Connected(s')
  {
    match op
    case Join(p, pos) =>
    case MoveTo(p, to) =>
      var gone, come :| MoveSends(l, s.sent, s', p, s.online[p], gone, come);
      MoveSentSelf(l, s.sent, s', p, s.online[p], gone, come);
    case Say(p, content) =>
    case Quit(p) =>
  }

  lemma StepAgrees(l: Layout, s: State, s': State, op: Op)
    requires AllAgree(l, s) && Step(l, s, s', op)
    ensures AllAgree(l, s')
  {
    StepConnected(l, s, s', op);
    forall c
      ensures Agrees(l, s', c)
    {
      assert Agrees(l, s, c);
      match op
      case Join(p, pos) =>
        if c == p { JoinAgreesSelf(l, s, s', p, pos); } else { JoinAgreesOther(l, s, s', p, pos, c); }
      case MoveTo(p, to) =>
        if c == p { MoveAgreesSelf(l, s, s', p, to); } else { MoveAgreesOther(l, s, s', p, to, c); }
      case Say(p, content) => SayAgrees(l, s, s', p, content, c);
      case Quit(p) => QuitAgrees(l, s, s', p, c);
    }
  }

  lemma RunPrefix(l: Layout, states: seq<State>, ops: seq<Op>)
    requires IsRun(l, states, ops) && ops != []
    ensures IsRun(l, states[..|ops|], ops[..|ops| - 1])
    ensures Step(l, states[|ops| - 1], states[|ops|], ops[|ops| - 1])
  {
    var n := |ops| - 1;
    assert StepAt(l, states, ops, n);
    forall i | 0 <= i < n
      ensures StepAt(l, states[..|ops|], ops[..n], i)
    {
      assert StepAt(l, states, ops, i);
    }
  }

  /** After any run, every online client's picture is the brute-force one. */
  lemma {:induction false} ViewAgreement(l: Layout, states: seq<State>, ops: seq<Op>)
    requires IsRun(l, states, ops)
    ensures AllAgree(l, states[|ops|])
    decreases |ops|
  {
    if ops != [] {
      var n := |ops| - 1;
      RunPrefix(l, states, ops);
      ViewAgreement(l, states[..|ops|], ops[..n]);
      StepAgrees(l, states[n], states[n + 1], ops[n]);
    }
  }
}
