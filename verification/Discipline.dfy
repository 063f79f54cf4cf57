/**
  The discipline of the notices one client gets about one other player, and reciprocity:
  who is told of whom in a move.
 */
module Discipline {
  import opened Containers
  import opened Geometry
  import opened Visibility
  import opened Agreement

  datatype Notice = Appeared | Moved | Left

  function Appearances(players: seq<Info>, q: Pid): seq<Notice> {
    if players == [] then []
    else Appearances(players[..|players| - 1], q) + if players[|players| - 1].pid == q then [Appeared] else []
  }

  function NoticesOf(m: Message, q: Pid): seq<Notice> {
    match m
    case Appear(r, _) => if r == q then [Appeared] else []
    case Move(r, _) => if r == q then [Moved] else []
    case Leave(r) => if r == q then [Left] else []
    case SyncPlayers(players) => Appearances(players, q)
    case SyncPid(_) => []
    case Talk(_, _) => []
  }

  /** What a client's inbox says about player `q` */
  function Notices(inbox: seq<Message>, q: Pid): seq<Notice> {
    if inbox == [] then []
    else Notices(inbox[..|inbox| - 1], q) + NoticesOf(inbox[|inbox| - 1], q)
  }

  lemma {:induction false} NoticesAppend(a: seq<Message>, b: seq<Message>, q: Pid)
    ensures Notices(a + b, q) == Notices(a, q) + Notices(b, q)
  {
    if b == [] {
      assert a + b == a;
    } else {
      var n := |b| - 1;
      assert (a + b)[..|a + b| - 1] == a + b[..n];
      NoticesAppend(a, b[..n], q);
      Associate(Notices(a, q), Notices(b[..n], q), NoticesOf(b[n], q));
    }
  }

  lemma NoticesIf(b: bool, m: Message, q: Pid)
    ensures Notices(If(b, m), q) == if b then NoticesOf(m, q) else []
  {
    assert [] + NoticesOf(m, q) == NoticesOf(m, q);
    assert [m][..0] == [];
  }

  // ---- The legal sequences, as an automaton and as a grammar ----

  datatype Sight = Hidden | Shown | Broken

  function Next(sight: Sight, n: Notice): Sight {
    match (sight, n)
    case (Hidden, Appeared) => Shown
    case (Shown, Moved) => Shown
    case (Shown, Left) => Hidden
    case _ => Broken
  }

  function Follow(sight: Sight, notices: seq<Notice>): Sight {
    if notices == [] then sight
    else Next(Follow(sight, notices[..|notices| - 1]), notices[|notices| - 1])
  }

  lemma {:induction false} FollowAppend(sight: Sight, a: seq<Notice>, b: seq<Notice>)
    ensures Follow(sight, a + b) == Follow(Follow(sight, a), b)
  {
    if b == [] {
      assert a + b == a;
    } else {
      var n := |b| - 1;
      assert (a + b)[..|a + b| - 1] == a + b[..n];
      FollowAppend(sight, a, b[..n]);
    }
  }

  /** A prefix of (appear move* leave)*, for a player not shown ... */
  predicate Episodes(notices: seq<Notice>) {
    notices != [] ==> notices[0] == Appeared && Continues(notices[1..])
  }

  /** ... and for one that is */
  predicate Continues(notices: seq<Notice>) {
    notices != [] ==>
      || (notices[0] == Moved && Continues(notices[1..]))
      || (notices[0] == Left && Episodes(notices[1..]))
  }

  lemma {:induction false} FollowFirst(sight: Sight, notices: seq<Notice>)
    requires notices != []
    ensures Follow(sight, notices) == Follow(Next(sight, notices[0]), notices[1..])
  {
    assert notices == [notices[0]] + notices[1..];
    FollowAppend(sight, [notices[0]], notices[1..]);
    assert [notices[0]][..0] == [];
  }

  lemma {:induction false} BrokenForever(notices: seq<Notice>)
    ensures Follow(Broken, notices) == Broken
  {
    if notices != [] {
      BrokenForever(notices[..|notices| - 1]);
    }
  }

  /** The automaton accepts exactly the prefixes of (appear move* leave)*. */
  lemma {:induction false} EpisodesIff(notices: seq<Notice>)
    ensures Follow(Hidden, notices) != Broken <==> Episodes(notices)
    ensures Follow(Shown, notices) != Broken <==> Continues(notices)
  {
    if notices != [] {
      FollowFirst(Hidden, notices);
      FollowFirst(Shown, notices);
      EpisodesIff(notices[1..]);
      BrokenForever(notices[1..]);
    }
  }

  // ---- The invariant on one client and one other player ----

  function Tracked(inbox: seq<Message>, q: Pid): Sight {
    Follow(Hidden, Notices(inbox, q))
  }

  lemma TrackedAppend(a: seq<Message>, b: seq<Message>, q: Pid)
    ensures Tracked(a + b, q) == Follow(Tracked(a, q), Notices(b, q))
  {
    NoticesAppend(a, b, q);
    FollowAppend(Hidden, Notices(a, q), Notices(b, q));
  }

  lemma FollowOne(sight: Sight, n: Notice)
    ensures Follow(sight, [n]) == Next(sight, n)
  {
    assert [n][..0] == [];
  }

  lemma TrackedIf(inbox: seq<Message>, b: bool, m: Message, q: Pid)
    ensures Tracked(inbox + If(b, m), q) == if b then Follow(Tracked(inbox, q), NoticesOf(m, q)) else Tracked(inbox, q)
  {
    TrackedAppend(inbox, If(b, m), q);
    NoticesIf(b, m, q);
  }

  /** `c` sees `q` by a scan over the players */
  predicate Sees(l: Layout, online: map<Pid, Position>, c: Pid, q: Pid) {
    c in online && q in online && Near(l, online[c], online[q])
  }

  /** Client `c` was told of `q` in legal order, and holds it shown exactly when it sees it. */
  ghost predicate PairOk(l: Layout, s: State, c: Pid, q: Pid) {
    && (c in s.sent ==> Tracked(s.sent[c], q) != Broken)
    && (c in s.online ==> c in s.sent && (Tracked(s.sent[c], q) == Shown <==> Sees(l, s.online, c, q)))
  }

  ghost predicate Disciplined(l: Layout, s: State) {
    && Connected(s)
    && forall c, q :: c != q ==> PairOk(l, s, c, q)
  }

  /** The notices of a crossing: gone out of sight, or come into it */
  function Crossing(before: bool, after: bool): seq<Notice> {
    if before && !after then [Left] else if after && !before then [Appeared] else []
  }

  lemma FollowCrossing(sight: Sight, before: bool, after: bool)
    requires sight == if before then Shown else Hidden
    ensures Follow(sight, Crossing(before, after)) == if after then Shown else Hidden
    ensures Follow(sight, Crossing(before, after) + if after then [Moved] else []) == if after then Shown else Hidden
  {
    FollowAppend(sight, Crossing(before, after), if after then [Moved] else []);
    assert [Left][..0] == [] && [Appeared][..0] == [] && [Moved][..0] == [];
  }

  lemma {:induction false} NoticesInLeaves(order: seq<Pid>, q: Pid)
    requires Distinct(order)
    ensures Notices(Leaves(order), q) == if q in order then [Left] else []
  {
    if order != [] {
      var before, r := order[..|order| - 1], order[|order| - 1];
      NoticesInLeaves(before, q);
      NoticesAppend(Leaves(before), [Leave(r)], q);
      NoticesIf(true, Leave(r), q);
      InPrefix(order, q);
      LastIsNew(order);
    }
  }

  lemma NoticesOwnAndOther(inbox: seq<Message>, p: Pid, own: Position, r: Pid, pos: Position, q: Pid)
    requires q != p
    ensures Notices(inbox + If(r == p, Appear(p, own)) + [Appear(r, pos)], q)
         == Notices(inbox, q) + if r == q then [Appeared] else []
  {
    NoticesAppend(inbox + If(r == p, Appear(p, own)), [Appear(r, pos)], q);
    NoticesAppend(inbox, If(r == p, Appear(p, own)), q);
    NoticesIf(r == p, Appear(p, own), q);
    NoticesIf(true, Appear(r, pos), q);
    assert Notices(inbox, q) + [] == Notices(inbox, q);
  }

  lemma {:induction false} NoticesInAppears(online: map<Pid, Position>, p: Pid, order: seq<Pid>, q: Pid)
    requires p in online && AllOnline(order, online)
    requires Distinct(order) && q != p
    ensures Notices(Appears(online, p, order), q) == if q in order then [Appeared] else []
  {
    if order != [] {
      var before, r := order[..|order| - 1], order[|order| - 1];
      NoticesInAppears(online, p, before, q);
      NoticesOwnAndOther(Appears(online, p, before), p, online[p], r, online[r], q);
      InPrefix(order, q);
      LastIsNew(order);
    }
  }

  /** All that a mover is told in one move, as far as another player is concerned */
  lemma NoticesToMover(online: map<Pid, Position>, p: Pid, gone: seq<Pid>, come: seq<Pid>, q: Pid)
    requires p in online && AllOnline(come, online)
    requires Distinct(gone) && Distinct(come) && q != p
    requires !(q in gone && q in come)
    ensures Notices(Leaves(gone) + Appears(online, p, come) + [Move(p, online[p])], q) == Crossing(q in gone, q in come)
  {
    var leaves, appears, move := Leaves(gone), Appears(online, p, come), Move(p, online[p]);
    NoticesAppend(leaves + appears, [move], q);
    NoticesAppend(leaves, appears, q);
    NoticesInLeaves(gone, q);
    NoticesInAppears(online, p, come, q);
    NoticesIf(true, move, q);
  }

  lemma {:induction false} AppearancesInInfos(online: map<Pid, Position>, order: seq<Pid>, q: Pid)
    requires AllOnline(order, online) && Distinct(order)
    ensures Appearances(Infos(online, order), q) == if q in order then [Appeared] else []
  {
    if order != [] {
      var n := |order| - 1;
      AppearancesInInfos(online, order[..n], q);
      assert Infos(online, order)[..n] == Infos(online, order[..n]);
      InPrefix(order, q);
      LastIsNew(order);
    }
  }

  // ---- Reciprocity ----

  /**
    In a move, the mover gets a leave (or an appearance) of another player exactly when
    that player gets one of the mover, once each; besides these the other player gets
    one move notice if the mover ends up near it.
   */
  lemma MoveIsReciprocal(l: Layout, s: State, s': State, p: Pid, to: Position, q: Pid)
    requires MoveStep(l, s, s', p, to) && q in s.online && q != p
    ensures p in s'.sent && s.sent[p] <= s'.sent[p]
    ensures q in s'.sent && s.sent[q] <= s'.sent[q]
    ensures var before, after := Sees(l, s.online, p, q), Sees(l, s'.online, p, q);
            && Notices(s'.sent[p][|s.sent[p]|..], q) == Crossing(before, after)
            && Notices(s'.sent[q][|s.sent[q]|..], p) == Crossing(before, after) + if after then [Moved] else []
  {
    var from := s.online[p];
    var gone, come :| MoveSends(l, s.sent, s', p, from, gone, come);
    MoverNotices(l, s, s', p, from, gone, come, q);
    BystanderNotices(l, s, s', p, from, gone, come, q);
  }

  lemma MoverNotices(l: Layout, s: State, s': State, p: Pid, from: Position, gone: seq<Pid>, come: seq<Pid>, q: Pid)
    requires p in s'.online && MoveSends(l, s.sent, s', p, from, gone, come) && q != p
    ensures p in s'.sent && s.sent[p] <= s'.sent[p]
    ensures Notices(s'.sent[p][|s.sent[p]|..], q)
         == Crossing(q in s'.online && Near(l, from, s'.online[q]),
                     q in s'.online && Near(l, s'.online[p], s'.online[q]))
  {
    var to := s'.online[p];
    MoveSentSelf(l, s.sent, s', p, from, gone, come);
    AppendThree(s.sent[p], Leaves(gone), Appears(s'.online, p, come), [Move(p, to)]);
    assert q in gone <==> q in OnlyNear(l, s'.online, from, to);
    assert q in come <==> q in OnlyNear(l, s'.online, to, from);
    NoticesToMover(s'.online, p, gone, come, q);
  }

  lemma BystanderNotices(l: Layout, s: State, s': State, p: Pid, from: Position, gone: seq<Pid>, come: seq<Pid>, c: Pid)
    requires p in s'.online && MoveSends(l, s.sent, s', p, from, gone, come)
    requires c in s.sent && c != p
    ensures c in s'.sent && s.sent[c] <= s'.sent[c]
    ensures var before := c in s'.online && Near(l, from, s'.online[c]);
            var after := c in s'.online && Near(l, s'.online[p], s'.online[c]);
            Notices(s'.sent[c][|s.sent[c]|..], p) == Crossing(before, after) + if after then [Moved] else []
    ensures forall q :: q != p ==> Notices(s'.sent[c][|s.sent[c]|..], q) == []
  {
    var to := s'.online[p];
    MoveSentOther(l, s.sent, s', p, from, gone, come, c);
    assert c in gone <==> c in OnlyNear(l, s'.online, from, to);
    assert c in come <==> c in OnlyNear(l, s'.online, to, from);
    var left, seen, moved := c in gone, c in come, c in Visible(l, s'.online, p);
    AppendThree(s.sent[c], If(left, Leave(p)), If(seen, Appear(p, to)), If(moved, Move(p, to)));
    forall q
      ensures Notices(s'.sent[c][|s.sent[c]|..], q)
           == if q == p then Crossing(left, seen) + if moved then [Moved] else [] else []
    {
      ThreeNotices(left, seen, moved, p, to, q);
    }
  }

  lemma AppendThree(inbox: seq<Message>, a: seq<Message>, b: seq<Message>, c: seq<Message>)
    ensures inbox + a + b + c == inbox + (a + b + c)
    ensures inbox <= inbox + a + b + c
    ensures (inbox + a + b + c)[|inbox|..] == a + b + c
  {
  }

  lemma ThreeNotices(left: bool, seen: bool, moved: bool, p: Pid, to: Position, q: Pid)
    requires !(left && seen)
    ensures Notices(If(left, Leave(p)) + If(seen, Appear(p, to)) + If(moved, Move(p, to)), q)
         == if q == p then Crossing(left, seen) + if moved then [Moved] else [] else []
  {
    NoticesAppend(If(left, Leave(p)) + If(seen, Appear(p, to)), If(moved, Move(p, to)), q);
    NoticesAppend(If(left, Leave(p)), If(seen, Appear(p, to)), q);
    NoticesIf(left, Leave(p), q);
    NoticesIf(seen, Appear(p, to), q);
    NoticesIf(moved, Move(p, to), q);
  }

  // ---- Each operation keeps the discipline ----

  lemma NoticesToJoiner(p: Pid, pos: Position, players: seq<Info>, q: Pid)
    requires q != p
    ensures Notices([SyncPid(p), Appear(p, pos), SyncPlayers(players)], q) == Appearances(players, q)
  {
    assert [SyncPid(p), Appear(p, pos), SyncPlayers(players)] == [SyncPid(p)] + [Appear(p, pos)] + [SyncPlayers(players)];
    NoticesAppend([SyncPid(p)] + [Appear(p, pos)], [SyncPlayers(players)], q);
    NoticesAppend([SyncPid(p)], [Appear(p, pos)], q);
    NoticesIf(true, SyncPid(p), q);
    NoticesIf(true, Appear(p, pos), q);
    NoticesIf(true, SyncPlayers(players), q);
    assert [] + Appearances(players, q) == Appearances(players, q);
  }

  lemma JoinPairSelf(l: Layout, s: State, s': State, p: Pid, pos: Position, q: Pid)
    requires JoinStep(l, s, s', p, pos) && p != q
    ensures PairOk(l, s', p, q)
  {
    var order :| JoinSends(l, s.sent, s', p, order);
    JoinSentSelf(l, s, s', p, order);
    NoticesToJoiner(p, pos, Infos(s'.online, order), q);
    AppearancesInInfos(s'.online, order, q);
    assert q in order <==> q in Visible(l, s'.online, p);
    FollowOne(Hidden, Appeared);
  }

  lemma JoinPairOfJoiner(l: Layout, s: State, s': State, p: Pid, pos: Position, c: Pid)
    requires PairOk(l, s, c, p) && JoinStep(l, s, s', p, pos) && c != p && c in s.sent
    ensures PairOk(l, s', c, p)
  {
    var order :| JoinSends(l, s.sent, s', p, order);
    var visible := c in Visible(l, s'.online, p);
    JoinSentOther(l, s, s', p, order, c);
    TrackedIf(s.sent[c], visible, Appear(p, pos), p);
    FollowOne(Tracked(s.sent[c], p), Appeared);
    if c in s.online {
      assert Tracked(s.sent[c], p) == Hidden;
      NearSymmetric(l, pos, s.online[c]);
    }
  }

  lemma JoinPairOfOther(l: Layout, s: State, s': State, p: Pid, pos: Position, c: Pid, q: Pid)
    requires PairOk(l, s, c, q) && JoinStep(l, s, s', p, pos) && c != p && q != p && c in s.sent
    ensures PairOk(l, s', c, q)
  {
    var order :| JoinSends(l, s.sent, s', p, order);
    JoinSentOther(l, s, s', p, order, c);
    TrackedIf(s.sent[c], c in Visible(l, s'.online, p), Appear(p, pos), q);
  }

  lemma JoinKeys(l: Layout, s: State, s': State, p: Pid, pos: Position)
    requires JoinStep(l, s, s', p, pos)
    ensures s'.sent.Keys == s.sent.Keys + {p}
  {
  }

  lemma JoinPair(l: Layout, s: State, s': State, p: Pid, pos: Position, c: Pid, q: Pid)
    requires PairOk(l, s, c, q) && JoinStep(l, s, s', p, pos) && c != q
    ensures PairOk(l, s', c, q)
  {
    JoinKeys(l, s, s', p, pos);
    if c == p {
      JoinPairSelf(l, s, s', p, pos, q);
    } else if c in s.sent {
      if q == p {
        JoinPairOfJoiner(l, s, s', p, pos, c);
      } else {
        JoinPairOfOther(l, s, s', p, pos, c, q);
      }
    }
  }

  lemma MovePairSelf(l: Layout, s: State, s': State, p: Pid, to: Position, q: Pid)
    requires Connected(s) && PairOk(l, s, p, q) && MoveStep(l, s, s', p, to) && p != q
    ensures PairOk(l, s', p, q)
  {
    var from := s.online[p];
    var gone, come :| MoveSends(l, s.sent, s', p, from, gone, come);
    MoverNotices(l, s, s', p, from, gone, come, q);
    MovedOn(s.sent[p], s'.sent[p], q);
    FollowCrossing(Tracked(s.sent[p], q), Sees(l, s.online, p, q), Sees(l, s'.online, p, q));
  }

  lemma MovePairOther(l: Layout, s: State, s': State, p: Pid, to: Position, c: Pid, q: Pid)
    requires Connected(s) && PairOk(l, s, c, q) && MoveStep(l, s, s', p, to) && c != q && c != p && c in s.sent
    ensures PairOk(l, s', c, q)
  {
    var from := s.online[p];
    var gone, come :| MoveSends(l, s.sent, s', p, from, gone, come);
    BystanderNotices(l, s, s', p, from, gone, come, c);
    MovedOn(s.sent[c], s'.sent[c], q);
    if q == p {
      if c in s.online {
        NearSymmetric(l, from, s.online[c]);
        NearSymmetric(l, to, s.online[c]);
        FollowCrossing(Tracked(s.sent[c], p), Sees(l, s.online, c, p), Sees(l, s'.online, c, p));
      } else {
        assert Crossing(false, false) + [] == [];
      }
    }
  }

  lemma MovePair(l: Layout, s: State, s': State, p: Pid, to: Position, c: Pid, q: Pid)
    requires Connected(s) && PairOk(l, s, c, q) && MoveStep(l, s, s', p, to) && c != q
    ensures PairOk(l, s', c, q)
  {
    var gone, come :| MoveSends(l, s.sent, s', p, s.online[p], gone, come);
    MoveSentSelf(l, s.sent, s', p, s.online[p], gone, come);
    if c == p {
      MovePairSelf(l, s, s', p, to, q);
    } else if c in s.sent {
      MovePairOther(l, s, s', p, to, c, q);
    }
  }

  lemma MovedOn(inbox: seq<Message>, longer: seq<Message>, q: Pid)
    requires inbox <= longer
    ensures Tracked(longer, q) == Follow(Tracked(inbox, q), Notices(longer[|inbox|..], q))
  {
    assert longer == inbox + longer[|inbox|..];
    TrackedAppend(inbox, longer[|inbox|..], q);
  }

  lemma SayPair(l: Layout, s: State, s': State, p: Pid, content: string, c: Pid, q: Pid)
    requires Connected(s) && PairOk(l, s, c, q) && SayStep(s, s', p, content)
    ensures PairOk(l, s', c, q)
  {
    if c in s.sent {
      var told := c in s.online.Keys;
      BroadcastAt(s.sent, s.online.Keys, Talk(p, content), c);
      TrackedIf(s.sent[c], told, Talk(p, content), q);
    }
  }

  lemma QuitPair(l: Layout, s: State, s': State, p: Pid, c: Pid, q: Pid)
    requires Connected(s) && PairOk(l, s, c, q) && QuitStep(l, s, s', p) && c != q
    ensures PairOk(l, s', c, q)
  {
    if c in s.sent {
      var told := c in Visible(l, s.online, p);
      BroadcastAt(s.sent, Visible(l, s.online, p), Leave(p), c);
      TrackedIf(s.sent[c], told, Leave(p), q);
      FollowOne(Tracked(s.sent[c], q), Left);
      if c in s.online {
        NearSymmetric(l, s.online[p], s.online[c]);
      }
    }
  }

  lemma StepDisciplined(l: Layout, s: State, s': State, op: Op)
    requires Disciplined(l, s) && Step(l, s, s', op)
    ensures Disciplined(l, s')
  {
    StepConnected(l, s, s', op);
    forall c, q | c != q
      ensures PairOk(l, s', c, q)
    {
      assert PairOk(l, s, c, q);
      match op
      case Join(p, pos) => JoinPair(l, s, s', p, pos, c, q);
      case MoveTo(p, to) => MovePair(l, s, s', p, to, c, q);
      case Say(p, content) => SayPair(l, s, s', p, content, c, q);
      case Quit(p) => QuitPair(l, s, s', p, c, q);
    }
  }

  /**
    After any run, what each client was ever told about each other player is a prefix of
    (appear move* leave)*, also for clients that have left.
   */
  lemma {:induction false} TraceDiscipline(l: Layout, states: seq<State>, ops: seq<Op>)
    requires IsRun(l, states, ops)
    ensures Disciplined(l, states[|ops|])
    ensures forall c, q :: c in states[|ops|].sent && c != q ==> Episodes(Notices(states[|ops|].sent[c], q))
    decreases |ops|
  {
    var last := states[|ops|];
    if ops != [] {
      var n := |ops| - 1;
      RunPrefix(l, states, ops);
      TraceDiscipline(l, states[..|ops|], ops[..n]);
      StepDisciplined(l, states[n], last, ops[n]);
    }
    forall c, q | c in last.sent && c != q
      ensures Episodes(Notices(last.sent[c], q))
    {
      assert PairOk(l, last, c, q);
      EpisodesIff(Notices(last.sent[c], q));
    }
  }

  /** In every reachable state sight is mutual: each holds the other shown, or neither does. */
  lemma MutualSight(l: Layout, states: seq<State>, ops: seq<Op>, p: Pid, q: Pid)
    requires IsRun(l, states, ops)
    requires p in states[|ops|].online && q in states[|ops|].online
    ensures var s := states[|ops|];
            && p in s.sent && q in s.sent
            && (q in Watch(map[], s.sent[p]) <==> p in Watch(map[], s.sent[q]))
            && (p != q ==> (Tracked(s.sent[p], q) == Shown <==> Tracked(s.sent[q], p) == Shown))
  {
    var s := states[|ops|];
    ViewAgreement(l, states, ops);
    TraceDiscipline(l, states, ops);
    assert Agrees(l, s, p) && Agrees(l, s, q);
    NearSymmetric(l, s.online[p], s.online[q]);
    if p != q {
      assert PairOk(l, s, p, q) && PairOk(l, s, q, p);
    }
  }
}
