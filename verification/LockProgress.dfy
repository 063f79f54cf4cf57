/**
  What threads can get done under the locks: a thread that finds the others' locks free can
  finish its operation by itself.
 */
module LockProgress {
  import opened Containers
  import opened Geometry
  import opened Visibility
  import opened PlayerIds
  import opened LockModel
  import opened LockSafety

  ghost predicate Reachable(l: Layout, s: Machine) {
    exists states :: IsExecution(l, states) && states[|states| - 1] == s
  }

  lemma StartReachable(l: Layout)
    ensures Reachable(l, Start(l))
  {
    assert IsExecution(l, [Start(l)]);
  }

  lemma ReachNext(l: Layout, s: Machine, s': Machine)
    requires Reachable(l, s) && Next(l, s, s')
    ensures Reachable(l, s')
  {
    var states :| IsExecution(l, states) && states[|states| - 1] == s;
    var more := states + [s'];
    forall i | 0 <= i < |more| - 1
      ensures NextAt(l, more, i)
    {
      assert i < |states| - 1 ==> NextAt(l, states, i);
    }
    assert IsExecution(l, more);
  }

  lemma ReachableInv(l: Layout, s: Machine)
    requires Reachable(l, s)
    ensures Inv(l, s)
  {
    var states :| IsExecution(l, states) && states[|states| - 1] == s;
    AlwaysInv(l, states, |states| - 1);
  }

  predicate HoldsNothing(t: Thread) {
    t.world.None? && t.grid.None? && t.player.None?
  }

  /** No other thread holds a lock. */
  ghost predicate OthersFree(s: Machine, p: Pid) {
    forall q :: q in s.threads && q != p ==> HoldsNothing(s.threads[q])
  }

  lemma OthersStayFree(s: Machine, s': Machine, p: Pid)
    requires OthersFree(s, p) && OnlyTouches(s, s', p)
    ensures OthersFree(s', p)
  {
  }

  lemma TouchesThen(s: Machine, m: Machine, s': Machine, p: Pid)
    requires OnlyTouches(s, m, p) && OnlyTouches(m, s', p)
    ensures OnlyTouches(s, s', p)
  {
  }

  // ---- What the code does to the thread's own state ----

  /** The code neither starts a new result nor adds to it. */
  predicate KeepsResult(code: seq<Instr>) {
    forall k :: 0 <= k < |code| ==> !code[k].AcquireWorld? && !code[k].CopyMap? && !code[k].GridRead?
  }

  predicate KeepsOnline(code: seq<Instr>) {
    forall k :: 0 <= k < |code| ==> !code[k].MapErase?
  }

  predicate KeepsPosition(code: seq<Instr>) {
    forall k :: 0 <= k < |code| ==> !code[k].WritePos?
  }

  /** What running `code` from `s` to `s'` does for thread `p` */
  ghost predicate Effect(s: Machine, s': Machine, p: Pid, code: seq<Instr>) {
    && p in s.threads && p in s.pos && p in s'.threads && p in s'.pos
    && var t, u := s.threads[p], s'.threads[p];
       && (KeepsResult(code) ==> u.collected == t.collected)
       && (KeepsOnline(code) && (p in s.players || MapInsert in code) ==> p in s'.players)
       && (KeepsPosition(code) && t.loaded == s.pos[p] ==> u.loaded == t.loaded && s'.pos[p] == s.pos[p])
  }

  lemma OneEffect(s: Machine, p: Pid)
    requires p in s.threads && p in s.pos && s.threads[p].code != []
    ensures Effect(s, Execute(s, p, s.threads[p].code[0]), p, [s.threads[p].code[0]])
  {
    var i := s.threads[p].code[0];
    assert [i][0] == i;
  }

  lemma EffectThen(s: Machine, m: Machine, s': Machine, p: Pid, i: Instr, rest: seq<Instr>)
    requires Effect(s, m, p, [i]) && Effect(m, s', p, rest)
    ensures Effect(s, s', p, [i] + rest)
  {
    var code := [i] + rest;
    assert code[0] == i;
    forall k | 0 <= k < |rest|
      ensures code[k + 1] == rest[k]
    {
    }
    assert KeepsResult(code) ==> KeepsResult([i]) && KeepsResult(rest);
    assert KeepsOnline(code) ==> KeepsOnline([i]) && KeepsOnline(rest);
    assert KeepsPosition(code) ==> KeepsPosition([i]) && KeepsPosition(rest);
  }

  predicate NoNewResult(code: seq<Instr>) {
    forall k :: 0 <= k < |code| ==> !code[k].AcquireWorld? && !code[k].CopyMap?
  }

  predicate ReadsGridOf(s: Machine, code: seq<Instr>, q: Pid) {
    exists k :: 0 <= k < |code| && code[k].GridRead? && q in Members(s, code[k].cell)
  }

  /** Running the code collects `q` if it reads a grid that holds it, and does not forget it. */
  ghost predicate Collects(s: Machine, s': Machine, p: Pid, code: seq<Instr>, q: Pid) {
    && p in s.threads && p in s'.threads
    && (NoNewResult(code) && (q in s.threads[p].collected || ReadsGridOf(s, code, q))
        ==> q in s'.threads[p].collected)
  }

  lemma OneCollects(s: Machine, p: Pid, q: Pid)
    requires p in s.threads && p in s.pos && s.threads[p].code != []
    ensures Collects(s, Execute(s, p, s.threads[p].code[0]), p, [s.threads[p].code[0]], q)
  {
    var i := s.threads[p].code[0];
    assert [i][0] == i;
    ExecuteThreads(s, p);
  }

  lemma CollectsThen(s: Machine, m: Machine, s': Machine, p: Pid, i: Instr, rest: seq<Instr>, q: Pid)
    requires OnlyTouches(s, m, p) && q != p
    requires Collects(s, m, p, [i], q) && Collects(m, s', p, rest, q)
    ensures Collects(s, s', p, [i] + rest, q)
  {
    var code := [i] + rest;
    forall k | 0 <= k < |rest|
      ensures code[k + 1] == rest[k]
    {
    }
    assert code[0] == i == [i][0];
    assert NoNewResult(code) ==> NoNewResult([i]) && NoNewResult(rest);
    if ReadsGridOf(s, code, q) {
      var k :| 0 <= k < |code| && code[k].GridRead? && q in Members(s, code[k].cell);
      if k > 0 {
        assert rest[k - 1] == code[k] && q in Members(m, code[k].cell);
      }
    }
  }

  predicate SharesOnly(code: seq<Instr>) {
    AcquireWorld(Exclusive) !in code
  }

  /** The other threads hold no lock, or at most share the world lock and this code does so too. */
  ghost predicate OthersAdmit(s: Machine, p: Pid, code: seq<Instr>) {
    forall q :: q in s.threads && q != p ==>
      && s.threads[q].grid.None? && s.threads[q].player.None?
      && (s.threads[q].world.None? || (s.threads[q].world == Some(Shared) && SharesOnly(code)))
  }

  lemma AdmittedNext(s: Machine, s': Machine, p: Pid, code: seq<Instr>)
    requires OthersAdmit(s, p, code) && OnlyTouches(s, s', p) && code != []
    ensures OthersAdmit(s', p, code[1..])
  {
  }

  lemma StepEnabled(l: Layout, s: Machine, p: Pid) returns (s': Machine)
    requires Reachable(l, s) && p in s.threads && s.threads[p].code != [] && Enabled(s, p, s.threads[p].code[0])
    ensures p in s.pos && s' == Execute(s, p, s.threads[p].code[0])
    ensures Reachable(l, s') && OnlyTouches(s, s', p)
  {
    ReachableInv(l, s);
    assert ThreadOk(l, s, p);
    s' := Execute(s, p, s.threads[p].code[0]);
    ExecuteOwn(l, s, p);
    ExecuteTouches(l, s, p);
    assert ThreadStep(l, s, s', p);
    ReachNext(l, s, s');
  }

  lemma StepAlone(l: Layout, s: Machine, p: Pid) returns (s': Machine)
    requires Reachable(l, s) && p in s.threads && s.threads[p].code != [] && OthersAdmit(s, p, s.threads[p].code)
    ensures p in s.pos && s' == Execute(s, p, s.threads[p].code[0])
    ensures Reachable(l, s') && OnlyTouches(s, s', p)
  {
    assert Enabled(s, p, s.threads[p].code[0]);
    s' := StepEnabled(l, s, p);
  }

  /** Alone, a thread can run the code it has. */
  lemma {:induction false} RunCode(l: Layout, s: Machine, p: Pid) returns (s': Machine)
    requires Reachable(l, s) && p in s.threads && p in s.pos && OthersAdmit(s, p, s.threads[p].code)
    ensures Reachable(l, s') && OnlyTouches(s, s', p)
    ensures Effect(s, s', p, s.threads[p].code)
    ensures forall q :: q != p ==> Collects(s, s', p, s.threads[p].code, q)
    ensures s'.threads[p].code == [] && s'.threads[p].next == s.threads[p].next
    decreases |s.threads[p].code|
  {
    if s.threads[p].code == [] {
      s' := s;
    } else {
      var i := s.threads[p].code[0];
      var m := StepAlone(l, s, p);
      OneEffect(s, p);
      ExecuteThreads(s, p);
      AdmittedNext(s, m, p, s.threads[p].code);
      s' := RunCode(l, m, p);
      TouchesThen(s, m, s', p);
      EffectThen(s, m, s', p, i, m.threads[p].code);
      assert s.threads[p].code == [i] + m.threads[p].code;
      forall q | q != p
        ensures Collects(s, s', p, s.threads[p].code, q)
      {
        OneCollects(s, p, q);
        CollectsThen(s, m, s', p, i, m.threads[p].code, q);
      }
    }
  }

  // ---- Stages ----

  lemma UnfoldAlone(l: Layout, s: Machine, p: Pid, u: Thread) returns (m: Machine)
    requires Reachable(l, s) && p in s.threads
    requires s.threads[p].code == [] && s.threads[p].next != [] && Unfolds(l, p, s.threads[p], u)
    ensures m == s.(threads := s.threads[p := u])
    ensures Reachable(l, m) && OnlyTouches(s, m, p) && p in m.pos
  {
    ReachableInv(l, s);
    m := s.(threads := s.threads[p := u]);
    assert ThreadStep(l, s, m, p);
    ReachNext(l, s, m);
  }

  /** Unfolds the next stage, or one more element of a walk, to `u`, and runs the code of that. */
  lemma RunUnfolded(l: Layout, s: Machine, p: Pid, u: Thread) returns (m: Machine, s': Machine)
    requires Reachable(l, s) && p in s.threads && OthersAdmit(s, p, u.code)
    requires s.threads[p].code == [] && s.threads[p].next != [] && Unfolds(l, p, s.threads[p], u)
    ensures m == s.(threads := s.threads[p := u])
    ensures Reachable(l, s') && OnlyTouches(s, s', p)
    ensures Effect(m, s', p, u.code)
    ensures forall q :: q != p ==> Collects(m, s', p, u.code, q)
    ensures s'.threads[p].code == [] && s'.threads[p].next == u.next
  {
    m := UnfoldAlone(l, s, p, u);
    s' := RunCode(l, m, p);
    TouchesThen(s, m, s', p);
  }

  /** How much of the walk of the next stage is left */
  function Work(l: Layout, t: Thread): nat {
    if t.next == [] then 0
    else if IsScan(t.next[0]) then |CellsToScan(l, t.next[0], t.loaded)|
    else if t.next[0].PeekOthers? then |t.collected|
    else 0
  }

  lemma ScanSmaller(l: Layout, t: Thread, c: Cell)
    requires t.next != [] && IsScan(t.next[0]) && c in CellsToScan(l, t.next[0], t.loaded)
    ensures var u := ScanOne(t, c, CellsToScan(l, t.next[0], t.loaded), WithLookups(t.next[0]));
            && u.next != [] && u.next[1..] == t.next[1..] && u.next[0].Scan? && Work(l, u) < Work(l, t)
            && KeepsOnline(u.code)
  {
    var cells := CellsToScan(l, t.next[0], t.loaded);
    assert |cells - {c}| == |cells| - 1;
  }

  lemma PeekSmaller(l: Layout, t: Thread, q: Pid)
    requires t.next != [] && t.next[0].PeekOthers? && q in t.collected
    ensures Work(l, PeekOne(t, q)) < Work(l, t) && PeekOne(t, q).next == t.next
    ensures KeepsResult(PeekOne(t, q).code) && KeepsOnline(PeekOne(t, q).code)
  {
  }

  lemma UnfoldOnline(l: Layout, p: Pid, stage: Stage, at: Position)
    requires !stage.CloseRemoval?
    ensures KeepsOnline(Unfold(l, p, stage, at))
  {
  }

  /** A walk goes on with less left. */
  predicate Shrinks(l: Layout, t: Thread, u: Thread)
    requires t.next != []
  {
    && u.next != [] && u.next[1..] == t.next[1..] && Work(l, u) < Work(l, t)
    && (u.next[0].Scan? || (u.next[0].PeekOthers? && KeepsResult(u.code)))
  }

  lemma UnfoldsSmaller(l: Layout, p: Pid, t: Thread, u: Thread)
    requires t.code == [] && t.next != [] && Unfolds(l, p, t, u)
    ensures u.next == t.next[1..] || Shrinks(l, t, u)
    ensures !t.next[0].CloseRemoval? ==> KeepsOnline(u.code)
  {
    var stage := t.next[0];
    if IsScan(stage) {
      if c :| c in CellsToScan(l, stage, t.loaded)
              && u == ScanOne(t, c, CellsToScan(l, stage, t.loaded), WithLookups(stage)) {
        ScanSmaller(l, t, c);
      }
    } else if stage.PeekOthers? {
      if q :| q in t.collected && u == PeekOne(t, q) {
        PeekSmaller(l, t, q);
      }
    } else if !stage.CloseRemoval? {
      UnfoldOnline(l, p, stage, t.loaded);
    }
  }

  lemma WorkKept(l: Layout, u: Thread, w: Thread)
    requires u.next != [] && w.next == u.next && (u.next[0].Scan? || u.next[0].PeekOthers?)
    requires u.next[0].PeekOthers? ==> w.collected == u.collected
    ensures Work(l, w) == Work(l, u)
  {
  }

  lemma RunNext(l: Layout, s: Machine, p: Pid) returns (s': Machine)
    requires Reachable(l, s) && p in s.threads && OthersFree(s, p)
    requires s.threads[p].code == [] && s.threads[p].next != []
    ensures Reachable(l, s') && OnlyTouches(s, s', p) && s'.threads[p].code == []
    ensures var t, u := s.threads[p], s'.threads[p];
            Follows(t.next, u.next) && (|u.next| == |t.next| ==> Work(l, u) < Work(l, t))
    ensures !s.threads[p].next[0].CloseRemoval? && p in s.players ==> p in s'.players
  {
    var t := s.threads[p];
    var u := Unfolding(l, p, t);
    UnfoldsSmaller(l, p, t, u);
    var m;
    m, s' := RunUnfolded(l, s, p, u);
    if u.next != t.next[1..] {
      WorkKept(l, u, s'.threads[p]);
    }
  }

  predicate Stays(next: seq<Stage>) {
    forall k :: 0 <= k < |next| ==> !next[k].CloseRemoval?
  }

  /** `later` are the stages left after the first of `next`, or after a part of it. */
  predicate Follows(next: seq<Stage>, later: seq<Stage>) {
    next != [] && (later == next[1..] || (later != [] && later[1..] == next[1..] && !later[0].CloseRemoval?))
  }

  lemma SuffixOfTail(stages: seq<Stage>, k: nat)
    requires k < |stages|
    ensures stages[|stages| - k..] == stages[1..][|stages| - 1 - k..]
  {
  }

  lemma StaysTail(next: seq<Stage>, later: seq<Stage>)
    requires Stays(next) && next != [] && later != [] && later[1..] == next[1..] && !later[0].CloseRemoval?
    ensures Stays(later)
  {
    forall i | 1 <= i < |later|
      ensures later[i] == later[1..][i - 1] == next[i]
    {
    }
  }

  lemma FollowsStays(next: seq<Stage>, later: seq<Stage>, k: nat)
    requires Follows(next, later) && k < |next|
    ensures Stays(next) ==> !next[0].CloseRemoval? && Stays(later)
    ensures k <= |later| && later[|later| - k..] == next[|next| - k..]
  {
    SuffixOfTail(next, k);
    if later != next[1..] {
      assert |later[1..]| == |next[1..]|;
      SuffixOfTail(later, k);
      if Stays(next) {
        StaysTail(next, later);
      }
    }
  }

  /** Alone, a thread can run its stages until `k` of them are left. */
  lemma {:induction false} RunTo(l: Layout, s: Machine, p: Pid, k: nat) returns (s': Machine)
    requires Reachable(l, s) && p in s.threads && OthersFree(s, p)
    requires s.threads[p].code == [] && k <= |s.threads[p].next|
    ensures Reachable(l, s') && OnlyTouches(s, s', p) && s'.threads[p].code == []
    ensures s'.threads[p].next == s.threads[p].next[|s.threads[p].next| - k..]
    ensures Stays(s.threads[p].next) && p in s.players ==> p in s'.players
    decreases |s.threads[p].next|, Work(l, s.threads[p])
  {
    var t := s.threads[p];
    if |t.next| == k {
      s' := s;
    } else {
      var m := RunNext(l, s, p);
      OthersStayFree(s, m, p);
      FollowsStays(t.next, m.threads[p].next, k);
      s' := RunTo(l, m, p, k);
      TouchesThen(s, m, s', p);
    }
  }

  /**
    Where the others hold no lock, a thread can finish its operation by itself; then its
    player, if it is online, is in exactly the grid of its position.
   */
  lemma FinishesAlone(l: Layout, s: Machine, p: Pid) returns (s': Machine)
    requires Reachable(l, s) && p in s.threads && OthersFree(s, p)
    ensures Reachable(l, s') && OnlyTouches(s, s', p) && !Unfinished(s'.threads[p])
    ensures p in s'.pos && Resting(l, ViewOf(s', p))
  {
    ReachableInv(l, s);
    var m := RunCode(l, s, p);
    OthersStayFree(s, m, p);
    s' := RunTo(l, m, p, 0);
    TouchesThen(s, m, s', p);
    ReachableInv(l, s');
    assert ThreadOk(l, s', p);
  }
}
