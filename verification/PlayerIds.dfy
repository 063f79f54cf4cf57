/** The player ids that the atomic counter issues, and when one can repeat. */
module PlayerIds {
  import opened Visibility

  /** fetch_add(1) on an atomic_int32_t, which wraps around */
  function Next32(n: int): int {
    if n == 0x7fff_ffff then -0x8000_0000 else n + 1
  }

  /** The player id issued after `n` others */
  function PidAt(n: nat): Pid {
    if n == 0 then 1 else Next32(PidAt(n - 1))
  }

  lemma {:induction false} PidAtValue(n: nat)
    requires n < 0x1_0000_0000
    ensures PidAt(n) == if n < 0x7fff_ffff then n + 1 else n + 1 - 0x1_0000_0000
  {
    if n > 0 {
      PidAtValue(n - 1);
    }
  }

  /** Ids repeat only after 2^32 of them. */
  lemma {:induction false} PidsFresh(i: nat, n: nat)
    requires i < n < 0x1_0000_0000
    ensures PidAt(i) != PidAt(n)
  {
    PidAtValue(i);
    PidAtValue(n);
  }

  /** One of the first `n` ids */
  ghost predicate IsIssued(n: nat, p: Pid) {
    exists i :: 0 <= i < n && PidAt(i) == p
  }

  ghost predicate AllIssued(n: nat, pids: set<Pid>) {
    forall p :: p in pids ==> IsIssued(n, p)
  }

  lemma IssueNext(n: nat, pids: set<Pid>)
    requires AllIssued(n, pids)
    ensures AllIssued(n + 1, pids + {PidAt(n)})
  {
  }
}
