// The replaceable, bounded list reducer of the agent's checkpointed state.

module BoundedLog {

  const MAX_EVENTS := 120
  const MAX_RESULT_CHUNKS := 80
  const MAX_VIOLATIONS := 40

  // Python's s[-n:].
  function Tail<T>(s: seq<T>, n: nat): seq<T> {
    if n == 0 || |s| <= n then s else s[|s| - n..]
  }

  // An update that starts with a replace marker drops what came before, and the marker itself.
  function Reduce<T>(left: seq<T>, right: seq<T>, marks: T -> bool, maxLen: nat): seq<T> {
    var merged := if right != [] && marks(right[0]) then right[1..] else left + right;
    if |merged| > maxLen then Tail(merged, maxLen) else merged
  }

  function ReduceAll<T>(left: seq<T>, updates: seq<seq<T>>, marks: T -> bool, maxLen: nat): seq<T> {
    if updates == [] then left
    else Reduce(ReduceAll(left, updates[..|updates| - 1], marks, maxLen), updates[|updates| - 1], marks, maxLen)
  }

  // Position of the last update that replaces, or none.
  function LastReplace<T>(updates: seq<seq<T>>, marks: T -> bool): (k: int)
    ensures -1 <= k < |updates|
    ensures k >= 0 ==> updates[k] != [] && marks(updates[k][0])
    ensures forall i :: k < i < |updates| ==> updates[i] == [] || !marks(updates[i][0])
  {
    if updates == [] then -1
    else
      var last := updates[|updates| - 1];
      if last != [] && marks(last[0]) then |updates| - 1 else LastReplace(updates[..|updates| - 1], marks)
  }

  function Concat<T>(updates: seq<seq<T>>): seq<T> {
    if updates == [] then [] else Concat(updates[..|updates| - 1]) + updates[|updates| - 1]
  }

  // The log as the update at k left it, with everything after k appended.
  function LogFrom<T>(left: seq<T>, updates: seq<seq<T>>, k: int): seq<T>
    requires -1 <= k < |updates| && (k >= 0 ==> updates[k] != [])
  {
    if k < 0 then left + Concat(updates) else updates[k][1..] + Concat(updates[k + 1..])
  }

  // Everything appended since the last replace marker, or since the start.
  function SinceReplace<T>(left: seq<T>, updates: seq<seq<T>>, marks: T -> bool): seq<T> {
    LogFrom(left, updates, LastReplace(updates, marks))
  }

  lemma ConcatNext<T>(updates: seq<seq<T>>, k: nat)
    requires k < |updates|
    ensures Concat(updates[k..]) == Concat(updates[..|updates| - 1][k..]) + updates[|updates| - 1]
  {
    var rest := updates[k..];
    assert rest[..|rest| - 1] == updates[..|updates| - 1][k..];
  }

  lemma Regroup<T>(a: seq<T>, b: seq<T>, c: seq<T>)
    ensures a + (b + c) == a + b + c
  {
  }

  lemma LogFromNext<T>(left: seq<T>, updates: seq<seq<T>>, k: int)
    requires -1 <= k < |updates| - 1 && (k >= 0 ==> updates[k] != [])
    ensures LogFrom(left, updates, k) == LogFrom(left, updates[..|updates| - 1], k) + updates[|updates| - 1]
  {
    var front, last := updates[..|updates| - 1], updates[|updates| - 1];
    if k < 0 {
      Regroup(left, Concat(front), last);
    } else {
      ConcatNext(updates, k + 1);
      Regroup(updates[k][1..], Concat(front[k + 1..]), last);
    }
  }

  lemma LogFromLast<T>(left: seq<T>, updates: seq<seq<T>>)
    requires updates != [] && updates[|updates| - 1] != []
    ensures LogFrom(left, updates, |updates| - 1) == updates[|updates| - 1][1..]
  {
    assert updates[|updates|..] == [];
  }

  lemma SinceReplaceNext<T>(left: seq<T>, updates: seq<seq<T>>, marks: T -> bool)
    requires updates != []
    ensures var last := updates[|updates| - 1];
      SinceReplace(left, updates, marks)
      == if last != [] && marks(last[0]) then last[1..] else SinceReplace(left, updates[..|updates| - 1], marks) + last
  {
    var last := updates[|updates| - 1];
    if last != [] && marks(last[0]) {
      LogFromLast(left, updates);
    } else {
      LogFromNext(left, updates, LastReplace(updates[..|updates| - 1], marks));
    }
  }

  // Cutting early loses nothing that cutting late would keep.
  lemma TailOfTail<T>(a: seq<T>, b: seq<T>, n: nat)
    requires n > 0
    ensures Tail(Tail(a, n) + b, n) == Tail(a + b, n)
  {
  }

  lemma {:induction false} ReduceIsTail<T>(left: seq<T>, updates: seq<seq<T>>, marks: T -> bool, maxLen: nat)
    requires updates != [] && maxLen > 0
    ensures ReduceAll(left, updates, marks, maxLen) == Tail(SinceReplace(left, updates, marks), maxLen)
  {
    var front, last := updates[..|updates| - 1], updates[|updates| - 1];
    SinceReplaceNext(left, updates, marks);
    if front == [] {
      assert SinceReplace(left, front, marks) == left;
    } else {
      ReduceIsTail(left, front, marks, maxLen);
      TailOfTail(SinceReplace(left, front, marks), last, maxLen);
    }
  }

  // r is the end of the log: no longer than n, shorter only if the log is, and entry by entry the last ones.
  ghost predicate LastOf<T>(r: seq<T>, log: seq<T>, n: nat) {
    && |r| == (if |log| <= n then |log| else n)
    && forall i :: 0 <= i < |r| ==> r[i] == log[|log| - |r| + i]
  }

  // With a positive bound, cutting at every step keeps exactly the last maxLen entries of the
  // unbounded log, even if the list was too long to begin with.
  lemma BoundedRefinesUnbounded<T>(left: seq<T>, updates: seq<seq<T>>, marks: T -> bool, maxLen: nat)
    requires updates != [] && maxLen > 0
    ensures LastOf(ReduceAll(left, updates, marks, maxLen), SinceReplace(left, updates, marks), maxLen)
  {
    ReduceIsTail(left, updates, marks, maxLen);
  }

  // A bound of zero does not bound: a slice from minus zero is the whole list.
  lemma {:induction false} ZeroKeepsAll<T>(left: seq<T>, updates: seq<seq<T>>, marks: T -> bool)
    ensures ReduceAll(left, updates, marks, 0) == SinceReplace(left, updates, marks)
  {
    if updates == [] {
      assert SinceReplace(left, updates, marks) == left;
    } else {
      ZeroKeepsAll(left, updates[..|updates| - 1], marks);
      SinceReplaceNext(left, updates, marks);
    }
  }

  // So the reduced list stays within its bound exactly when the bound is positive or there is
  // nothing to keep.
  lemma BoundHoldsIffPositive<T>(left: seq<T>, updates: seq<seq<T>>, marks: T -> bool, maxLen: nat)
    requires updates != []
    ensures |ReduceAll(left, updates, marks, maxLen)| <= maxLen <==>
      maxLen > 0 || SinceReplace(left, updates, marks) == []
  {
    if maxLen > 0 {
      BoundedRefinesUnbounded(left, updates, marks, maxLen);
    } else {
      ZeroKeepsAll(left, updates, marks);
    }
  }

  // The three reducers of the state: events, executed results, contract violations.
  lemma StateReducersAreBounded<T>(left: seq<T>, updates: seq<seq<T>>, marks: T -> bool)
    requires updates != []
    ensures LastOf(ReduceAll(left, updates, marks, MAX_EVENTS), SinceReplace(left, updates, marks), 120)
    ensures LastOf(ReduceAll(left, updates, marks, MAX_RESULT_CHUNKS), SinceReplace(left, updates, marks), 80)
    ensures LastOf(ReduceAll(left, updates, marks, MAX_VIOLATIONS), SinceReplace(left, updates, marks), 40)
  {
    BoundedRefinesUnbounded(left, updates, marks, MAX_EVENTS);
    BoundedRefinesUnbounded(left, updates, marks, MAX_RESULT_CHUNKS);
    BoundedRefinesUnbounded(left, updates, marks, MAX_VIOLATIONS);
  }
}
