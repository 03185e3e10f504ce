/** The queue shared by the two threads. Every method body is one critical section of the queue's mutex. */
module BlockingQueues {

  /** Index of the first element satisfying `func`, or the length when there is none. */
  function FindIf<T>(s: seq<T>, func: T -> bool): (i: nat)
    ensures i <= |s|
    ensures i < |s| ==> func(s[i])
    ensures forall k :: 0 <= k < i ==> !func(s[k])
  {
    if s == [] then 0 else if func(s[0]) then 0 else 1 + FindIf(s[1..], func)
  }

  /** The sequence with its first element satisfying `func` exchanged with the front. */
  function SwappedIf<T>(s: seq<T>, func: T -> bool): seq<T> {
    var i := FindIf(s, func);
    if 0 < i < |s| then s[0 := s[i]][i := s[0]] else s
  }

  /** The elements that do not satisfy `func`, in order. */
  function FilteredOut<T>(s: seq<T>, func: T -> bool): (r: seq<T>)
    ensures |r| <= |s|
  {
    if s == [] then [] else (if func(s[0]) then [] else [s[0]]) + FilteredOut(s[1..], func)
  }

  /** `FilteredOut` for the predicate "equals `x`". */
  function Without<T(==)>(s: seq<T>, x: T): seq<T> {
    if s == [] then [] else (if s[0] == x then [] else [s[0]]) + Without(s[1..], x)
  }

  /** Index of the first `x`, or the length. */
  function IndexOf<T(==)>(s: seq<T>, x: T): (i: nat)
    ensures i <= |s|
    ensures i < |s| ==> s[i] == x
    ensures x !in s[..i]
    ensures i < |s| <==> x in s
  {
    if s == [] then 0 else if s[0] == x then 0 else 1 + IndexOf(s[1..], x)
  }

  /** `SwappedIf` for the predicate "equals `x`". */
  function SwapToFront<T(==)>(s: seq<T>, x: T): (r: seq<T>)
    ensures |r| == |s|
  {
    var i := IndexOf(s, x);
    if 0 < i < |s| then s[0 := s[i]][i := s[0]] else s
  }

  class BlockingQueue<T(==)> {
    var backingQueue: seq<T>

    constructor ()
      ensures backingQueue == []
    {
      backingQueue := [];
    }

    method Put(elem: T)
      modifies this
      ensures backingQueue == old(backingQueue) + [elem]
    {
      backingQueue := backingQueue + [elem];
    }

    method Size() returns (n: nat)
      ensures n == |backingQueue|
    {
      n := |backingQueue|;
    }

    /** The critical section of `take` once the condition variable has let it through. */
    method Take() returns (front: T)
      requires backingQueue != []
      modifies this
      ensures [front] + backingQueue == old(backingQueue)
    {
      front := backingQueue[0];
      backingQueue := backingQueue[1..];
    }

    method SwapToFrontIf(func: T -> bool) returns (swapped: bool)
      modifies this
      ensures backingQueue == SwappedIf(old(backingQueue), func)
      ensures swapped <==> 0 < FindIf(old(backingQueue), func) < |old(backingQueue)|
    {
      var pos := 0;
      while pos < |backingQueue| && !func(backingQueue[pos])
        invariant 0 <= pos <= |backingQueue|
        invariant forall k :: 0 <= k < pos ==> !func(backingQueue[k])
      {
        pos := pos + 1;
      }
      FindIfUnique(backingQueue, func, pos);
      if pos != 0 && pos != |backingQueue| {
        backingQueue := backingQueue[0 := backingQueue[pos]][pos := backingQueue[0]];
        return true;
      }
      return false;
    }

    /** `remove_if` compacts the kept elements to the front, `erase` drops the tail. */
    method RemoveIf(func: T -> bool) returns (removed: bool)
      modifies this
      ensures backingQueue == FilteredOut(old(backingQueue), func)
      ensures removed <==> exists x :: x in old(backingQueue) && func(x)
    {
      var kept: seq<T> := [];
      var i := 0;
      removed := false;
      while i < |backingQueue|
        invariant 0 <= i <= |backingQueue|
        invariant backingQueue == old(backingQueue)
        invariant kept + FilteredOut(backingQueue[i..], func) == FilteredOut(backingQueue, func)
        invariant removed <==> exists k :: 0 <= k < i && func(backingQueue[k])
      {
        assert backingQueue[i..][1..] == backingQueue[i + 1..];
        if func(backingQueue[i]) {
          removed := true;
        } else {
          kept := kept + [backingQueue[i]];
        }
        i := i + 1;
      }
      assert backingQueue[i..] == [];
      backingQueue := kept;
    }

    method Clear() returns (returnQueue: seq<T>)
      modifies this
      ensures returnQueue == old(backingQueue) && backingQueue == []
    {
      returnQueue := backingQueue;
      backingQueue := [];
    }
  }

  lemma FindIfUnique<T>(s: seq<T>, func: T -> bool, i: nat)
    requires i <= |s|
    requires forall k :: 0 <= k < i ==> !func(s[k])
    requires i < |s| ==> func(s[i])
    ensures FindIf(s, func) == i
  {
  }

  /** The callers' predicate singles out one element, so the general operations act on that element. */
  lemma {:induction false} FilteredOutIsWithout<T>(s: seq<T>, func: T -> bool, x: T)
    requires forall y :: y in s ==> (func(y) <==> y == x)
    ensures FilteredOut(s, func) == Without(s, x)
  {
    if s != [] {
      FilteredOutIsWithout(s[1..], func, x);
    }
  }

  lemma SwappedIfIsSwapToFront<T>(s: seq<T>, func: T -> bool, x: T)
    requires forall y :: y in s ==> (func(y) <==> y == x)
    ensures SwappedIf(s, func) == SwapToFront(s, x)
  {
    var i := IndexOf(s, x);
    forall k | 0 <= k < i ensures !func(s[k]) {
      assert s[k] == s[..i][k];
    }
    FindIfUnique(s, func, i);
  }

  /** How often `x` occurs. */
  function Count<T(==)>(s: seq<T>, x: T): nat {
    if s == [] then 0 else (if s[0] == x then 1 else 0) + Count(s[1..], x)
  }

  lemma {:induction false} CountConcat<T>(s: seq<T>, t: seq<T>, x: T)
    ensures Count(s + t, x) == Count(s, x) + Count(t, x)
  {
    if s == [] {
      assert s + t == t;
    } else {
      assert (s + t)[1..] == s[1..] + t;
      CountConcat(s[1..], t, x);
    }
  }

  lemma CountAppend<T>(s: seq<T>, e: T, x: T)
    ensures Count(s + [e], x) == Count(s, x) + if e == x then 1 else 0
  {
    CountConcat(s, [e], x);
  }

  lemma {:induction false} CountUpdate<T>(s: seq<T>, i: nat, y: T, x: T)
    requires i < |s|
    ensures Count(s[i := y], x) + (if s[i] == x then 1 else 0) == Count(s, x) + if y == x then 1 else 0
  {
    if i == 0 {
      assert s[0 := y][1..] == s[1..];
    } else {
      assert s[i := y][1..] == s[1..][i - 1 := y];
      CountUpdate(s[1..], i - 1, y, x);
    }
  }

  lemma {:induction false} CountIn<T>(s: seq<T>, x: T)
    ensures Count(s, x) > 0 <==> x in s
  {
    if s != [] {
      CountIn(s[1..], x);
    }
  }

  /** A swap exchanges the first `x` with the front and moves nothing else. */
  lemma SwapToFrontExchanges<T>(s: seq<T>, x: T, k: nat)
    requires k < |s|
    ensures x !in s ==> SwapToFront(s, x) == s
    ensures x in s ==>
      var i := IndexOf(s, x);
      && i < |s| && s[i] == x && x !in s[..i]
      && SwapToFront(s, x)[k] == if k == 0 then x else if k == i then s[0] else s[k]
  {
  }

  /** A swap is a permutation. */
  lemma SwapToFrontPermutes<T>(s: seq<T>, x: T, y: T)
    ensures Count(SwapToFront(s, x), y) == Count(s, y)
  {
    var i := IndexOf(s, x);
    if 0 < i < |s| {
      CountUpdate(s, 0, s[i], y);
      CountUpdate(s[0 := s[i]], i, s[0], y);
    }
  }

  /** Removing one element keeps the multiplicity of every other one and leaves none of it. */
  lemma {:induction false} WithoutCounts<T>(s: seq<T>, x: T, y: T)
    ensures Count(Without(s, x), y) == if y == x then 0 else Count(s, y)
  {
    if s != [] {
      WithoutCounts(s[1..], x, y);
      CountConcat(if s[0] == x then [] else [s[0]], Without(s[1..], x), y);
    }
  }

  lemma {:induction false} WithoutConcat<T>(s: seq<T>, t: seq<T>, x: T)
    ensures Without(s + t, x) == Without(s, x) + Without(t, x)
  {
    if s == [] {
      assert s + t == t;
    } else {
      assert (s + t)[1..] == s[1..] + t;
      WithoutConcat(s[1..], t, x);
    }
  }

  lemma {:induction false} WithoutAbsent<T>(s: seq<T>, x: T)
    requires x !in s
    ensures Without(s, x) == s
  {
    if s != [] {
      WithoutAbsent(s[1..], x);
    }
  }
}
