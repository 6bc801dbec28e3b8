/** Leaving a queue of waiters: the section CleanUpExpiredKeyWaiter, for one channel of one key. */
module Departure {
  import opened StoreModel

  /** One occurrence of the channel goes, wherever it stands; the others stay. */
  lemma {:induction false} RemovesOne(queue: seq<Chan>, ch: Chan)
    ensures multiset(RemoveFirst(queue, ch)) == multiset(queue) - multiset{ch}
  {
    if queue != [] {
      assert queue == [queue[0]] + queue[1..];
      if queue[0] != ch { RemovesOne(queue[1..], ch); }
    }
  }

  /** The first place of the channel, or the end of the queue. */
  function First(queue: seq<Chan>, ch: Chan): (i: nat)
    ensures i <= |queue| && ch !in queue[..i] && (i < |queue| ==> queue[i] == ch)
  {
    if queue == [] || queue[0] == ch then 0
    else
      var i := 1 + First(queue[1..], ch);
      assert queue[..i] == [queue[0]] + queue[1..][..i - 1];
      i
  }

  /** The others stay in their order: what goes is the first occurrence. */
  lemma {:induction false} KeepsOrder(queue: seq<Chan>, ch: Chan)
    ensures var i := First(queue, ch);
            RemoveFirst(queue, ch) == if i < |queue| then queue[..i] + queue[i + 1..] else queue
  {
    if queue != [] && queue[0] != ch {
      KeepsOrder(queue[1..], ch);
      assert queue == [queue[0]] + queue[1..];
    }
  }

  function Count(d: State, k: string, ch: Chan): nat { multiset(Waiters(d, k))[ch] }

  /** A cleanup takes the channel out of the queue of its key once, and touches nothing else. */
  lemma CleanUpCounts(d: State, key: string, ch: Chan, k: string, other: Chan)
    ensures var d' := CleanUpWaiter(d, key, ch);
            && d' == d.(waiters := d'.waiters)
            && Count(d', k, other) == if k == key && other == ch && Count(d, k, ch) > 0 then Count(d, k, ch) - 1
                                      else Count(d, k, other)
  {
    RemovesOne(Waiters(d, key), ch);
    WaitersAfter(d, key, ch, k);
  }

  lemma WaitersAfter(d: State, key: string, ch: Chan, k: string)
    ensures Waiters(CleanUpWaiter(d, key, ch), k)
         == if k == key then RemoveFirst(Waiters(d, key), ch) else Waiters(d, k)
  {
  }
}
