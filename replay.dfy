/**
 * The replay memory the training engine pushes into and samples from. Only the
 * behaviour the engine relies on is modelled: `push` appends and evicts the oldest
 * entry once the capacity is reached, `len` is the occupied count, and `sample(k)`
 * returns k entries at k distinct positions, chosen nondeterministically.
 */
module Replay {

  /** One environment step as stored: per-agent observations, actions, next observations, rewards and done flags. */
  datatype Transition = Transition(
    state: seq<seq<real>>,
    action: seq<seq<real>>,
    nextState: seq<seq<real>>,
    reward: seq<real>,
    done: seq<bool>)

  /** A transition with one entry per agent in every field. */
  predicate Shaped(t: Transition, n: nat)
  {
    |t.state| == n && |t.action| == n && |t.nextState| == n && |t.reward| == n && |t.done| == n
  }

  /** The newest `capacity` entries of `s` (all of `s` when it is no longer than that). */
  function Newest(s: seq<Transition>, capacity: nat): (r: seq<Transition>)
    ensures |r| == if |s| <= capacity then |s| else capacity
  {
    if |s| <= capacity then s else s[|s| - capacity..]
  }

  /** The contents after one push: the oldest entry is evicted once the memory is full. */
  function Pushed(contents: seq<Transition>, capacity: nat, t: Transition): (r: seq<Transition>)
    requires 0 < capacity && |contents| <= capacity
    ensures r == Newest(contents + [t], capacity)
    ensures |r| >= 1 && r[|r| - 1] == t
  {
    if |contents| < capacity then contents + [t] else contents[1..] + [t]
  }

  /** The contents after pushing `ts` in order. */
  function PushAll(contents: seq<Transition>, capacity: nat, ts: seq<Transition>): (r: seq<Transition>)
    requires 0 < capacity && |contents| <= capacity
    ensures |r| <= capacity
  {
    if ts == [] then contents
    else Pushed(PushAll(contents, capacity, ts[..|ts| - 1]), capacity, ts[|ts| - 1])
  }

  /** Pushing one more transition after a run of pushes. */
  lemma {:induction false} PushAllSnoc(contents: seq<Transition>, capacity: nat, ts: seq<Transition>, t: Transition)
    requires 0 < capacity && |contents| <= capacity
    ensures PushAll(contents, capacity, ts + [t]) == Pushed(PushAll(contents, capacity, ts), capacity, t)
  {
    assert (ts + [t])[..|ts|] == ts;
  }

  /** Pushing two runs one after the other is pushing them together. */
  lemma {:induction false} PushAllAppend(contents: seq<Transition>, capacity: nat, a: seq<Transition>, b: seq<Transition>)
    requires 0 < capacity && |contents| <= capacity
    ensures PushAll(contents, capacity, a + b) == PushAll(PushAll(contents, capacity, a), capacity, b)
  {
    if b == [] {
      assert a + b == a;
    } else {
      var init := b[..|b| - 1];
      PushAllAppend(contents, capacity, a, init);
      assert (a + b)[..|a + b| - 1] == a + init;
    }
  }

  /** Keeping the newest entries before appending one more changes nothing about the newest entries after. */
  lemma {:induction false} NewestSnoc(s: seq<Transition>, capacity: nat, t: Transition)
    requires 0 < capacity
    ensures Newest(Newest(s, capacity) + [t], capacity) == Newest(s + [t], capacity)
  {
    if |s| > capacity {
      var w := s[|s| - capacity..];
      assert (w + [t])[1..] == (s + [t])[|s| + 1 - capacity..];
    }
  }

  /**
   * However many transitions are pushed, the memory holds exactly the newest
   * `capacity` of everything ever pushed, in order: the oldest ones have been evicted.
   */
  lemma {:induction false} PushAllKeepsNewest(s: seq<Transition>, capacity: nat, ts: seq<Transition>)
    requires 0 < capacity
    ensures PushAll(Newest(s, capacity), capacity, ts) == Newest(s + ts, capacity)
  {
    if ts == [] {
      assert s + ts == s;
    } else {
      var init, last := ts[..|ts| - 1], ts[|ts| - 1];
      PushAllKeepsNewest(s, capacity, init);
      NewestSnoc(s + init, capacity, last);
      assert (s + init) + [last] == s + ts;
    }
  }

  /** A memory of capacity C after C + k pushes into an empty memory holds C entries: the first k are gone. */
  lemma {:induction false} Overfilled(capacity: nat, ts: seq<Transition>)
    requires 0 < capacity <= |ts|
    ensures PushAll([], capacity, ts) == ts[|ts| - capacity..]
  {
    EmptyKeepsNewest(capacity, ts);
    NewestOfLong(ts, capacity);
  }

  lemma {:induction false} EmptyKeepsNewest(capacity: nat, ts: seq<Transition>)
    requires 0 < capacity
    ensures PushAll([], capacity, ts) == Newest(ts, capacity)
  {
    var empty: seq<Transition> := [];
    PushAllKeepsNewest(empty, capacity, ts);
    assert empty + ts == ts;
  }

  lemma {:induction false} NewestOfLong(ts: seq<Transition>, capacity: nat)
    requires capacity <= |ts|
    ensures Newest(ts, capacity) == ts[|ts| - capacity..]
  {
    if |ts| == capacity {
      assert ts[|ts| - capacity..] == ts;
    }
  }

  /** Positions that are pairwise different. */
  predicate Distinct(idx: seq<nat>)
  {
    forall a, b :: 0 <= a < b < |idx| ==> idx[a] != idx[b]
  }

  /** `batch` is made of the entries of `contents` at distinct positions (sampling without replacement). */
  ghost predicate DrawnFrom(batch: seq<Transition>, contents: seq<Transition>)
  {
    exists idx: seq<nat> ::
      && |idx| == |batch| && Distinct(idx)
      && forall j :: 0 <= j < |idx| ==> idx[j] < |contents| && batch[j] == contents[idx[j]]
  }

  class ReplayMemory {
    const capacity: nat
    var contents: seq<Transition>

    ghost predicate Valid()
      reads this
    {
      0 < capacity && |contents| <= capacity
    }

    constructor (capacity: nat)
      requires 0 < capacity
      ensures Valid() && this.capacity == capacity && contents == []
    {
      this.capacity := capacity;
      contents := [];
    }

    /** `memory.push(...)`. */
    method Push(t: Transition)
      requires Valid()
      modifies this
      ensures Valid() && contents == Pushed(old(contents), capacity, t)
    {
      if |contents| < capacity {
        contents := contents + [t];
      } else {
        contents := contents[1..] + [t];
      }
    }

    /** `memory.sample(k)`: the source raises when fewer than k entries are stored. */
    method Sample(k: nat) returns (batch: seq<Transition>)
      requires Valid() && k <= |contents|
      ensures |batch| == k
      ensures DrawnFrom(batch, contents)
      ensures forall t :: t in batch ==> t in contents
    {
      var first := seq(k, j => j);
      assert Distinct(first);
      var idx: seq<nat> :| |idx| == k && Distinct(idx) && forall j :: 0 <= j < k ==> idx[j] < |contents|;
      var stored := contents;
      batch := seq(k, j requires 0 <= j < k => stored[idx[j]]);
      assert forall j :: 0 <= j < |idx| ==> idx[j] < |contents| && batch[j] == contents[idx[j]];
    }
  }
}
