/** Threads always find their context, and subagent threads inherit their root's connection. */
module ReducerContext {
  import opened Common
  import opened AnalyticsReducer

  /** Every known thread has metadata, and its connection, if any, was initialised. */
  ghost predicate WellConnected(s: Reducer)
  {
    forall t :: t in s.threads ==>
      && s.threads[t].metadata.Some?
      && (s.threads[t].connection.Some? ==> s.threads[t].connection.value in s.connections)
  }

  lemma SubAgentKeepsConnected(s: Reducer, thread: string, parent: Option<string>, session: string, subagent: string)
    requires WellConnected(s)
    ensures WellConnected(IngestSubAgentThread(s, thread, parent, session, subagent))
  {
  }

  lemma ConnectionKeepsConnected(s: Reducer, f: ConnectionFact)
    requires WellConnected(s)
    ensures WellConnected(IngestConnection(s, f).0)
  {
    if f.SubAgentThreadStarted? {
      SubAgentKeepsConnected(s, f.thread, if f.parent.Some? then f.parent else f.sourceParent, f.session, f.subagent);
    }
  }

  lemma IngestKeepsConnected(s: Reducer, f: Fact)
    requires WellConnected(s)
    ensures WellConnected(Ingest(s, f).0)
  {
    if f.OfConnection? {
      ConnectionKeepsConnected(s, f.c);
    } else {
      assert Ingest(s, f).0.threads == s.threads && Ingest(s, f).0.connections == s.connections;
    }
  }

  lemma {:induction false} RunKeepsConnected(facts: seq<Fact>)
    ensures WellConnected(Run(facts).0)
  {
    if facts != [] {
      RunKeepsConnected(facts[..|facts| - 1]);
      IngestKeepsConnected(Run(facts[..|facts| - 1]).0, facts[|facts| - 1]);
    }
  }

  /**
  In every reachable state the missing-connection and missing-metadata branches
  of the context lookup are dead: it fails only for a thread that is unknown or
  has no connection.
  */
  lemma ContextOnlyLacksThreadConnection(facts: seq<Fact>, thread: string)
    ensures var s := Run(facts).0;
      && (ThreadContext(s, thread).Found? || ThreadContext(s, thread).NoThreadConnection?)
      && (ThreadContext(s, thread).Found? <==> thread in s.threads && s.threads[thread].connection.Some?)
  {
    RunKeepsConnected(facts);
  }

  // ----- Subagent chains -----

  ghost predicate Spawns(f: Fact, thread: string, parent: string)
  {
    && f.OfConnection? && f.c.SubAgentThreadStarted? && f.c.thread == thread
    && (if f.c.parent.Some? then f.c.parent else f.c.sourceParent) == Some(parent)
  }

  ghost function ParentAt(root: string, chain: seq<string>, i: nat): string
    requires i <= |chain|
  {
    if i == 0 then root else chain[i - 1]
  }

  /** Each thread of `chain` is started as a child of the one before it, the first as a child of `root`. */
  ghost predicate IsChain(root: string, chain: seq<string>, facts: seq<Fact>)
  {
    && |facts| == |chain|
    && forall i :: 0 <= i < |chain| ==>
         Spawns(facts[i], chain[i], ParentAt(root, chain, i))
  }

  ghost predicate ConnectedTo(s: Reducer, thread: string, c: nat)
  {
    thread in s.threads && s.threads[thread].connection == Some(c)
  }

  /** Starting one new thread under a connected parent. */
  lemma ChildInherits(s: Reducer, f: Fact, thread: string, parent: string, c: nat)
    requires Spawns(f, thread, parent) && ConnectedTo(s, parent, c) && thread !in s.threads
    ensures var t := Ingest(s, f).0;
      && ConnectedTo(t, thread, c) && t.threads.Keys == s.threads.Keys + {thread}
      && forall x :: x in s.threads ==> t.threads[x] == s.threads[x]
  {
    assert Ingest(s, f).0 == IngestSubAgentThread(s, thread, Some(parent), f.c.session, f.c.subagent);
  }

  /** `t` is `s` with the threads of `chain` added, all of them and `root` on connection `c`. */
  ghost predicate Inherited(s: Reducer, t: Reducer, root: string, chain: seq<string>, c: nat)
  {
    && ConnectedTo(t, root, c)
    && (forall i :: 0 <= i < |chain| ==> ConnectedTo(t, chain[i], c))
    && (forall x :: x in t.threads ==> x in s.threads || x in chain)
  }

  lemma InheritedStep(s: Reducer, before: Reducer, after: Reducer, root: string, chain: seq<string>, child: string, c: nat)
    requires Inherited(s, before, root, chain, c) && ConnectedTo(after, child, c)
    requires after.threads.Keys == before.threads.Keys + {child}
    requires forall x :: x in before.threads ==> after.threads[x] == before.threads[x]
    ensures Inherited(s, after, root, chain + [child], c)
  {
  }

  ghost predicate NewThreads(s: Reducer, chain: seq<string>)
  {
    && (forall i, j :: 0 <= i < j < |chain| ==> chain[i] != chain[j])
    && (forall i :: 0 <= i < |chain| ==> chain[i] !in s.threads)
  }

  lemma ChainPrefix(s: Reducer, root: string, chain: seq<string>, facts: seq<Fact>)
    requires IsChain(root, chain, facts) && NewThreads(s, chain) && chain != []
    ensures var n := |chain| - 1;
      && IsChain(root, chain[..n], facts[..n]) && NewThreads(s, chain[..n])
      && chain[n] !in s.threads && chain[n] !in chain[..n]
      && Spawns(facts[n], chain[n], if chain[..n] == [] then root else chain[..n][n - 1])
  {
    var n := |chain| - 1;
    forall i | 0 <= i < n ensures Spawns(facts[..n][i], chain[..n][i], ParentAt(root, chain[..n], i)) {
      assert Spawns(facts[i], chain[i], ParentAt(root, chain, i));
    }
    assert Spawns(facts[n], chain[n], ParentAt(root, chain, n));
  }

  lemma ChainStep(
    s: Reducer, before: Reducer, after: Reducer, f: Fact, root: string, init: seq<string>, child: string, chain: seq<string>, c: nat)
    requires after == Ingest(before, f).0 && chain == init + [child]
    requires Inherited(s, before, root, init, c) && child !in s.threads && child !in init
    requires Spawns(f, child, if init == [] then root else init[|init| - 1])
    ensures Inherited(s, after, root, chain, c)
  {
    var parent := if init == [] then root else init[|init| - 1];
    assert ConnectedTo(before, parent, c);
    ChildInherits(before, f, child, parent, c);
    InheritedStep(s, before, Ingest(before, f).0, root, init, child, c);
  }

  lemma InitAndLast<T>(a: seq<T>)
    requires a != []
    ensures a == a[..|a| - 1] + [a[|a| - 1]]
  {
  }

  lemma RunLast(s: Reducer, facts: seq<Fact>)
    requires facts != []
    ensures RunFrom(s, facts).0 == Ingest(RunFrom(s, facts[..|facts| - 1]).0, facts[|facts| - 1]).0
  {
  }

  /** A chain of new subagent threads of any depth, started parent first, inherits the root's connection. */
  lemma {:induction false} ChainInherits(s: Reducer, root: string, chain: seq<string>, facts: seq<Fact>, c: nat)
    requires IsChain(root, chain, facts) && ConnectedTo(s, root, c) && NewThreads(s, chain)
    ensures Inherited(s, RunFrom(s, facts).0, root, chain, c)
  {
    if chain != [] {
      ChainPrefix(s, root, chain, facts);
      ChainInherits(s, root, chain[..|chain| - 1], facts[..|facts| - 1], c);
      RunLast(s, facts);
      ChainGrows(s, RunFrom(s, facts[..|facts| - 1]).0, RunFrom(s, facts).0, root, chain, facts, c);
    }
  }

  lemma ChainGrows(s: Reducer, before: Reducer, after: Reducer, root: string, chain: seq<string>, facts: seq<Fact>, c: nat)
    requires chain != [] && IsChain(root, chain, facts) && NewThreads(s, chain)
    requires Inherited(s, before, root, chain[..|chain| - 1], c) && after == Ingest(before, facts[|facts| - 1]).0
    ensures Inherited(s, after, root, chain, c)
  {
    var n := |chain| - 1;
    ChainPrefix(s, root, chain, facts);
    InitAndLast(chain);
    ChainStep(s, before, after, facts[n], root, chain[..n], chain[n], chain, c);
  }
}
