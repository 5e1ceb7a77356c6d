/** The analytics client: batching of events into requests, and de-duplication of usage events. */
module AnalyticsClient {
  import opened Common

  // ----- Batching -----

  /** An event as batching sees it: isolated events (accepted-line fingerprints) travel alone. */
  datatype Tracked = Tracked(isolated: bool, body: string)

  function Flatten<T>(batches: seq<seq<T>>): seq<T>
  {
    if batches == [] then [] else batches[0] + Flatten(batches[1..])
  }

  /** An isolated event is the only one in its batch. */
  predicate Unmixed(batch: seq<Tracked>)
  {
    batch != [] && ((exists i :: 0 <= i < |batch| && batch[i].isolated) ==> |batch| == 1)
  }

  /** An order-preserving split with no empty batch and every isolated event alone. */
  ghost predicate ValidSplit(batches: seq<seq<Tracked>>, events: seq<Tracked>)
  {
    Flatten(batches) == events && forall i :: 0 <= i < |batches| ==> Unmixed(batches[i])
  }

  /** No two neighbouring batches could have been one. */
  ghost predicate Tight(batches: seq<seq<Tracked>>)
  {
    forall i :: 0 < i < |batches| && batches[i - 1] != [] && batches[i] != [] ==> batches[i - 1][0].isolated || batches[i][0].isolated
  }

  lemma {:induction false} FlattenSnoc<T>(batches: seq<seq<T>>, batch: seq<T>)
    ensures Flatten(batches + [batch]) == Flatten(batches) + batch
  {
    if batches == [] {
      assert [batch][1..] == [];
    } else {
      assert (batches + [batch])[1..] == batches[1..] + [batch];
      FlattenSnoc(batches[1..], batch);
      Regroup(batches[0], Flatten(batches[1..]), batch);
    }
  }

  lemma HeadTail(batches: seq<seq<Tracked>>, events: seq<Tracked>)
    requires ValidSplit(batches, events) && events != []
    ensures batches != [] && Unmixed(batches[0]) && |batches[0]| <= |events|
    ensures batches[0] == events[..|batches[0]|] && ValidSplit(batches[1..], events[|batches[0]|..])
  {
    assert events == batches[0] + Flatten(batches[1..]);
  }

  /** In a tight split a batch of ordinary events stops only at an isolated one. */
  lemma FirstBatchIsMaximal(a: seq<seq<Tracked>>, events: seq<Tracked>)
    requires ValidSplit(a, events) && Tight(a) && events != []
    ensures a != [] && a[0] != [] && |a[0]| <= |events|
    ensures !events[0].isolated && |a[0]| < |events| ==> events[|a[0]|].isolated
  {
    HeadTail(a, events);
    var n := |a[0]|;
    if n < |events| {
      HeadTail(a[1..], events[n..]);
      assert a[1][0] == events[n..][0] && a[0][0] == events[0];
    }
  }

  /** Cutting the first `k` events off the first batch. */
  lemma CutFirst(a: seq<seq<Tracked>>, events: seq<Tracked>, k: nat)
    requires ValidSplit(a, events) && Tight(a) && a != [] && 0 < k < |a[0]| && !events[0].isolated
    ensures k <= |events| && ValidSplit([a[0][k..]] + a[1..], events[k..]) && Tight([a[0][k..]] + a[1..])
  {
    var c := [a[0][k..]] + a[1..];
    assert events == a[0] + Flatten(a[1..]);
    assert c[1..] == a[1..];
    assert events[k..] == a[0][k..] + Flatten(a[1..]);
    assert a[0][0] == events[0];
    assert forall i :: 0 <= i < |a[0]| ==> !a[0][i].isolated;
    forall i | 0 < i < |c| && c[i - 1] != [] && c[i] != [] ensures c[i - 1][0].isolated || c[i][0].isolated {
      assert c[i] == a[i];
      assert i == 1 ==> a[0][0].isolated || a[1][0].isolated;
    }
  }

  /** A tight split has the fewest batches, and is the only one with so few. */
  lemma {:induction false} TightIsFewest(a: seq<seq<Tracked>>, b: seq<seq<Tracked>>, events: seq<Tracked>)
    requires ValidSplit(a, events) && Tight(a) && ValidSplit(b, events)
    ensures |a| <= |b| && (|a| == |b| ==> a == b)
    decreases |events|, |b|
  {
    if events == [] {
      NoBatches(a);
      NoBatches(b);
    } else {
      HeadTail(a, events);
      HeadTail(b, events);
      FirstBatchIsMaximal(a, events);
      var k := |b[0]|;
      assert k <= |a[0]| by { FirstNoLonger(a[0], b[0], events); }
      if k == |a[0]| {
        TightIsFewest(a[1..], b[1..], events[k..]);
        assert a == [a[0]] + a[1..] && b == [b[0]] + b[1..];
      } else {
        CutFirst(a, events, k);
        TightIsFewest([a[0][k..]] + a[1..], b[1..], events[k..]);
      }
    }
  }

  lemma NoBatches(a: seq<seq<Tracked>>)
    requires ValidSplit(a, [])
    ensures a == []
  {
  }

  lemma FirstNoLonger(x: seq<Tracked>, y: seq<Tracked>, events: seq<Tracked>)
    requires Unmixed(x) && Unmixed(y) && |x| <= |events| && |y| <= |events| && x == events[..|x|] && y == events[..|y|]
    requires !events[0].isolated && |x| < |events| ==> events[|x|].isolated
    ensures |y| <= |x| && (|y| < |x| ==> !events[0].isolated)
  {
    assert forall i :: 0 <= i < |x| ==> x[i] == events[i];
    assert forall i :: 0 <= i < |y| ==> y[i] == events[i];
    assert x[0] == y[0] == events[0];
  }

  /**
  `track_event_request_batches`: order is preserved, no batch is empty, every
  isolated event is alone, and no split with these properties has fewer batches.
  */
  method TrackEventRequestBatches(events: seq<Tracked>) returns (batches: seq<seq<Tracked>>)
    ensures ValidSplit(batches, events)
    ensures forall other :: ValidSplit(other, events) ==> |batches| <= |other| && (|batches| == |other| ==> batches == other)
  {
    batches := [];
    var current: seq<Tracked> := [];
    for i := 0 to |events|
      invariant Split(batches, current, events[..i])
    {
      assert events[..i + 1] == events[..i] + [events[i]];
      if events[i].isolated {
        if current != [] {
          CloseBatch(batches, current, events[..i]);
          batches := batches + [current];
          current := [];
        }
        AddIsolated(batches, events[..i], events[i]);
        batches := batches + [[events[i]]];
      } else {
        AddOrdinary(batches, current, events[..i], events[i]);
        current := current + [events[i]];
      }
    }
    assert events[..|events|] == events;
    if current != [] {
      CloseBatch(batches, current, events);
      batches := batches + [current];
    }
    forall other | ValidSplit(other, events) ensures |batches| <= |other| && (|batches| == |other| ==> batches == other) {
      TightIsFewest(batches, other, events);
    }
  }

  /** The loop's state: closed batches, the last one isolated, then a growing batch of ordinary events. */
  ghost predicate Split(batches: seq<seq<Tracked>>, current: seq<Tracked>, events: seq<Tracked>)
  {
    && Flatten(batches) + current == events
    && (forall i :: 0 <= i < |batches| ==> Unmixed(batches[i])) && Tight(batches)
    && (forall i :: 0 <= i < |current| ==> !current[i].isolated)
    && (batches != [] ==> batches[|batches| - 1][0].isolated)
  }

  lemma CloseBatch(batches: seq<seq<Tracked>>, current: seq<Tracked>, events: seq<Tracked>)
    requires Split(batches, current, events) && current != []
    ensures ValidSplit(batches + [current], events) && Tight(batches + [current])
  {
    FlattenSnoc(batches, current);
  }

  lemma AddIsolated(batches: seq<seq<Tracked>>, events: seq<Tracked>, e: Tracked)
    requires ValidSplit(batches, events) && Tight(batches) && e.isolated
    ensures Split(batches + [[e]], [], events + [e])
  {
    FlattenSnoc(batches, [e]);
    assert Flatten(batches + [[e]]) + [] == events + [e];
  }

  lemma AddOrdinary(batches: seq<seq<Tracked>>, current: seq<Tracked>, events: seq<Tracked>, e: Tracked)
    requires Split(batches, current, events) && !e.isolated
    ensures Split(batches, current + [e], events + [e])
  {
    Regroup(Flatten(batches), current, [e]);
  }

  // ----- De-duplication -----

  const MAX_KEYS: nat := 4096

  /** Keys remembered, keyed events admitted so far, and how often the set was cleared. */
  datatype Dedupe<K> = Dedupe(keys: set<K>, admitted: seq<K>, clears: nat)

  function Admit<K>(d: Dedupe<K>, key: K): (Dedupe<K>, bool)
  {
    var e := if |d.keys| >= MAX_KEYS then d.(keys := {}, clears := d.clears + 1) else d;
    if key in e.keys then (e, false)
    else (e.(keys := e.keys + {key}, admitted := e.admitted + [key]), true)
  }

  /** A run over events; `None` is an event without a key, which is always admitted. */
  function RunDedupe<K>(events: seq<Option<K>>): Dedupe<K>
  {
    if events == [] then Dedupe({}, [], 0)
    else
      var d, last := RunDedupe(events[..|events| - 1]), events[|events| - 1];
      if last.None? then d else Admit(d, last.value).0
  }

  function Times<K(==)>(s: seq<K>, key: K): nat
  {
    if s == [] then 0 else Times(s[..|s| - 1], key) + if s[|s| - 1] == key then 1 else 0
  }

  /** Every clearing is paid for by a full set, and a key is admitted once per filling. */
  ghost predicate Bounded<K(!new)>(d: Dedupe<K>)
  {
    && |d.keys| <= MAX_KEYS
    && |d.admitted| == MAX_KEYS * d.clears + |d.keys|
    && (d.clears > 0 ==> |d.keys| > 0)
    && forall key :: Times(d.admitted, key) <= d.clears + if key in d.keys then 1 else 0
  }

  lemma AdmitKeepsBound<K(!new)>(d: Dedupe<K>, key: K)
    requires Bounded(d)
    ensures Bounded(Admit(d, key).0)
  {
    if |d.keys| >= MAX_KEYS {
      ClearKeepsBound(d);
      AddKeepsBound(d.(keys := {}, clears := d.clears + 1), key);
    } else if key !in d.keys {
      AddKeepsBound(d, key);
    }
  }

  /** `Bounded`, except that the set may just have been cleared. */
  ghost predicate Roomy<K(!new)>(d: Dedupe<K>)
  {
    && |d.keys| < MAX_KEYS
    && |d.admitted| == MAX_KEYS * d.clears + |d.keys|
    && forall key :: Times(d.admitted, key) <= d.clears + if key in d.keys then 1 else 0
  }

  lemma ClearKeepsBound<K(!new)>(d: Dedupe<K>)
    requires Bounded(d) && |d.keys| >= MAX_KEYS
    ensures Roomy(d.(keys := {}, clears := d.clears + 1))
  {
  }

  lemma TimesSnoc<K(!new)>(s: seq<K>, x: K, key: K)
    ensures Times(s + [x], key) == Times(s, key) + if x == key then 1 else 0
  {
    assert (s + [x])[..|s|] == s;
  }

  lemma AddKeepsBound<K(!new)>(d: Dedupe<K>, key: K)
    requires Roomy(d) && key !in d.keys
    ensures Bounded(d.(keys := d.keys + {key}, admitted := d.admitted + [key]))
  {
    forall k ensures Times(d.admitted + [key], k) <= d.clears + if k in d.keys + {key} then 1 else 0 {
      TimesSnoc(d.admitted, key, k);
    }
  }

  lemma {:induction false} RunKeepsBound<K(!new)>(events: seq<Option<K>>)
    ensures Bounded(RunDedupe(events))
  {
    if events != [] {
      RunKeepsBound(events[..|events| - 1]);
      var last := events[|events| - 1];
      if last.Some? { AdmitKeepsBound(RunDedupe(events[..|events| - 1]), last.value); }
    }
  }

  function CeilDiv(n: nat, d: nat): nat
    requires d > 0
  {
    (n + d - 1) / d
  }

  /** Over every run at most 4096 keys are held, and no key is admitted more than once per 4096 admissions begun. */
  lemma AdmissionsBounded<K(!new)>(events: seq<Option<K>>, key: K)
    ensures var d := RunDedupe(events);
      |d.keys| <= 4096 && Times(d.admitted, key) <= CeilDiv(|d.admitted|, 4096)
  {
    RunKeepsBound(events);
  }

  /** The two de-duplicators of the events queue. */
  // ----- Exactly which events are admitted -----

  /** The admissions since the last multiple of 4096. */
  function Window<K>(admitted: seq<K>): seq<K>
  {
    admitted[4096 * (|admitted| / 4096)..]
  }

  /** The keys remembered are those admitted since the last clearing. */
  ghost predicate InWindow<K(!new)>(d: Dedupe<K>)
  {
    && MAX_KEYS * d.clears <= |d.admitted|
    && forall key :: key in d.keys <==> key in d.admitted[MAX_KEYS * d.clears..]
  }

  ghost predicate Remembers<K(!new)>(d: Dedupe<K>)
  {
    Bounded(d) && InWindow(d)
  }

  lemma ClearedWindow<K(!new)>(d: Dedupe<K>)
    requires |d.admitted| == MAX_KEYS * d.clears && d.keys == {}
    ensures InWindow(d)
  {
    assert d.admitted[MAX_KEYS * d.clears..] == [];
  }

  lemma AddedWindow<K(!new)>(d: Dedupe<K>, key: K)
    requires InWindow(d)
    ensures InWindow(d.(keys := d.keys + {key}, admitted := d.admitted + [key]))
  {
    DropSnoc(d.admitted, key, MAX_KEYS * d.clears);
  }

  lemma DropSnoc<T>(a: seq<T>, x: T, n: nat)
    requires n <= |a|
    ensures (a + [x])[n..] == a[n..] + [x]
  {
  }

  lemma AdmitRemembers<K(!new)>(d: Dedupe<K>, key: K)
    requires Remembers(d)
    ensures Remembers(Admit(d, key).0)
  {
    AdmitKeepsBound(d, key);
    if |d.keys| >= MAX_KEYS {
      var e := d.(keys := {}, clears := d.clears + 1);
      ClearedWindow(e);
      AddedWindow(e, key);
    } else if key !in d.keys {
      AddedWindow(d, key);
    }
  }

  lemma {:induction false} RunRemembers<K(!new)>(events: seq<Option<K>>)
    ensures Remembers(RunDedupe(events))
  {
    if events != [] {
      RunRemembers(events[..|events| - 1]);
      var last := events[|events| - 1];
      if last.Some? { AdmitRemembers(RunDedupe(events[..|events| - 1]), last.value); }
    }
  }

  /** After any run, the next keyed event is admitted exactly when its key has not been since the last multiple of 4096 admissions. */
  lemma AdmittedIff<K(!new)>(events: seq<Option<K>>, key: K)
    ensures var d := RunDedupe(events);
      var (d', admitted) := Admit(d, key);
      && (admitted <==> key !in Window(d.admitted))
      && d'.admitted == if admitted then d.admitted + [key] else d.admitted
  {
    RunRemembers(events);
    var d := RunDedupe(events);
    if |d.keys| >= MAX_KEYS {
      assert |d.admitted| / MAX_KEYS == d.clears + 1;
    } else {
      assert |d.admitted| / MAX_KEYS == d.clears;
    }
  }

  class AnalyticsEventsQueue {
    var appUsedEmittedKeys: set<(string, string)>
    var pluginUsedEmittedKeys: set<(string, string)>
    ghost var apps: Dedupe<(string, string)>
    ghost var plugins: Dedupe<(string, string)>

    ghost predicate Valid()
      reads this
    {
      && apps.keys == appUsedEmittedKeys && Bounded(apps)
      && plugins.keys == pluginUsedEmittedKeys && Bounded(plugins)
    }

    constructor ()
      ensures Valid() && apps == RunDedupe([]) && plugins == RunDedupe([])
    {
      appUsedEmittedKeys, pluginUsedEmittedKeys := {}, {};
      apps, plugins := Dedupe({}, [], 0), Dedupe({}, [], 0);
    }

    method ShouldEnqueueAppUsed(turn: string, connector: Option<string>) returns (enqueue: bool)
      requires Valid()
      modifies this
      ensures Valid() && plugins == old(plugins)
      ensures (apps, enqueue) == if connector.None? then (old(apps), true) else Admit(old(apps), (turn, connector.value))
    {
      if connector.None? { return true; }
      var key := (turn, connector.value);
      AdmitKeepsBound(apps, key);
      if |appUsedEmittedKeys| >= MAX_KEYS { appUsedEmittedKeys := {}; }
      enqueue := key !in appUsedEmittedKeys;
      appUsedEmittedKeys := appUsedEmittedKeys + {key};
      apps := Admit(apps, key).0;
    }

    method ShouldEnqueuePluginUsed(turn: string, plugin: string) returns (enqueue: bool)
      requires Valid()
      modifies this
      ensures Valid() && apps == old(apps)
      ensures (plugins, enqueue) == Admit(old(plugins), (turn, plugin))
    {
      var key := (turn, plugin);
      AdmitKeepsBound(plugins, key);
      if |pluginUsedEmittedKeys| >= MAX_KEYS { pluginUsedEmittedKeys := {}; }
      enqueue := key !in pluginUsedEmittedKeys;
      pluginUsedEmittedKeys := pluginUsedEmittedKeys + {key};
      plugins := Admit(plugins, key).0;
    }
  }
}
