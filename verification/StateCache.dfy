/** The in-memory state cache: what it stores, and which events it turns into
    `change` notifications. Values are never NaN. */
module StateCache {
  import opened AlexaModel

  datatype Change<V> = Change(uuid: Uuid, prev: V, next: V)

  /** One event: store the value, notify on a transition only. */
  function AbsorbOne<V(==)>(cache: map<Uuid, V>, out: seq<Change<V>>, event: (Uuid, V)): (map<Uuid, V>, seq<Change<V>>) {
    var (u, v) := event;
    (cache[u := v], if u in cache && cache[u] != v then out + [Change(u, cache[u], v)] else out)
  }

  /** One pass over a batch. */
  function Absorb<V(==)>(cache: map<Uuid, V>, events: seq<(Uuid, V)>): (map<Uuid, V>, seq<Change<V>>) {
    if events == [] then (cache, [])
    else
      var (before, out) := Absorb(cache, events[..|events| - 1]);
      AbsorbOne(before, out, events[|events| - 1])
  }

  function AbsorbAll<V(==)>(cache: map<Uuid, V>, batches: seq<seq<(Uuid, V)>>): (map<Uuid, V>, seq<Change<V>>) {
    if batches == [] then (cache, [])
    else
      var (before, out) := AbsorbAll(cache, batches[..|batches| - 1]);
      var (after, more) := Absorb(before, batches[|batches| - 1]);
      (after, out + more)
  }

  // ----- What one UUID sees ----------------------------------------------------

  function Sightings<V>(events: seq<(Uuid, V)>, u: Uuid): seq<V> {
    if events == [] then []
    else
      var before := Sightings(events[..|events| - 1], u);
      if events[|events| - 1].0 == u then before + [events[|events| - 1].1] else before
  }

  /** Every value the cache held for `u`, the initial one included. */
  function History<V>(cache: map<Uuid, V>, events: seq<(Uuid, V)>, u: Uuid): seq<V> {
    (if u in cache then [cache[u]] else []) + Sightings(events, u)
  }

  function ChangesOf<V>(changes: seq<Change<V>>, u: Uuid): seq<(V, V)> {
    if changes == [] then []
    else
      var c := changes[|changes| - 1];
      var before := ChangesOf(changes[..|changes| - 1], u);
      if c.uuid == u then before + [(c.prev, c.next)] else before
  }

  /** The successive unequal pairs of a history. */
  function Transitions<V(==)>(history: seq<V>): seq<(V, V)> {
    if |history| < 2 then []
    else
      var a, b := history[|history| - 2], history[|history| - 1];
      var before := Transitions(history[..|history| - 1]);
      if a != b then before + [(a, b)] else before
  }

  lemma ChangesOfAppend<V>(changes: seq<Change<V>>, c: Change<V>, u: Uuid)
    ensures ChangesOf(changes + [c], u) == if c.uuid == u then ChangesOf(changes, u) + [(c.prev, c.next)] else ChangesOf(changes, u)
  {
    assert (changes + [c])[..|changes|] == changes;
  }

  lemma TransitionsAppend<V>(history: seq<V>, v: V)
    ensures Transitions(history + [v]) ==
      if history != [] && history[|history| - 1] != v
      then Transitions(history) + [(history[|history| - 1], v)] else Transitions(history)
  {
    assert (history + [v])[..|history|] == history;
  }

  lemma {:induction false} CacheHoldsLast<V>(cache: map<Uuid, V>, events: seq<(Uuid, V)>, u: Uuid)
    ensures u in Absorb(cache, events).0 <==> History(cache, events, u) != []
    ensures u in Absorb(cache, events).0 ==>
      Absorb(cache, events).0[u] == History(cache, events, u)[|History(cache, events, u)| - 1]
  {
    if events != [] {
      var front, last := events[..|events| - 1], events[|events| - 1];
      CacheHoldsLast(cache, front, u);
      HistoryStep(cache, front, last, u);
      assert front + [last] == events;
    }
  }

  /** Transitions only: the changes emitted for a UUID are exactly the successive
      unequal pairs of the values it has shown, and the cache holds the last of
      them. A first sighting is never reported. */
  lemma {:induction false} ChangesAreTransitions<V>(cache: map<Uuid, V>, events: seq<(Uuid, V)>, u: Uuid)
    ensures ChangesOf(Absorb(cache, events).1, u) == Transitions(History(cache, events, u))
    ensures u in Absorb(cache, events).0 <==> History(cache, events, u) != []
    ensures u in Absorb(cache, events).0 ==>
      Absorb(cache, events).0[u] == History(cache, events, u)[|History(cache, events, u)| - 1]
  {
    CacheHoldsLast(cache, events, u);
    if events != [] {
      var front, last := events[..|events| - 1], events[|events| - 1];
      ChangesAreTransitions(cache, front, u);
      HistoryStep(cache, front, last, u);
      assert front + [last] == events;
      if last.0 == u { TransitionsAppend(History(cache, front, u), last.1); }
      OneChange(Absorb(cache, front).0, Absorb(cache, front).1, last, u);
    }
  }

  lemma HistoryStep<V>(cache: map<Uuid, V>, front: seq<(Uuid, V)>, last: (Uuid, V), u: Uuid)
    ensures History(cache, front + [last], u) == if last.0 == u then History(cache, front, u) + [last.1] else History(cache, front, u)
  {
    assert (front + [last])[..|front|] == front;
  }

  lemma OneChange<V>(cache: map<Uuid, V>, out: seq<Change<V>>, event: (Uuid, V), u: Uuid)
    ensures ChangesOf(AbsorbOne(cache, out, event).1, u) ==
      if event.0 == u && u in cache && cache[u] != event.1
      then ChangesOf(out, u) + [(cache[u], event.1)] else ChangesOf(out, u)
  {
    if event.0 in cache && cache[event.0] != event.1 {
      ChangesOfAppend(out, Change(event.0, cache[event.0], event.1), u);
    }
  }

  // ----- Replaying the notifications ---------------------------------------------

  /** A listener that starts from `start` and applies each change; None as soon as
      a change does not continue where the last one left off. */
  function Replay<V(==)>(start: V, changes: seq<(V, V)>): Option<V> {
    if changes == [] then Some(start)
    else
      var c := changes[|changes| - 1];
      var before := Replay(start, changes[..|changes| - 1]);
      if before == Some(c.0) then Some(c.1) else None
  }

  lemma ReplayAppend<V>(start: V, changes: seq<(V, V)>, c: (V, V))
    requires Replay(start, changes) == Some(c.0)
    ensures Replay(start, changes + [c]) == Some(c.1)
  {
    assert (changes + [c])[..|changes|] == changes;
  }

  lemma {:induction false} ReplayTransitions<V>(history: seq<V>)
    requires history != []
    ensures Replay(history[0], Transitions(history)) == Some(history[|history| - 1])
  {
    if |history| > 1 {
      var front := history[..|history| - 1];
      ReplayTransitions(front);
      var a, b := history[|history| - 2], history[|history| - 1];
      assert front[0] == history[0] && front[|front| - 1] == a;
      if a != b { ReplayAppend(history[0], Transitions(front), (a, b)); }
    }
  }

  /** A listener that knows the first value of a UUID and applies the changes ends
      with what the cache holds. */
  lemma ReplayGivesCache<V>(cache: map<Uuid, V>, events: seq<(Uuid, V)>, u: Uuid)
    requires History(cache, events, u) != []
    ensures var (after, changes) := Absorb(cache, events);
      && u in after
      && Replay(History(cache, events, u)[0], ChangesOf(changes, u)) == Some(after[u])
  {
    ChangesAreTransitions(cache, events, u);
    ReplayTransitions(History(cache, events, u));
  }

  // ----- Batches --------------------------------------------------------------------

  function Flatten<V>(batches: seq<seq<V>>): seq<V> {
    if batches == [] then [] else Flatten(batches[..|batches| - 1]) + batches[|batches| - 1]
  }

  lemma OneAppend<V>(cache: map<Uuid, V>, out: seq<Change<V>>, more: seq<Change<V>>, event: (Uuid, V))
    ensures var (after, last) := AbsorbOne(cache, more, event);
      AbsorbOne(cache, out + more, event) == (after, out + last)
  {
    var (u, v) := event;
    if u in cache && cache[u] != v {
      var c := Change(u, cache[u], v);
      assert out + (more + [c]) == (out + more) + [c];
    }
  }

  lemma {:induction false} AbsorbAppend<V>(cache: map<Uuid, V>, a: seq<(Uuid, V)>, b: seq<(Uuid, V)>)
    ensures Absorb(cache, a + b)
         == (Absorb(Absorb(cache, a).0, b).0, Absorb(cache, a).1 + Absorb(Absorb(cache, a).0, b).1)
  {
    var (mid, out) := Absorb(cache, a);
    if b == [] {
      assert a + b == a && out + [] == out;
    } else {
      var front, last := b[..|b| - 1], b[|b| - 1];
      AbsorbAppend(cache, a, front);
      assert (a + b)[..|a + b| - 1] == a + front && (a + b)[|a + b| - 1] == last;
      var (before, more) := Absorb(mid, front);
      OneAppend(before, out, more, last);
    }
  }

  /** How events are cut into batches makes no difference. */
  lemma {:induction false} BatchesDoNotMatter<V>(cache: map<Uuid, V>, batches: seq<seq<(Uuid, V)>>)
    ensures AbsorbAll(cache, batches) == Absorb(cache, Flatten(batches))
  {
    if batches != [] {
      var front, last := batches[..|batches| - 1], batches[|batches| - 1];
      BatchesDoNotMatter(cache, front);
      AbsorbAppend(cache, Flatten(front), last);
    }
  }

  // ----- A full dump ------------------------------------------------------------------

  predicate DistinctUuids<V>(dump: seq<(Uuid, V)>) {
    forall i, j :: 0 <= i < j < |dump| ==> dump[i].0 != dump[j].0
  }

  /** The entries of a dump that differ from what the cache holds. */
  function Differences<V(==)>(cache: map<Uuid, V>, dump: seq<(Uuid, V)>): seq<Change<V>> {
    if dump == [] then []
    else
      var (u, v) := dump[|dump| - 1];
      var before := Differences(cache, dump[..|dump| - 1]);
      if u in cache && cache[u] != v then before + [Change(u, cache[u], v)] else before
  }

  predicate Dumped<V>(dump: seq<(Uuid, V)>, u: Uuid) {
    exists i :: 0 <= i < |dump| && dump[i].0 == u
  }

  lemma DumpedStep<V>(front: seq<(Uuid, V)>, last: (Uuid, V), u: Uuid)
    ensures Dumped(front + [last], u) <==> Dumped(front, u) || u == last.0
  {
    if Dumped(front, u) {
      var i :| 0 <= i < |front| && front[i].0 == u;
      assert (front + [last])[i].0 == u;
    }
    assert (front + [last])[|front|] == last;
  }

  /** A batch replaces exactly the entries it names. */
  lemma {:induction false} DumpStores<V>(cache: map<Uuid, V>, dump: seq<(Uuid, V)>, u: Uuid)
    ensures u in Absorb(cache, dump).0 <==> u in cache || Dumped(dump, u)
    ensures u in cache && !Dumped(dump, u) ==> Absorb(cache, dump).0[u] == cache[u]
  {
    if dump != [] {
      var front, last := dump[..|dump| - 1], dump[|dump| - 1];
      DumpStores(cache, front, u);
      assert front + [last] == dump;
      DumpedStep(front, last, u);
    }
  }

  lemma {:induction false} DumpLastValue<V>(cache: map<Uuid, V>, dump: seq<(Uuid, V)>, i: nat)
    requires DistinctUuids(dump) && i < |dump|
    ensures dump[i].0 in Absorb(cache, dump).0 && Absorb(cache, dump).0[dump[i].0] == dump[i].1
  {
    if i < |dump| - 1 { DumpLastValue(cache, dump[..|dump| - 1], i); }
  }

  /** A full re-dump emits exactly the differences since the previous dump, once
      each and in dump order. */
  lemma {:induction false} DumpEmitsDifferences<V>(cache: map<Uuid, V>, dump: seq<(Uuid, V)>)
    requires DistinctUuids(dump)
    ensures Absorb(cache, dump).1 == Differences(cache, dump)
  {
    if dump != [] {
      var front, last := dump[..|dump| - 1], dump[|dump| - 1];
      DumpEmitsDifferences(cache, front);
      DumpStores(cache, front, last.0);
    }
  }

  /** Dumping the same table twice is silent the second time. */
  lemma SecondDumpIsSilent<V>(cache: map<Uuid, V>, dump: seq<(Uuid, V)>)
    requires DistinctUuids(dump)
    ensures Absorb(Absorb(cache, dump).0, dump) == (Absorb(cache, dump).0, [])
  {
    var after := Absorb(cache, dump).0;
    forall i | 0 <= i < |dump| ensures dump[i].0 in after && after[dump[i].0] == dump[i].1 { DumpLastValue(cache, dump, i); }
    DumpEmitsDifferences(after, dump);
    NoDifferences(after, dump);
    StoringAgain(after, dump);
  }

  lemma {:induction false} StoringAgain<V>(cache: map<Uuid, V>, dump: seq<(Uuid, V)>)
    requires forall i :: 0 <= i < |dump| ==> dump[i].0 in cache && cache[dump[i].0] == dump[i].1
    ensures Absorb(cache, dump).0 == cache
  {
    if dump != [] { StoringAgain(cache, dump[..|dump| - 1]); }
  }

  lemma {:induction false} NoDifferences<V>(cache: map<Uuid, V>, dump: seq<(Uuid, V)>)
    requires forall i :: 0 <= i < |dump| ==> dump[i].0 in cache && cache[dump[i].0] == dump[i].1
    ensures Differences(cache, dump) == []
  {
    if dump != [] { NoDifferences(cache, dump[..|dump| - 1]); }
  }

  // ----- The cache object ----------------------------------------------------------------

  datatype Decoded =
    | ValueBatch(values: seq<(Uuid, real)>)
    | TextBatch(texts: seq<(Uuid, string)>)
    | CountedBatch(count: nat)
    | UnknownBatch

  datatype Notice = ValueChange(value: Change<real>) | TextChange(text: Change<string>)

  function ValueNotices(changes: seq<Change<real>>): seq<Notice> {
    seq(|changes|, i requires 0 <= i < |changes| => ValueChange(changes[i]))
  }

  function TextNotices(changes: seq<Change<string>>): seq<Notice> {
    seq(|changes|, i requires 0 <= i < |changes| => TextChange(changes[i]))
  }

  class MiniserverStateCache {
    var values: map<Uuid, real>
    var texts: map<Uuid, string>
    var eventsSeen: nat
    var emitted: seq<Notice>

    constructor ()
      ensures values == map[] && texts == map[] && eventsSeen == 0 && emitted == []
    {
      values, texts, eventsSeen, emitted := map[], map[], 0, [];
    }

    /** `ingest`: value and text states are separate tables; day timers and weather
        are only counted. */
    method Ingest(decoded: Decoded) returns (applied: nat)
      modifies this
      ensures applied == (match decoded case ValueBatch(vs) => |vs| case TextBatch(ts) => |ts|
                                        case CountedBatch(n) => n case UnknownBatch => 0)
      ensures eventsSeen == old(eventsSeen) + applied
      ensures decoded.ValueBatch? ==>
        var (after, changes) := Absorb(old(values), decoded.values);
        values == after && emitted == old(emitted) + ValueNotices(changes) && texts == old(texts)
      ensures decoded.TextBatch? ==>
        var (after, changes) := Absorb(old(texts), decoded.texts);
        texts == after && emitted == old(emitted) + TextNotices(changes) && values == old(values)
      ensures !decoded.ValueBatch? && !decoded.TextBatch? ==>
        values == old(values) && texts == old(texts) && emitted == old(emitted)
    {
      match decoded {
        case ValueBatch(events) => IngestValues(events); applied := |events|;
        case TextBatch(events) => IngestTexts(events); applied := |events|;
        case CountedBatch(count) => applied := count;
        case UnknownBatch => applied := 0;
      }
      eventsSeen := eventsSeen + applied;
    }

    method IngestValues(events: seq<(Uuid, real)>)
      modifies `values, `emitted
      ensures var (after, changes) := Absorb(old(values), events);
        values == after && emitted == old(emitted) + ValueNotices(changes)
    {
      ghost var changes: seq<Change<real>> := [];
      for i := 0 to |events|
        invariant Absorb(old(values), events[..i]) == (values, changes)
        invariant emitted == old(emitted) + ValueNotices(changes)
      {
        assert events[..i + 1][..i] == events[..i];
        var (u, v) := events[i];
        if u in values && values[u] != v {
          ghost var c := Change(u, values[u], v);
          assert ValueNotices(changes + [c]) == ValueNotices(changes) + [ValueChange(c)];
          emitted := emitted + [ValueChange(Change(u, values[u], v))];
          changes := changes + [c];
        }
        values := values[u := v];
      }
      assert events[..|events|] == events;
    }

    method IngestTexts(events: seq<(Uuid, string)>)
      modifies `texts, `emitted
      ensures var (after, changes) := Absorb(old(texts), events);
        texts == after && emitted == old(emitted) + TextNotices(changes)
    {
      ghost var changes: seq<Change<string>> := [];
      for i := 0 to |events|
        invariant Absorb(old(texts), events[..i]) == (texts, changes)
        invariant emitted == old(emitted) + TextNotices(changes)
      {
        assert events[..i + 1][..i] == events[..i];
        var (u, t) := events[i];
        if u in texts && texts[u] != t {
          ghost var c := Change(u, texts[u], t);
          assert TextNotices(changes + [c]) == TextNotices(changes) + [TextChange(c)];
          emitted := emitted + [TextChange(Change(u, texts[u], t))];
          changes := changes + [c];
        }
        texts := texts[u := t];
      }
      assert events[..|events|] == events;
    }
  }
}
