/** Index events over runs of the whole system between two resets of the context-key cache. */
module Accounting {
  import opened Wrappers
  import opened Events
  import opened DispatcherSpec
  import opened Recency
  import opened Protocol

  /** The keys that these events add to the cache, in order. */
  function KeysAdded(evts: seq<Input>): seq<string> {
    if evts == [] then []
    else
      var evt := evts[|evts| - 1];
      KeysAdded(evts[..|evts| - 1]) + if RefersToContext(evt) then [KeyOfContext(evt)] else []
  }

  function CountIndexesFor(offers: seq<Output>, key: string): nat {
    if offers == [] then 0
    else
      var e := offers[|offers| - 1];
      CountIndexesFor(offers[..|offers| - 1], key) + if e.Index? && e.context.key == key then 1 else 0
  }

  /** The first of these events that refers to the context with this key. */
  function FirstReference(evts: seq<Input>, key: string): Option<Input> {
    if evts == [] then None
    else
      var before, evt := FirstReference(evts[..|evts| - 1], key), evts[|evts| - 1];
      if before.Some? then before
      else if RefersToContext(evt) && KeyOfContext(evt) == key then Some(evt)
      else None
  }

  /** The index events due for a key: none if the cache holds it already, or if its first reference is an
      identify event (which carries the context itself), or if there is none; otherwise one. */
  function IndexesDue(held: seq<string>, evts: seq<Input>, key: string): nat {
    if key in held then 0
    else match FirstReference(evts, key)
      case None => 0
      case Some(evt) => if evt.Identify? then 0 else 1
  }

  lemma {:induction false} KeyAddedIff(evts: seq<Input>, key: string)
    ensures key in KeysAdded(evts) <==> FirstReference(evts, key).Some?
  {
    if evts != [] {
      KeyAddedIff(evts[..|evts| - 1], key);
    }
  }

  /** While no more distinct keys have come than the cache holds, it forgets none of them. */
  lemma NothingForgotten(capacity: nat, history: seq<string>, key: string)
    requires 0 < capacity && |Elements(history)| <= capacity
    ensures key in Contents(capacity, history) <==> key in history
  {
    InCacheIff(capacity, history, key);
    if key in history {
      AddedSinceOthers(history, key);
      SubsetSize(AddedSince(history, key) + {key}, Elements(history));
    }
  }

  lemma {:induction false} AddedSinceOthers(history: seq<string>, key: string)
    requires key in history
    ensures key !in AddedSince(history, key) && AddedSince(history, key) <= Elements(history)
  {
    var front, last := history[..|history| - 1], history[|history| - 1];
    assert history == front + [last];
    if last != key {
      AddedSinceOthers(front, key);
    }
  }

  lemma SubsetSize(a: set<string>, b: set<string>)
    requires a <= b
    ensures |a| <= |b|
  {
    assert b == a + (b - a);
  }

  lemma IndexesInOffers(c: Config, d: Dispatcher, evt: Input, chance: Chance, key: string)
    requires !d.disabled
    ensures CountIndexesFor(Offers(c, d, evt, chance), key)
         == if (evt.Evaluated? || evt.Custom?) && KeyOfContext(evt) == key && !Seen(c, d, key) then 1 else 0
  {
    OfferedIndexEvents(c, d, evt, chance);
    CountByIndexEvents(Offers(c, d, evt, chance), key);
    var indexes := IndexEvents(Offers(c, d, evt, chance));
    if indexes != [] {
      assert indexes[..0] == [];
    }
  }

  lemma {:induction false} CountByIndexEvents(offers: seq<Output>, key: string)
    ensures CountIndexesFor(offers, key) == CountIndexesFor(IndexEvents(offers), key)
  {
    if offers != [] {
      var front, e := offers[..|offers| - 1], offers[|offers| - 1];
      CountByIndexEvents(front, key);
      if e.Index? {
        assert (IndexEvents(front) + [e])[..|IndexEvents(front)|] == IndexEvents(front);
      } else {
        assert IndexEvents(front) + [] == IndexEvents(front);
      }
    }
  }

  lemma {:induction false} CountConcat(a: seq<Output>, b: seq<Output>, key: string)
    ensures CountIndexesFor(a + b, key) == CountIndexesFor(a, key) + CountIndexesFor(b, key)
  {
    if b == [] {
      assert a + b == a;
    } else {
      assert (a + b)[..|a + b| - 1] == a + b[..|b| - 1];
      CountConcat(a, b[..|b| - 1], key);
    }
  }

  /** What a stretch without a reset has come to: evts were processed and offers made, starting with a cache
      that had been given the keys in held; now it has been given keys. */
  ghost predicate Stretch(c: Config, held: seq<string>, evts: seq<Input>, offers: seq<Output>, keys: seq<string>, key: string) {
    && keys == held + KeysAdded(evts)
    && (|Elements(keys)| <= c.userKeysCapacity ==> CountIndexesFor(offers, key) == IndexesDue(held, evts, key))
  }

  lemma StretchStep(c: Config, held: seq<string>, evts: seq<Input>, offers: seq<Output>, d: Dispatcher,
                    evt: Input, chance: Chance, key: string)
    requires !d.disabled && 0 < c.userKeysCapacity && Stretch(c, held, evts, offers, d.addedKeys, key)
    ensures Stretch(c, held, evts + [evt], offers + Offers(c, d, evt, chance), Process(c, d, evt, chance).addedKeys, key)
  {
    var keys, after := d.addedKeys, Process(c, d, evt, chance).addedKeys;
    assert (evts + [evt])[..|evts|] == evts;
    assert after == keys + if RefersToContext(evt) then [KeyOfContext(evt)] else [];
    assert after == held + KeysAdded(evts + [evt]);
    if |Elements(after)| <= c.userKeysCapacity {
      assert Elements(keys) <= Elements(after);
      SubsetSize(Elements(keys), Elements(after));
      NothingForgotten(c.userKeysCapacity, keys, key);
      KeyAddedIff(evts, key);
      IndexesInOffers(c, d, evt, chance, key);
      CountConcat(offers, Offers(c, d, evt, chance), key);
    }
  }

  /** t is a later state than one in which the history had seen this many events and offers. */
  ghost predicate StretchTo(c: Config, held: seq<string>, processed: nat, offered: nat, t: State, key: string) {
    && processed <= |t.h.processed| && offered <= |t.h.offered|
    && Stretch(c, held, t.h.processed[processed..], t.h.offered[offered..], t.d.addedKeys, key)
  }

  lemma EventExtendsStretch(c: Config, held: seq<string>, processed: nat, offered: nat, s: State, evt: Input, chance: Chance, key: string)
    requires 0 < c.userKeysCapacity && StretchTo(c, held, processed, offered, s, key)
    ensures StretchTo(c, held, processed, offered, Handle(c, s, SendEvent(evt), chance), key)
  {
    var t, offers := Handle(c, s, SendEvent(evt), chance), Offers(c, s.d, evt, chance);
    if s.d.disabled {
      SuffixAfterAppend(s.h.processed, [], processed);
      SuffixAfterAppend(s.h.offered, [], offered);
    } else {
      StretchStep(c, held, s.h.processed[processed..], s.h.offered[offered..], s.d, evt, chance, key);
      SuffixAfterAppend(s.h.processed, [evt], processed);
      SuffixAfterAppend(s.h.offered, offers, offered);
      assert t.d == Process(c, s.d, evt, chance);
      assert t.h.processed == s.h.processed + [evt] && t.h.offered == s.h.offered + offers;
    }
  }

  lemma SuffixAfterAppend<T>(a: seq<T>, b: seq<T>, n: nat)
    requires n <= |a|
    ensures (a + b)[n..] == a[n..] + b
    ensures b == [] ==> a + b == a
  {
  }

  /** What stretches are about. */
  predicate SameKeys(s: State, t: State) {
    t.d.addedKeys == s.d.addedKeys && t.h.processed == s.h.processed && t.h.offered == s.h.offered
  }

  lemma MessageExtendsStretch(c: Config, held: seq<string>, processed: nat, offered: nat, s: State, m: Message, chance: Chance, key: string)
    requires 0 < c.userKeysCapacity && StretchTo(c, held, processed, offered, s, key)
    ensures StretchTo(c, held, processed, offered, Handle(c, s, m, chance), key)
  {
    if m.SendEvent? {
      EventExtendsStretch(c, held, processed, offered, s, m.evt, chance, key);
    } else {
      assert SameKeys(s, Handle(c, s, m, chance));
    }
  }

  lemma FlushingLeavesKeys(c: Config, s: State, a: Action)
    requires Enabled(c, s, a) && (a.TakeResult? || a.FlushTick? || a.StatsTick? || a.ClearOutbox?)
    ensures SameKeys(s, Next(c, s, a))
  {
    match a
    case TakeResult =>
    case FlushTick =>
    case StatsTick(_) =>
    case ClearOutbox =>
  }

  lemma SendLeavesKeys(s: State)
    requires s.main.Flushing? || s.main.SendingDiagnostics?
    ensures SameKeys(s, AfterTrySend(s))
  {
  }

  lemma OthersLeaveKeys(c: Config, s: State, a: Action)
    requires Enabled(c, s, a) && !(a.Take? || a.HandOver? || a.KeysTick?)
    ensures SameKeys(s, Next(c, s, a))
  {
    if ByWorker(a) {
      WorkerLeavesMain(c, s, a);
    } else if a.TrySend? {
      SendLeavesKeys(s);
    } else if a.TakeResult? || a.FlushTick? || a.StatsTick? || a.ClearOutbox? {
      FlushingLeavesKeys(c, s, a);
    } else {
      assert a.Post? || a.StreamInitialized? || a.StartDiagnostics? || a.UndoAdd? || a.FinishWait?;
    }
  }

  lemma StepExtendsStretch(c: Config, held: seq<string>, processed: nat, offered: nat, s: State, a: Action, key: string)
    requires 0 < c.userKeysCapacity && StretchTo(c, held, processed, offered, s, key)
    requires Enabled(c, s, a) && !a.KeysTick?
    ensures StretchTo(c, held, processed, offered, Next(c, s, a), key)
  {
    match a
    case Take(chance) =>
      var t := s.(inbox := s.inbox[1..], h := s.h.(taken := s.h.taken + [s.inbox[0]]));
      MessageExtendsStretch(c, held, processed, offered, t, s.inbox[0], chance, key);
    case HandOver(m, chance) =>
      var t := s.(h := s.h.(posted := s.h.posted + [m], taken := s.h.taken + [m]));
      MessageExtendsStretch(c, held, processed, offered, t, m, chance, key);
    case _ => OthersLeaveKeys(c, s, a);
  }

  /** A run during which the cache is not reset. */
  ghost predicate RunWithoutReset(c: Config, s: State, acts: seq<Action>, t: State) {
    IsRun(c, s, acts, t) && forall i :: 0 <= i < |acts| ==> !acts[i].KeysTick?
  }

  lemma {:induction false} StretchAlong(c: Config, held: seq<string>, processed: nat, offered: nat, s: State, acts: seq<Action>, t: State, key: string)
    requires 0 < c.userKeysCapacity && StretchTo(c, held, processed, offered, s, key)
    requires RunWithoutReset(c, s, acts, t)
    ensures StretchTo(c, held, processed, offered, t, key)
    decreases |acts|
  {
    if acts != [] {
      assert !acts[0].KeysTick?;
      StepExtendsStretch(c, held, processed, offered, s, acts[0], key);
      StretchAlong(c, held, processed, offered, Next(c, s, acts[0]), acts[1..], t, key);
    }
  }

  /** Along any run of the whole system between two resets of the cache, with whatever flushes, ticks, results and
      worker steps in between: as long as no more distinct keys have come than the cache holds, the index
      events offered for a key are exactly those due, at most one. */
  lemma OneIndexEventPerKey(c: Config, s: State, acts: seq<Action>, t: State, key: string)
    requires RunWithoutReset(c, s, acts, t)
    requires 0 < c.userKeysCapacity && |Elements(t.d.addedKeys)| <= c.userKeysCapacity
    ensures |s.h.processed| <= |t.h.processed| && |s.h.offered| <= |t.h.offered|
    ensures t.d.addedKeys == s.d.addedKeys + KeysAdded(t.h.processed[|s.h.processed|..])
    ensures CountIndexesFor(t.h.offered[|s.h.offered|..], key)
         == IndexesDue(s.d.addedKeys, t.h.processed[|s.h.processed|..], key)
  {
    var held := s.d.addedKeys;
    assert held + [] == held;
    assert s.h.processed[|s.h.processed|..] == [] && s.h.offered[|s.h.offered|..] == [];
    StretchAlong(c, held, |s.h.processed|, |s.h.offered|, s, acts, t, key);
  }
}
