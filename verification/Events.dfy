/** The ring of selector events of src/adaptive_selector.cpp: 64 slots standing for a log
    that is never cut. */
module Events {
  import Arith

  const RING: nat := 64

  /** The part of an event that the caller supplies. */
  datatype Entry<F> = Entry(previous: nat, current: nat, candidate: nat, switched: bool, reason: string,
                            backend: string, ruleCandidate: nat, modelCandidate: nat, confidence: real, features: F)

  datatype Event<F> = NoEvent | Event(sequence: nat, entry: Entry<F>)

  ghost predicate Mirrors<F>(slots: seq<Event<F>>, log: seq<Event<F>>) {
    && |slots| == RING
    && (forall i :: 0 <= i < |log| ==> log[i].Event? && log[i].sequence == i + 1)
    && (forall i :: 0 <= i < |log| && |log| <= i + RING ==> slots[i % RING] == log[i])
  }

  /** A new event overwrites the oldest one only. */
  lemma MirrorsAfter<F>(slots: seq<Event<F>>, log: seq<Event<F>>, e: Entry<F>)
    requires Mirrors(slots, log)
    ensures Mirrors(slots[|log| % RING := Event(|log| + 1, e)], log + [Event(|log| + 1, e)])
  {
  }

  lemma SlotHolds<F>(slots: seq<Event<F>>, log: seq<Event<F>>, i: nat)
    requires Mirrors(slots, log) && i < |log| <= i + RING
    ensures |slots| == RING && slots[i % RING] == log[i] == Event(i + 1, log[i].entry)
  {
  }

  class EventRing<F> {
    const slots: array<Event<F>>
    var sequence: nat
    ghost var log: seq<Event<F>>

    ghost predicate Valid()
      reads this, slots
    {
      sequence == |log| && Mirrors(slots[..], log)
    }

    constructor ()
      ensures Valid() && fresh(slots) && log == []
    {
      slots := new Event<F>[RING](_ => NoEvent);
      sequence := 0;
      log := [];
    }

    /** `record_selector_event`. */
    method Record(e: Entry<F>)
      requires Valid()
      modifies this, slots
      ensures Valid() && log == old(log) + [Event(|old(log)| + 1, e)]
    {
      MirrorsAfter(slots[..], log, e);
      ghost var before := slots[..];
      sequence := sequence + 1;
      slots[(sequence - 1) % RING] := Event(sequence, e);
      log := log + [Event(sequence, e)];
      assert slots[..] == before[(sequence - 1) % RING := Event(sequence, e)];
    }

    /** `adaptive_selector_last_event`. */
    method LastEvent() returns (found: bool, e: Event<F>)
      requires Valid()
      ensures found <==> log != []
      ensures found ==> e == log[|log| - 1]
    {
      if sequence == 0 {
        return false, NoEvent;
      }
      e := slots[(sequence - 1) % RING];
      assert e == slots[..][(sequence - 1) % RING] && e == log[|log| - 1];
      found := e.sequence != 0;
    }

    /** The copy loop of the snapshot: events `first` on, in order. */
    method CopyLast(out: array<Event<F>>, count: nat)
      requires Valid() && count <= out.Length && count <= |log| && count <= RING && out != slots
      modifies out
      ensures Valid()
      ensures forall j :: 0 <= j < count ==> out[j] == log[|log| - count + j]
      ensures forall j :: count <= j < out.Length ==> out[j] == old(out[j])
    {
      hide Mirrors;
      var first := sequence - count + 1;
      var i := 0;
      while i < count
        invariant 0 <= i <= count
        invariant forall j :: 0 <= j < i ==> out[j] == log[|log| - count + j]
        invariant forall j :: i <= j < out.Length ==> out[j] == old(out[j])
      {
        var eventSeq := first + i;
        SlotHolds(slots[..], log, eventSeq - 1);
        out[i] := slots[(eventSeq - 1) % RING];
        i := i + 1;
      }
    }

    /** `adaptive_selector_events_snapshot`: the last min(total, 64, max) events, in order. */
    method Snapshot(out: array<Event<F>>, max: nat) returns (count: nat)
      requires Valid() && max <= out.Length && out != slots
      modifies out
      ensures Valid()
      ensures count == Arith.Min(Arith.Min(|log|, RING), max)
      ensures count <= out.Length && out[..count] == log[|log| - count..] && out[count..] == old(out[count..])
    {
      hide Mirrors;
      count := 0;
      if max == 0 || sequence == 0 {
        return;
      }
      var available := if sequence < RING then sequence else RING;
      count := if available < max then available else max;
      CopyLast(out, count);
    }

    /** The events of a snapshot carry consecutive sequence numbers up to the latest. */
    lemma SnapshotIsConsecutive(count: nat, i: nat)
      requires Valid() && i < count <= |log|
      ensures log[|log| - count..][i].Event? && log[|log| - count..][i].sequence == sequence - count + 1 + i
    {
    }
  }
}
