/** `ClocksModel`: the ordered collection of clocks. Entries are compared by
    identity, modelled as a fresh `ClockId` handed out at creation. The bulk
    operations act on digital clocks only and skip analog ones. */
module ClocksModel {
  import opened Wrappers
  import opened Seqs
  import opened ClockState
  import DigitalClockModel
  import AnalogClockModel

  type ClockId = nat

  datatype Entry = Entry(id: ClockId, clock: Clock)

  /** The list of clocks, in display order, and the next unused identity. */
  datatype Clocks = Clocks(entries: seq<Entry>, nextId: ClockId)

  function Ids(es: seq<Entry>): (r: seq<ClockId>)
    ensures |r| == |es| && forall i :: 0 <= i < |es| ==> r[i] == es[i].id
  {
    seq(|es|, i requires 0 <= i < |es| => es[i].id)
  }

  /** Identities are distinct and all below `nextId`. */
  predicate Wf(m: Clocks) {
    && (forall i :: 0 <= i < |m.entries| ==> m.entries[i].id < m.nextId)
    && (forall i, j :: 0 <= i < j < |m.entries| ==> m.entries[i].id != m.entries[j].id)
  }

  /** The collection a page session starts with. */
  function Empty(): (m: Clocks)
    ensures Wf(m) && |m.entries| == 0
  {
    Clocks([], 0)
  }

  /** Builds a clock of the requested kind from the current instant `now`
      and appends it. */
  function AddClock(m: Clocks, kind: ClockKind, now: TimeOfDay): (r: Clocks)
    ensures |r.entries| == |m.entries| + 1
    ensures r.entries[..|m.entries|] == m.entries
    ensures var e := r.entries[|m.entries|];
      && e.id == m.nextId && e.clock.kind == kind && !e.clock.lightIsOn
      && e.clock.editMode == Idle && TimeOf(e.clock) == now
    ensures Wf(m) ==> Wf(r)
  {
    var clock := if kind == Digital then DigitalClockModel.NewDefault(now) else AnalogClockModel.New(now);
    Clocks(m.entries + [Entry(m.nextId, clock)], m.nextId + 1)
  }

  /** Splices out the entry with identity `id` and reports it as disposed;
      a clock that is not in the collection changes nothing. */
  function RemoveClock(m: Clocks, id: ClockId): (r: (Clocks, Option<ClockId>))
    ensures id !in Ids(m.entries) ==> r == (m, None)
    ensures id in Ids(m.entries) ==> r.1 == Some(id) && r.0.nextId == m.nextId
    ensures id in Ids(m.entries) ==>
      exists i :: 0 <= i < |m.entries| && m.entries[i].id == id
        && r.0.entries == m.entries[..i] + m.entries[i + 1..]
    ensures Wf(m) ==> Wf(r.0) && id !in Ids(r.0.entries)
  {
    match FindIndex(Ids(m.entries), id)
    case None => (m, None)
    case Some(i) =>
      var r := Clocks(RemoveAt(m.entries, i), m.nextId);
      assert Wf(m) ==> id !in Ids(r.entries) by {
        if Wf(m) {
          forall k | 0 <= k < |r.entries|
            ensures r.entries[k].id != id
          {
            if k < i { assert r.entries[k] == m.entries[k]; }
            else { assert r.entries[k] == m.entries[k + 1]; }
          }
        }
      }
      (r, Some(m.entries[i].id))
  }

  /** The identities of the digital entries, in order. */
  function DigitalIds(es: seq<Entry>): seq<ClockId>
  {
    if |es| == 0 then []
    else (if es[0].clock.kind == Digital then [es[0].id] else []) + DigitalIds(es[1..])
  }

  /** The identities of the digital clocks whose transition under `op`
      notifies, in collection order. */
  function DigitalNotifiers(es: seq<Entry>, op: Clock -> Step): seq<ClockId>
  {
    if |es| == 0 then []
    else (if es[0].clock.kind == Digital && op(es[0].clock).notified then [es[0].id] else []) + DigitalNotifiers(es[1..], op)
  }

  /** `forEach` over the entries, applying `op` to every digital clock.
      Returns the new entries, the identities `op` was applied to, and
      those whose transition notified, both in order. */
  function ForEachDigital(es: seq<Entry>, op: Clock -> Step): (r: (seq<Entry>, seq<ClockId>, seq<ClockId>))
    ensures |r.0| == |es|
    ensures forall i :: 0 <= i < |es| ==> r.0[i].id == es[i].id
    ensures forall i :: 0 <= i < |es| ==>
      r.0[i].clock == (if es[i].clock.kind == Digital then op(es[i].clock).state else es[i].clock)
    ensures r.1 == DigitalIds(es)
    ensures r.2 == DigitalNotifiers(es, op)
    ensures forall id :: id in r.2 <==>
      exists i :: 0 <= i < |es| && es[i].id == id && es[i].clock.kind == Digital && op(es[i].clock).notified
    ensures (forall i :: 0 <= i < |es| && es[i].clock.kind == Digital ==> !op(es[i].clock).notified) ==> r.2 == []
    ensures (forall i :: 0 <= i < |es| && es[i].clock.kind == Digital ==> op(es[i].clock).notified) ==> r.2 == r.1
  {
    if |es| == 0 then ([], [], [])
    else
      var rest := ForEachDigital(es[1..], op);
      var e := es[0];
      if e.clock.kind == Digital then
        var s := op(e.clock);
        (
          [Entry(e.id, s.state)] + rest.0,
          [e.id] + rest.1,
          (if s.notified then [e.id] else []) + rest.2
        )
      else
        ([e] + rest.0, rest.1, rest.2)
  }

  /** Calls the digital `reset` on every digital clock. Its body is not part
      of this model, so it is the parameter `reset`. Returns the identities
      it was called on. */
  function ResetAllClocks(m: Clocks, reset: Clock -> Clock): (r: (Clocks, seq<ClockId>))
    ensures |r.0.entries| == |m.entries| && r.0.nextId == m.nextId
    ensures forall i :: 0 <= i < |m.entries| ==> r.0.entries[i].id == m.entries[i].id
    ensures forall i :: 0 <= i < |m.entries| ==>
      r.0.entries[i].clock == (if m.entries[i].clock.kind == Digital then reset(m.entries[i].clock) else m.entries[i].clock)
    ensures r.1 == DigitalIds(m.entries)
    ensures Wf(m) ==> Wf(r.0)
  {
    var f := ForEachDigital(m.entries, c => Step(reset(c), true));
    (Clocks(f.0, m.nextId), f.1)
  }

  /** Flips the light of every digital clock; each of them notifies. */
  function ToggleAllLights(m: Clocks): (r: (Clocks, seq<ClockId>))
    ensures |r.0.entries| == |m.entries| && r.0.nextId == m.nextId
    ensures forall i :: 0 <= i < |m.entries| ==> r.0.entries[i].id == m.entries[i].id
    ensures forall i :: 0 <= i < |m.entries| ==>
      var c, c' := m.entries[i].clock, r.0.entries[i].clock;
      if c.kind == Digital then c' == c.(lightIsOn := !c.lightIsOn) else c' == c
    ensures r.1 == DigitalIds(m.entries)
    ensures forall id :: id in r.1 <==>
      exists i :: 0 <= i < |m.entries| && m.entries[i].id == id && m.entries[i].clock.kind == Digital
    ensures Wf(m) ==> Wf(r.0)
  {
    var f := ForEachDigital(m.entries, DigitalClockModel.ToggleLightState);
    DigitalIdsMembers(m.entries);
    (Clocks(f.0, m.nextId), f.2)
  }

  lemma {:induction false} DigitalIdsMembers(es: seq<Entry>)
    ensures forall id :: id in DigitalIds(es) <==>
      exists i :: 0 <= i < |es| && es[i].id == id && es[i].clock.kind == Digital
  {
    if |es| > 0 {
      DigitalIdsMembers(es[1..]);
      forall id | id in DigitalIds(es[1..])
        ensures exists i :: 0 <= i < |es| && es[i].id == id && es[i].clock.kind == Digital
      {
        var j :| 0 <= j < |es[1..]| && es[1..][j].id == id && es[1..][j].clock.kind == Digital;
        assert es[j + 1] == es[1..][j];
      }
      forall i | 0 <= i < |es| && es[i].clock.kind == Digital
        ensures es[i].id in DigitalIds(es)
      {
        if i > 0 { assert es[1..][i - 1] == es[i]; }
      }
    }
  }

  /** Applying `toggleAllLights` twice restores every clock. */
  lemma ToggleAllLightsTwice(m: Clocks)
    ensures ToggleAllLights(ToggleAllLights(m).0).0 == m
  {
    var m2 := ToggleAllLights(ToggleAllLights(m).0).0;
    assert m2.entries == m.entries by {
      forall i | 0 <= i < |m.entries|
        ensures m2.entries[i] == m.entries[i]
      {
        assert m2.entries[i].id == m.entries[i].id;
      }
    }
  }

  /** Switches every digital light off; only those that were on notify. */
  function ResetAllLights(m: Clocks): (r: (Clocks, seq<ClockId>))
    ensures |r.0.entries| == |m.entries| && r.0.nextId == m.nextId
    ensures forall i :: 0 <= i < |m.entries| ==> r.0.entries[i].id == m.entries[i].id
    ensures forall i :: 0 <= i < |m.entries| ==>
      var c, c' := m.entries[i].clock, r.0.entries[i].clock;
      if c.kind == Digital then c' == c.(lightIsOn := false) else c' == c
    ensures forall id :: id in r.1 <==>
      exists i :: 0 <= i < |m.entries| && m.entries[i].id == id
        && m.entries[i].clock.kind == Digital && m.entries[i].clock.lightIsOn
    ensures (forall i :: 0 <= i < |m.entries| && m.entries[i].clock.kind == Digital ==> !m.entries[i].clock.lightIsOn) ==> r.1 == []
    ensures Wf(m) ==> Wf(r.0)
  {
    var f := ForEachDigital(m.entries, DigitalClockModel.ResetLightState);
    (Clocks(f.0, m.nextId), f.2)
  }

  /** After `resetAllLights` no digital clock is lit, and a second call is
      silent and changes nothing. */
  lemma ResetAllLightsSettles(m: Clocks)
    ensures forall i :: 0 <= i < |m.entries| && m.entries[i].clock.kind == Digital ==>
      !ResetAllLights(m).0.entries[i].clock.lightIsOn
    ensures ResetAllLights(ResetAllLights(m).0) == (ResetAllLights(m).0, [])
  {
    var m1 := ResetAllLights(m).0;
    var r2 := ResetAllLights(m1);
    assert r2.0.entries == m1.entries by {
      forall i | 0 <= i < |m1.entries|
        ensures r2.0.entries[i] == m1.entries[i]
      {
        assert r2.0.entries[i].id == m1.entries[i].id;
      }
    }
  }

}
