/** What one pass of the pipeline guarantees: the order and selection of the
    events each alarm receives, the pairing of processor and notifier calls,
    the snapshot handed to the notifier, the watermark, and when the alarm
    list is persisted. */
module OrchestratorProperties {
  import opened AlarmTypes
  import opened Collections
  import opened EventOrder
  import opened EventProcessing
  import opened EventNotification
  import opened Orchestration

  // ---------------------------------------------------------------------------
  // Shape of a trace.

  /** The processor calls of a trace, in order. */
  function ProcessCalls(calls: seq<Call>): (ps: seq<Call>)
    ensures |ps| <= |calls|
    ensures forall k :: 0 <= k < |ps| ==> ps[k].ProcessCall? && ps[k] in calls
    decreases |calls|
  {
    if calls == [] then []
    else
      var init := ProcessCalls(calls[..|calls| - 1]);
      var c := calls[|calls| - 1];
      assert forall k :: 0 <= k < |init| ==> init[k] in calls[..|calls| - 1];
      if c.ProcessCall? then init + [c] else init
  }

  /** How many notifier calls a trace holds. */
  function NotifyCount(calls: seq<Call>): (n: nat)
    ensures n <= |calls|
    decreases |calls|
  {
    if calls == [] then 0
    else NotifyCount(calls[..|calls| - 1]) + (if calls[|calls| - 1].NotifyCall? then 1 else 0)
  }

  /** `n` is the notifier call made for the processor call `p`: same alarm
      snapshot, plant and event, and the processor's result as the label. */
  predicate Notifies(p: Call, n: Call) {
    p.ProcessCall? && n.NotifyCall? && n.alarm == p.alarm && n.plant == p.plant
    && n.event == p.event && n.messageLabel == p.result
  }

  /** Every truthy processor call is followed at once by its notifier call, and
      every notifier call comes right after a truthy processor call: the
      notifier is called exactly once per truthy result and never otherwise. */
  predicate Paired(calls: seq<Call>) {
    (forall k :: 0 <= k < |calls| && calls[k].ProcessCall? && Truthy(calls[k].result) ==>
       k + 1 < |calls| && Notifies(calls[k], calls[k + 1]))
    && (forall k :: 0 <= k < |calls| && calls[k].NotifyCall? ==>
       0 < k && Notifies(calls[k - 1], calls[k]) && Truthy(calls[k - 1].result))
  }

  lemma PairedConcat(x: seq<Call>, y: seq<Call>)
    requires Paired(x) && Paired(y)
    ensures Paired(x + y)
  {
    var xy := x + y;
    forall k | 0 <= k < |xy| && xy[k].ProcessCall? && Truthy(xy[k].result)
      ensures k + 1 < |xy| && Notifies(xy[k], xy[k + 1])
    {
      if k < |x| {
        assert x[k] == xy[k];
        assert x[k + 1] == xy[k + 1];
      } else {
        assert y[k - |x|] == xy[k];
        assert y[k - |x| + 1] == xy[k + 1];
      }
    }
    forall k | 0 <= k < |xy| && xy[k].NotifyCall?
      ensures 0 < k && Notifies(xy[k - 1], xy[k]) && Truthy(xy[k - 1].result)
    {
      if k < |x| {
        assert x[k] == xy[k];
        assert x[k - 1] == xy[k - 1];
      } else {
        assert y[k - |x|] == xy[k];
        assert y[k - |x| - 1] == xy[k - 1];
      }
    }
  }

  /** One event: the processor call with its result, then a notifier call
      with the pre-event alarm exactly when the result is truthy. */
  lemma EventCallsShape(before: Alarm, plant: Plant, contacts: PlantContacts, event: Event, result: Value)
    ensures var calls := EventCalls(before, plant, contacts, event, result);
            |calls| == (if Truthy(result) then 2 else 1) && calls[0] == ProcessCall(before, plant, event, result) &&
            (Truthy(result) ==> calls[1] == NotifyCall(before, plant, contacts, event, result))
  {
  }

  lemma EventCallsPaired(before: Alarm, plant: Plant, contacts: PlantContacts, event: Event, result: Value)
    ensures Paired(EventCalls(before, plant, contacts, event, result))
    ensures ProcessCalls(EventCalls(before, plant, contacts, event, result)) == [ProcessCall(before, plant, event, result)]
    ensures forall c :: c in EventCalls(before, plant, contacts, event, result) ==> !c.PersistCall?
  {
    var calls := EventCalls(before, plant, contacts, event, result);
    assert calls[..1] == [ProcessCall(before, plant, event, result)];
    if Truthy(result) {
      assert calls[..|calls| - 1] == calls[..1];
    }
  }

  // ---------------------------------------------------------------------------
  // One alarm's walk over its events.

  /** `ps` are the processor calls of a walk over `events` that starts from
      `alarm` and ends with `final`: the events in the order given, each
      handed over with the alarm exactly as the previous event left it. */
  predicate Chain(dispatcher: Dispatcher, alarm: Alarm, plant: Plant, events: seq<Event>, ps: seq<Call>, final: Alarm) {
    && |ps| == |events|
    && (forall k :: 0 <= k < |ps| ==> ps[k].ProcessCall?)
    && (forall k :: 0 <= k < |ps| ==>
          ps[k] == ProcessCall(ps[k].alarm, plant, events[k], Process(dispatcher, ps[k].alarm, events[k]).result))
    && (forall k :: 0 <= k < |ps| - 1 ==> ps[k + 1].alarm == Process(dispatcher, ps[k].alarm, events[k]).alarm)
    && (events == [] ==> final == alarm)
    && (events != [] ==> ps[0].alarm == alarm && final == Process(dispatcher, ps[|ps| - 1].alarm, events[|events| - 1]).alarm)
  }

  lemma ChainExtend(dispatcher: Dispatcher, alarm: Alarm, plant: Plant, events: seq<Event>, ps: seq<Call>, final: Alarm, e: Event)
    requires Chain(dispatcher, alarm, plant, events, ps, final)
    ensures var out := Process(dispatcher, final, e);
            Chain(dispatcher, alarm, plant, events + [e], ps + [ProcessCall(final, plant, e, out.result)], out.alarm)
  {
    var out := Process(dispatcher, final, e);
    var ps' := ps + [ProcessCall(final, plant, e, out.result)];
    var events' := events + [e];
    assert forall k :: 0 <= k < |ps| ==> ps'[k] == ps[k] && events'[k] == events[k];
  }

  /** The processor receives the events in the order given, each with the alarm
      exactly as the previous event left it, and the walk ends with the alarm as
      the last event left it. */
  lemma {:induction false} SegmentChain(dispatcher: Dispatcher, alarm: Alarm, plant: Plant, contacts: PlantContacts, events: seq<Event>)
    ensures var seg := RunEvents(dispatcher, alarm, plant, contacts, events);
            Chain(dispatcher, alarm, plant, events, ProcessCalls(seg.calls), seg.alarm)
    decreases |events|
  {
    if events != [] {
      var init := events[..|events| - 1];
      var e := events[|events| - 1];
      assert init + [e] == events;
      var prev := RunEvents(dispatcher, alarm, plant, contacts, init);
      var seg := RunEvents(dispatcher, alarm, plant, contacts, events);
      SegmentChain(dispatcher, alarm, plant, contacts, init);
      SegmentStep(dispatcher, alarm, plant, contacts, events);
      ChainStep(dispatcher, alarm, plant, init, e, events, ProcessCalls(prev.calls), prev.alarm, ProcessCalls(seg.calls), seg.alarm);
    }
  }

  /** `ChainExtend` with the extended trace and alarm given by name. */
  lemma ChainStep(dispatcher: Dispatcher, alarm: Alarm, plant: Plant, init: seq<Event>, e: Event, events: seq<Event>,
                  before: seq<Call>, current: Alarm, ps: seq<Call>, final: Alarm)
    requires Chain(dispatcher, alarm, plant, init, before, current) && events == init + [e]
    requires ps == before + [ProcessCall(current, plant, e, Process(dispatcher, current, e).result)]
    requires final == Process(dispatcher, current, e).alarm
    ensures Chain(dispatcher, alarm, plant, events, ps, final)
  {
    ChainExtend(dispatcher, alarm, plant, init, before, current, e);
  }

  /** One more event adds one processor call, with the alarm as the walk so far left it. */
  lemma SegmentStep(dispatcher: Dispatcher, alarm: Alarm, plant: Plant, contacts: PlantContacts, events: seq<Event>)
    requires events != []
    ensures var prev := RunEvents(dispatcher, alarm, plant, contacts, events[..|events| - 1]);
            var e := events[|events| - 1];
            var out := Process(dispatcher, prev.alarm, e);
            var seg := RunEvents(dispatcher, alarm, plant, contacts, events);
            && seg.alarm == out.alarm
            && ProcessCalls(seg.calls) == ProcessCalls(prev.calls) + [ProcessCall(prev.alarm, plant, e, out.result)]
  {
    var prev := RunEvents(dispatcher, alarm, plant, contacts, events[..|events| - 1]);
    var e := events[|events| - 1];
    var out := Process(dispatcher, prev.alarm, e);
    var tail := EventCalls(prev.alarm, plant, contacts, e, out.result);
    EventCallsPaired(prev.alarm, plant, contacts, e, out.result);
    ProcessCallsConcat(prev.calls, tail);
  }

  lemma {:induction false} NotifyCountConcat(x: seq<Call>, y: seq<Call>)
    ensures NotifyCount(x + y) == NotifyCount(x) + NotifyCount(y)
    decreases |y|
  {
    if y == [] {
      assert x + y == x;
    } else {
      var init := y[..|y| - 1];
      NotifyCountConcat(x, init);
      assert (x + y)[..|x + y| - 1] == x + init;
    }
  }

  lemma {:induction false} ProcessCallsConcat(x: seq<Call>, y: seq<Call>)
    ensures ProcessCalls(x + y) == ProcessCalls(x) + ProcessCalls(y)
    decreases |y|
  {
    if y == [] {
      assert x + y == x;
    } else {
      var init := y[..|y| - 1];
      ProcessCallsConcat(x, init);
      assert (x + y)[..|x + y| - 1] == x + init;
    }
  }

  /** Within one alarm's walk the notifier calls pair up with the truthy results,
      and nothing is persisted. */
  lemma {:induction false} SegmentPaired(dispatcher: Dispatcher, alarm: Alarm, plant: Plant, contacts: PlantContacts, events: seq<Event>)
    ensures Paired(RunEvents(dispatcher, alarm, plant, contacts, events).calls)
    ensures forall k :: 0 <= k < |RunEvents(dispatcher, alarm, plant, contacts, events).calls| ==>
              !RunEvents(dispatcher, alarm, plant, contacts, events).calls[k].PersistCall?
    decreases |events|
  {
    if events != [] {
      var init := events[..|events| - 1];
      var e := events[|events| - 1];
      var prev := RunEvents(dispatcher, alarm, plant, contacts, init);
      var out := Process(dispatcher, prev.alarm, e);
      SegmentPaired(dispatcher, alarm, plant, contacts, init);
      EventCallsPaired(prev.alarm, plant, contacts, e, out.result);
      PairedConcat(prev.calls, EventCalls(prev.alarm, plant, contacts, e, out.result));
    }
  }

  /** The largest of `lo` and the timestamps of `events`. */
  function Latest(lo: int, events: seq<Event>): (t: int)
    ensures t >= lo && forall k :: 0 <= k < |events| ==> t >= events[k].timestamp
    ensures t == lo || exists k :: 0 <= k < |events| && t == events[k].timestamp
    decreases |events|
  {
    if events == [] then lo
    else
      var init := events[..|events| - 1];
      assert forall k :: 0 <= k < |init| ==> init[k] == events[k];
      Max(events[|events| - 1].timestamp, Latest(lo, init))
  }

  /** With a registered plugin that leaves the watermark and type alone, the
      walk ends with the watermark at the latest of its old value and the
      timestamps of the events: it never decreases. */
  lemma {:induction false} SegmentWatermark(dispatcher: Dispatcher, alarm: Alarm, plant: Plant, contacts: PlantContacts, events: seq<Event>)
    requires alarm.typeAlarm in dispatcher && KeepsWatermark(dispatcher[alarm.typeAlarm])
    ensures RunEvents(dispatcher, alarm, plant, contacts, events).alarm.lastEvent == Latest(alarm.lastEvent, events)
    ensures RunEvents(dispatcher, alarm, plant, contacts, events).alarm.typeAlarm == alarm.typeAlarm
    decreases |events|
  {
    if events != [] {
      var init := events[..|events| - 1];
      var prev := RunEvents(dispatcher, alarm, plant, contacts, init);
      SegmentWatermark(dispatcher, alarm, plant, contacts, init);
      ProcessRaisesWatermark(dispatcher, prev.alarm, events[|events| - 1]);
    }
  }

  /** An alarm whose type has no processor is handed every event, gets `None`
      back each time, stays as it was, and triggers no notification. */
  lemma {:induction false} SegmentUnregistered(dispatcher: Dispatcher, alarm: Alarm, plant: Plant, contacts: PlantContacts, events: seq<Event>)
    requires alarm.typeAlarm !in dispatcher
    ensures RunEvents(dispatcher, alarm, plant, contacts, events)
         == Segment(alarm, seq(|events|, k requires 0 <= k < |events| => ProcessCall(alarm, plant, events[k], Null)))
    decreases |events|
  {
    if events != [] {
      var init := events[..|events| - 1];
      SegmentUnregistered(dispatcher, alarm, plant, contacts, init);
      assert seq(|events|, k requires 0 <= k < |events| => ProcessCall(alarm, plant, events[k], Null))
          == seq(|init|, k requires 0 <= k < |init| => ProcessCall(alarm, plant, init[k], Null))
             + [ProcessCall(alarm, plant, events[|events| - 1], Null)];
    }
  }

  // ---------------------------------------------------------------------------
  // The loop over the alarms.

  /** An alarm the loop can handle: its plant, contacts and events entries exist. */
  predicate Ready(plants: map<string, Plant>, contacts: map<string, PlantContacts>, byName: map<string, seq<Event>>, a: Alarm) {
    a.plantName in plants && a.plantName in contacts && a.eventName in byName
  }

  /** The walk of one alarm over its events, on its own. */
  function SegmentOf(dispatcher: Dispatcher, plants: map<string, Plant>, contacts: map<string, PlantContacts>,
                     byName: map<string, seq<Event>>, a: Alarm): Segment
    requires Ready(plants, contacts, byName, a)
  {
    RunEvents(dispatcher, a, plants[a.plantName], contacts[a.plantName], byName[a.eventName])
  }

  /** The calls of the alarms' walks, one alarm after the other in load order. */
  function AllCalls(dispatcher: Dispatcher, plants: map<string, Plant>, contacts: map<string, PlantContacts>,
                    byName: map<string, seq<Event>>, alarms: seq<Alarm>): seq<Call>
    requires forall i :: 0 <= i < |alarms| ==> Ready(plants, contacts, byName, alarms[i])
    decreases |alarms|
  {
    if alarms == [] then []
    else
      AllCalls(dispatcher, plants, contacts, byName, alarms[..|alarms| - 1])
      + SegmentOf(dispatcher, plants, contacts, byName, alarms[|alarms| - 1]).calls
  }

  /** The loop stops early exactly at the first alarm that is not ready. */
  lemma {:induction false} RunAlarmsStop(dispatcher: Dispatcher, plants: map<string, Plant>, contacts: map<string, PlantContacts>,
                                         byName: map<string, seq<Event>>, alarms: seq<Alarm>)
    ensures var st := RunAlarms(dispatcher, plants, contacts, byName, alarms);
            && (st.aborted <==> |st.done| < |alarms|)
            && (st.aborted ==> !Ready(plants, contacts, byName, alarms[|st.done|]))
    decreases |alarms|
  {
    if alarms != [] {
      var init := alarms[..|alarms| - 1];
      var prev := RunAlarms(dispatcher, plants, contacts, byName, init);
      RunAlarmsStop(dispatcher, plants, contacts, byName, init);
      if prev.aborted {
        assert alarms[|prev.done|] == init[|prev.done|];
      }
    }
  }

  /** Each alarm the loop handled was ready and ends as its own walk, from its
      loaded state, left it. */
  lemma {:induction false} RunAlarmsDone(dispatcher: Dispatcher, plants: map<string, Plant>, contacts: map<string, PlantContacts>,
                                         byName: map<string, seq<Event>>, alarms: seq<Alarm>, i: nat)
    requires i < |RunAlarms(dispatcher, plants, contacts, byName, alarms).done|
    ensures Ready(plants, contacts, byName, alarms[i])
    ensures RunAlarms(dispatcher, plants, contacts, byName, alarms).done[i]
            == SegmentOf(dispatcher, plants, contacts, byName, alarms[i]).alarm
    decreases |alarms|
  {
    var init := alarms[..|alarms| - 1];
    var prev := RunAlarms(dispatcher, plants, contacts, byName, init);
    var st := RunAlarms(dispatcher, plants, contacts, byName, alarms);
    if i < |prev.done| {
      RunAlarmsDone(dispatcher, plants, contacts, byName, init, i);
      assert alarms[i] == init[i];
      assert st.done[i] == prev.done[i];
    } else {
      assert !prev.aborted && |prev.done| == |init|;
      assert alarms[i] == alarms[|alarms| - 1];
    }
  }

  /** Every alarm the loop handled was ready. */
  lemma RunAlarmsReady(dispatcher: Dispatcher, plants: map<string, Plant>, contacts: map<string, PlantContacts>,
                       byName: map<string, seq<Event>>, alarms: seq<Alarm>)
    ensures forall i :: 0 <= i < |RunAlarms(dispatcher, plants, contacts, byName, alarms).done| ==>
              Ready(plants, contacts, byName, alarms[i])
  {
    forall i | 0 <= i < |RunAlarms(dispatcher, plants, contacts, byName, alarms).done|
      ensures Ready(plants, contacts, byName, alarms[i])
    {
      RunAlarmsDone(dispatcher, plants, contacts, byName, alarms, i);
    }
  }

  /** The loop's calls are the walks of the alarms it handled, one after the
      other in load order. */
  lemma {:induction false} RunAlarmsCalls(dispatcher: Dispatcher, plants: map<string, Plant>, contacts: map<string, PlantContacts>,
                                          byName: map<string, seq<Event>>, alarms: seq<Alarm>)
    ensures var st := RunAlarms(dispatcher, plants, contacts, byName, alarms);
            && (forall i :: 0 <= i < |st.done| ==> Ready(plants, contacts, byName, alarms[i]))
            && st.calls == AllCalls(dispatcher, plants, contacts, byName, alarms[..|st.done|])
    decreases |alarms|
  {
    RunAlarmsReady(dispatcher, plants, contacts, byName, alarms);
    if alarms != [] {
      var init := alarms[..|alarms| - 1];
      var a := alarms[|alarms| - 1];
      var prev := RunAlarms(dispatcher, plants, contacts, byName, init);
      RunAlarmsCalls(dispatcher, plants, contacts, byName, init);
      var n := |prev.done|;
      assert init[..n] == alarms[..n];
      if !prev.aborted && Ready(plants, contacts, byName, a) {
        assert alarms[..|alarms|] == alarms;
        assert alarms[..|alarms| - 1] == init[..n];
      }
    }
  }

  /** The loop handles the alarms in load order, each from its loaded state and
      independently of the others, until the first alarm that is not ready,
      where it stops. */
  lemma RunAlarmsOutcome(dispatcher: Dispatcher, plants: map<string, Plant>, contacts: map<string, PlantContacts>,
                         byName: map<string, seq<Event>>, alarms: seq<Alarm>)
    ensures var st := RunAlarms(dispatcher, plants, contacts, byName, alarms);
            var n := |st.done|;
            && (forall i :: 0 <= i < n ==>
                  (Ready(plants, contacts, byName, alarms[i])
                   && st.done[i] == SegmentOf(dispatcher, plants, contacts, byName, alarms[i]).alarm))
            && st.calls == AllCalls(dispatcher, plants, contacts, byName, alarms[..n])
            && (st.aborted <==> n < |alarms|)
            && (st.aborted ==> !Ready(plants, contacts, byName, alarms[n]))
  {
    RunAlarmsStop(dispatcher, plants, contacts, byName, alarms);
    RunAlarmsCalls(dispatcher, plants, contacts, byName, alarms);
    forall i | 0 <= i < |RunAlarms(dispatcher, plants, contacts, byName, alarms).done|
      ensures RunAlarms(dispatcher, plants, contacts, byName, alarms).done[i]
              == SegmentOf(dispatcher, plants, contacts, byName, alarms[i]).alarm
    {
      RunAlarmsDone(dispatcher, plants, contacts, byName, alarms, i);
    }
  }

  lemma {:induction false} AllCallsShape(dispatcher: Dispatcher, plants: map<string, Plant>, contacts: map<string, PlantContacts>,
                                         byName: map<string, seq<Event>>, alarms: seq<Alarm>)
    requires forall i :: 0 <= i < |alarms| ==> Ready(plants, contacts, byName, alarms[i])
    ensures Paired(AllCalls(dispatcher, plants, contacts, byName, alarms))
    ensures forall k :: 0 <= k < |AllCalls(dispatcher, plants, contacts, byName, alarms)| ==>
              !AllCalls(dispatcher, plants, contacts, byName, alarms)[k].PersistCall?
    decreases |alarms|
  {
    if alarms != [] {
      var init := alarms[..|alarms| - 1];
      var a := alarms[|alarms| - 1];
      AllCallsShape(dispatcher, plants, contacts, byName, init);
      SegmentPaired(dispatcher, a, plants[a.plantName], contacts[a.plantName], byName[a.eventName]);
      PairedConcat(AllCalls(dispatcher, plants, contacts, byName, init), SegmentOf(dispatcher, plants, contacts, byName, a).calls);
    }
  }

  // ---------------------------------------------------------------------------
  // The events each alarm is walked over.

  /** The events loaded for `a`, in the order `execute` walks them. */
  function Walked(events: seq<Event>, a: Alarm): seq<Event> {
    Filter(SortByTimestamp(events), Owns(a))
  }

  /** The walk goes over exactly the events whose event name and plant both
      match the alarm's, each as often as it was loaded, in non-decreasing
      timestamp order, and events with equal timestamps in their load order. */
  lemma WalkedEvents(events: seq<Event>, a: Alarm)
    ensures Sorted(Walked(events, a))
    ensures forall k :: 0 <= k < |Walked(events, a)| ==>
              Walked(events, a)[k].eventName == a.eventName && Walked(events, a)[k].plantName == a.plantName
    ensures multiset(Walked(events, a)) == multiset(Filter(events, Owns(a)))
    ensures forall t :: Filter(Walked(events, a), AtTime(t)) == Filter(Filter(events, Owns(a)), AtTime(t))
  {
    FilterSort(events, Owns(a));
    forall t ensures Filter(Walked(events, a), AtTime(t)) == Filter(Filter(events, Owns(a)), AtTime(t)) {
      SortIsStable(Filter(events, Owns(a)), t);
    }
  }

  /** The last alarm, from `i` on, with the event name of alarm `i`. */
  lemma LastWithName(alarms: seq<Alarm>, i: nat) returns (j: nat)
    requires i < |alarms|
    ensures i <= j < |alarms| && alarms[j].eventName == alarms[i].eventName && IsLastWithKey(alarms, EventNameOf, j)
    decreases |alarms| - i
  {
    if IsLastWithKey(alarms, EventNameOf, i) {
      j := i;
    } else {
      var k :| i < k < |alarms| && EventNameOf(alarms[k]) == EventNameOf(alarms[i]);
      j := LastWithName(alarms, k);
    }
  }

  /** Alarm `i` is walked over the events of the LAST alarm `j` that shares its
      event name, whatever plant that alarm belongs to. */
  lemma EventsHandedOver(data: SystemData, i: nat) returns (j: nat)
    requires i < |data.alarms|
    ensures i <= j < |data.alarms| && data.alarms[j].eventName == data.alarms[i].eventName
    ensures IsLastWithKey(data.alarms, EventNameOf, j)
    ensures var byName := IndexEvents(data.alarms, SortByTimestamp(data.events));
            data.alarms[i].eventName in byName && byName[data.alarms[i].eventName] == Walked(data.events, data.alarms[j])
  {
    j := LastWithName(data.alarms, i);
    IndexLastWins(data.alarms, EventNameOf, EventsOf(SortByTimestamp(data.events)), j);
  }

  /** When no two alarms share an event name, each alarm gets its own events. */
  lemma EventsOfUniqueAlarm(data: SystemData, i: nat)
    requires i < |data.alarms| && UniqueEventNames(data.alarms)
    ensures var byName := IndexEvents(data.alarms, SortByTimestamp(data.events));
            data.alarms[i].eventName in byName && byName[data.alarms[i].eventName] == Walked(data.events, data.alarms[i])
  {
    var j := EventsHandedOver(data, i);
  }

  /** Two alarms of different plants share the event name "E"; the only event
      belongs to the first, yet the first is walked over no event at all,
      because the second alarm's (empty) list replaced it in the index. */
  lemma SharedEventNameOverwrites()
    ensures var a1 := Alarm("P1", "E", "1", None, 0, false, "T");
            var a2 := Alarm("P2", "E", "2", None, 0, false, "T");
            var e := Event("P1", 5, "E", None, None);
            && Owns(a1)(e)
            && Walked([e], a1) == [e]
            && IndexEvents([a1, a2], SortByTimestamp([e]))["E"] == []
  {
    var a1 := Alarm("P1", "E", "1", None, 0, false, "T");
    var a2 := Alarm("P2", "E", "2", None, 0, false, "T");
    var e := Event("P1", 5, "E", None, None);
    assert SortByTimestamp([e]) == [e];
    assert [a1, a2][..1] == [a1];
    assert Filter([e], Owns(a2)) == [];
  }

  // ---------------------------------------------------------------------------
  // The whole pass.

  predicate HasPlant(data: SystemData, name: string) {
    exists k :: 0 <= k < |data.plants| && data.plants[k].plantName == name
  }

  predicate HasContacts(data: SystemData, name: string) {
    exists k :: 0 <= k < |data.contacts| && data.contacts[k].plantName == name
  }

  /** Every loaded alarm has a plant record and a contacts record. */
  predicate Complete(data: SystemData) {
    forall i :: 0 <= i < |data.alarms| ==> HasPlant(data, data.alarms[i].plantName) && HasContacts(data, data.alarms[i].plantName)
  }

  function ByName(data: SystemData): map<string, seq<Event>> {
    IndexEvents(data.alarms, SortByTimestamp(data.events))
  }

  /** An alarm is ready exactly when the plant and contacts records exist;
      its events entry always does. */
  lemma ReadyIffRecords(data: SystemData, a: Alarm)
    requires a in data.alarms
    ensures Ready(IndexPlants(data.plants), IndexContacts(data.contacts), ByName(data), a)
        <==> HasPlant(data, a.plantName) && HasContacts(data, a.plantName)
  {
    var i :| 0 <= i < |data.alarms| && data.alarms[i] == a;
    assert EventNameOf(data.alarms[i]) in ByName(data);
    if HasPlant(data, a.plantName) {
      var k :| 0 <= k < |data.plants| && data.plants[k].plantName == a.plantName;
      assert PlantNameOf(data.plants[k]) in IndexPlants(data.plants);
    }
    if HasContacts(data, a.plantName) {
      var k :| 0 <= k < |data.contacts| && data.contacts[k].plantName == a.plantName;
      assert ContactsPlantOf(data.contacts[k]) in IndexContacts(data.contacts);
    }
  }

  /** Every alarm is ready. */
  predicate AllReady(plants: map<string, Plant>, contacts: map<string, PlantContacts>,
                     byName: map<string, seq<Event>>, alarms: seq<Alarm>) {
    forall i :: 0 <= i < |alarms| ==> Ready(plants, contacts, byName, alarms[i])
  }

  /** The loop runs to the end exactly when every alarm is ready. */
  lemma RunAlarmsCompletes(dispatcher: Dispatcher, plants: map<string, Plant>, contacts: map<string, PlantContacts>,
                           byName: map<string, seq<Event>>, alarms: seq<Alarm>)
    ensures !RunAlarms(dispatcher, plants, contacts, byName, alarms).aborted <==> AllReady(plants, contacts, byName, alarms)
  {
    var st := RunAlarms(dispatcher, plants, contacts, byName, alarms);
    RunAlarmsStop(dispatcher, plants, contacts, byName, alarms);
    if !st.aborted {
      RunAlarmsReady(dispatcher, plants, contacts, byName, alarms);
    }
  }

  /** The calls of a pass: the walks of the alarms handled, in load order, then
      the persist call, which comes exactly when every alarm was ready. */
  lemma PassOverCalls(dispatcher: Dispatcher, plants: map<string, Plant>, contacts: map<string, PlantContacts>,
                      byName: map<string, seq<Event>>, alarms: seq<Alarm>)
    ensures var st := RunAlarms(dispatcher, plants, contacts, byName, alarms);
            var r := PassOver(dispatcher, plants, contacts, byName, alarms);
            && (forall i :: 0 <= i < |st.done| ==> Ready(plants, contacts, byName, alarms[i]))
            && (r.persisted <==> AllReady(plants, contacts, byName, alarms))
            && r.calls == AllCalls(dispatcher, plants, contacts, byName, alarms[..|st.done|])
                          + (if r.persisted then [PersistCall(r.alarms)] else [])
  {
    RunAlarmsCalls(dispatcher, plants, contacts, byName, alarms);
    RunAlarmsCompletes(dispatcher, plants, contacts, byName, alarms);
  }

  /** In a pass, every notifier call follows its processor call, and the
      persist call is the last call if it is made at all. */
  lemma PassOverShape(dispatcher: Dispatcher, plants: map<string, Plant>, contacts: map<string, PlantContacts>,
                      byName: map<string, seq<Event>>, alarms: seq<Alarm>)
    ensures var r := PassOver(dispatcher, plants, contacts, byName, alarms);
            && Paired(r.calls)
            && (r.persisted ==> |r.calls| > 0 && r.calls[|r.calls| - 1] == PersistCall(r.alarms))
            && (forall k :: 0 <= k < |r.calls| && (r.persisted ==> k < |r.calls| - 1) ==> !r.calls[k].PersistCall?)
  {
    var st := RunAlarms(dispatcher, plants, contacts, byName, alarms);
    var r := PassOver(dispatcher, plants, contacts, byName, alarms);
    PassOverCalls(dispatcher, plants, contacts, byName, alarms);
    var walks := AllCalls(dispatcher, plants, contacts, byName, alarms[..|st.done|]);
    AllCallsShape(dispatcher, plants, contacts, byName, alarms[..|st.done|]);
    if r.persisted {
      PairedConcat(walks, [PersistCall(r.alarms)]);
    }
  }

  /** When every alarm is ready, the pass persists each alarm as its own walk
      left it. */
  lemma PassOverFinal(dispatcher: Dispatcher, plants: map<string, Plant>, contacts: map<string, PlantContacts>,
                      byName: map<string, seq<Event>>, alarms: seq<Alarm>)
    requires AllReady(plants, contacts, byName, alarms)
    ensures var r := PassOver(dispatcher, plants, contacts, byName, alarms);
            && r.persisted
            && forall i :: 0 <= i < |alarms| ==> r.alarms[i] == SegmentOf(dispatcher, plants, contacts, byName, alarms[i]).alarm
  {
    var st := RunAlarms(dispatcher, plants, contacts, byName, alarms);
    RunAlarmsCompletes(dispatcher, plants, contacts, byName, alarms);
    assert PassOver(dispatcher, plants, contacts, byName, alarms).alarms == st.done by {
      assert alarms[|st.done|..] == [];
    }
    forall i | 0 <= i < |alarms|
      ensures st.done[i] == SegmentOf(dispatcher, plants, contacts, byName, alarms[i]).alarm
    {
      RunAlarmsDone(dispatcher, plants, contacts, byName, alarms, i);
    }
  }

  /** When no alarm has events, the processor and the notifier are never
      called and the alarms end as loaded: if every alarm is ready the only
      call is the persist, otherwise the KeyError leaves no call at all. */
  lemma PassOverWithoutEvents(dispatcher: Dispatcher, plants: map<string, Plant>, contacts: map<string, PlantContacts>,
                              byName: map<string, seq<Event>>, alarms: seq<Alarm>)
    requires forall i :: 0 <= i < |alarms| ==> alarms[i].eventName in byName && byName[alarms[i].eventName] == []
    ensures var ready := AllReady(plants, contacts, byName, alarms);
            PassOver(dispatcher, plants, contacts, byName, alarms)
            == PassResult(alarms, if ready then [PersistCall(alarms)] else [], ready)
  {
    var st := RunAlarms(dispatcher, plants, contacts, byName, alarms);
    var n := |st.done|;
    var r := PassOver(dispatcher, plants, contacts, byName, alarms);
    assert r.alarms == alarms by {
      RunAlarmsUnchanged(dispatcher, plants, contacts, byName, alarms);
    }
    assert AllCalls(dispatcher, plants, contacts, byName, alarms[..n]) == [] by {
      RunAlarmsOutcome(dispatcher, plants, contacts, byName, alarms);
      assert forall i :: 0 <= i < n ==> alarms[..n][i] == alarms[i];
      NoEventsNoCalls(dispatcher, plants, contacts, byName, alarms[..n]);
    }
    PassOverCalls(dispatcher, plants, contacts, byName, alarms);
  }

  /** With no events for any alarm, the loop leaves every alarm as loaded. */
  lemma RunAlarmsUnchanged(dispatcher: Dispatcher, plants: map<string, Plant>, contacts: map<string, PlantContacts>,
                           byName: map<string, seq<Event>>, alarms: seq<Alarm>)
    requires forall i :: 0 <= i < |alarms| ==> alarms[i].eventName in byName && byName[alarms[i].eventName] == []
    ensures var st := RunAlarms(dispatcher, plants, contacts, byName, alarms);
            st.done + alarms[|st.done|..] == alarms
  {
    var st := RunAlarms(dispatcher, plants, contacts, byName, alarms);
    var n := |st.done|;
    forall i | 0 <= i < n
      ensures st.done[i] == alarms[i]
    {
      RunAlarmsDone(dispatcher, plants, contacts, byName, alarms, i);
    }
    assert st.done + alarms[n..] == alarms by {
      assert alarms == alarms[..n] + alarms[n..];
    }
  }

  /** A pass over loaded data is the loop over its indexes. */
  lemma PassIsPassOver(dispatcher: Dispatcher, data: SystemData)
    ensures Pass(dispatcher, data)
         == PassOver(dispatcher, IndexPlants(data.plants), IndexContacts(data.contacts), ByName(data), data.alarms)
  {
  }

  /** Every alarm of the loaded data is ready exactly when every alarm has its
      plant and contacts records. */
  lemma ReadyIffComplete(data: SystemData)
    ensures AllReady(IndexPlants(data.plants), IndexContacts(data.contacts), ByName(data), data.alarms) <==> Complete(data)
  {
    forall i | 0 <= i < |data.alarms|
      ensures Ready(IndexPlants(data.plants), IndexContacts(data.contacts), ByName(data), data.alarms[i])
          <==> HasPlant(data, data.alarms[i].plantName) && HasContacts(data, data.alarms[i].plantName)
    {
      ReadyIffRecords(data, data.alarms[i]);
    }
  }

  /** The alarm list is persisted exactly when every alarm has its plant and
      contacts records, and then exactly once, as the last call; otherwise a
      KeyError ends the pass and nothing is persisted. */
  lemma PassPersistence(dispatcher: Dispatcher, data: SystemData)
    ensures var r := Pass(dispatcher, data);
            && (r.persisted <==> Complete(data))
            && (r.persisted ==> |r.calls| > 0 && r.calls[|r.calls| - 1] == PersistCall(r.alarms))
            && (forall k :: 0 <= k < |r.calls| && (r.persisted ==> k < |r.calls| - 1) ==> !r.calls[k].PersistCall?)
  {
    var plants, contacts, byName := IndexPlants(data.plants), IndexContacts(data.contacts), ByName(data);
    PassIsPassOver(dispatcher, data);
    PassOverShape(dispatcher, plants, contacts, byName, data.alarms);
    PassOverCalls(dispatcher, plants, contacts, byName, data.alarms);
    ReadyIffComplete(data);
  }

  /** In a persisted pass, each alarm is persisted as its own walk left it. */
  lemma PassFinalAlarms(dispatcher: Dispatcher, data: SystemData)
    requires Complete(data)
    ensures forall i :: 0 <= i < |data.alarms| ==>
              Ready(IndexPlants(data.plants), IndexContacts(data.contacts), ByName(data), data.alarms[i])
              && Pass(dispatcher, data).alarms[i]
                 == SegmentOf(dispatcher, IndexPlants(data.plants), IndexContacts(data.contacts), ByName(data), data.alarms[i]).alarm
  {
    var plants, contacts, byName := IndexPlants(data.plants), IndexContacts(data.contacts), ByName(data);
    PassIsPassOver(dispatcher, data);
    ReadyIffComplete(data);
    PassOverFinal(dispatcher, plants, contacts, byName, data.alarms);
  }

  /** The notifier is called exactly once per truthy result, right after it,
      with the alarm as it was before that event. */
  lemma PassPaired(dispatcher: Dispatcher, data: SystemData)
    ensures Paired(Pass(dispatcher, data).calls)
  {
    PassIsPassOver(dispatcher, data);
    PassOverShape(dispatcher, IndexPlants(data.plants), IndexContacts(data.contacts), ByName(data), data.alarms);
  }

  /** With no events loaded, the processor and the notifier are never called
      and the alarms end as loaded: with complete records they are persisted
      unchanged, otherwise the KeyError leaves no call at all. */
  lemma PassWithoutEvents(dispatcher: Dispatcher, data: SystemData)
    requires data.events == []
    ensures Pass(dispatcher, data)
         == PassResult(data.alarms, if Complete(data) then [PersistCall(data.alarms)] else [], Complete(data))
  {
    var plants, contacts, byName := IndexPlants(data.plants), IndexContacts(data.contacts), ByName(data);
    PassIsPassOver(dispatcher, data);
    ReadyIffComplete(data);
    forall i | 0 <= i < |data.alarms|
      ensures data.alarms[i].eventName in byName && byName[data.alarms[i].eventName] == []
    {
      var j := EventsHandedOver(data, i);
    }
    PassOverWithoutEvents(dispatcher, plants, contacts, byName, data.alarms);
  }

  lemma {:induction false} NoEventsNoCalls(dispatcher: Dispatcher, plants: map<string, Plant>, contacts: map<string, PlantContacts>,
                                           byName: map<string, seq<Event>>, alarms: seq<Alarm>)
    requires forall i :: 0 <= i < |alarms| ==> Ready(plants, contacts, byName, alarms[i]) && byName[alarms[i].eventName] == []
    ensures AllCalls(dispatcher, plants, contacts, byName, alarms) == []
    decreases |alarms|
  {
    if alarms != [] {
      NoEventsNoCalls(dispatcher, plants, contacts, byName, alarms[..|alarms| - 1]);
    }
  }

  /** In a persisted pass, with a processor that leaves watermark and type
      alone and no other alarm sharing the event name, an alarm's watermark
      ends at least at its old value and at the timestamp of each of its
      events, and equals one of them. An alarm with no processor for its
      type is persisted as loaded. */
  lemma PassWatermark(dispatcher: Dispatcher, data: SystemData, i: nat)
    requires i < |data.alarms| && Complete(data) && UniqueEventNames(data.alarms)
    ensures var a := data.alarms[i];
            var final := Pass(dispatcher, data).alarms[i];
            && (a.typeAlarm !in dispatcher ==> final == a)
            && (a.typeAlarm in dispatcher && KeepsWatermark(dispatcher[a.typeAlarm]) ==>
                  && final.lastEvent == Latest(a.lastEvent, Walked(data.events, a))
                  && final.lastEvent >= a.lastEvent
                  && (forall k :: 0 <= k < |data.events| && Owns(a)(data.events[k]) ==> final.lastEvent >= data.events[k].timestamp))
  {
    var a := data.alarms[i];
    var plants, contacts, byName := IndexPlants(data.plants), IndexContacts(data.contacts), ByName(data);
    var evs := Walked(data.events, a);
    ReadyIffRecords(data, a);
    assert Pass(dispatcher, data).alarms[i] == RunEvents(dispatcher, a, plants[a.plantName], contacts[a.plantName], evs).alarm by {
      PassFinalAlarms(dispatcher, data);
      EventsOfUniqueAlarm(data, i);
    }
    if a.typeAlarm !in dispatcher {
      SegmentUnregistered(dispatcher, a, plants[a.plantName], contacts[a.plantName], evs);
    } else if KeepsWatermark(dispatcher[a.typeAlarm]) {
      SegmentWatermark(dispatcher, a, plants[a.plantName], contacts[a.plantName], evs);
      LatestCoversOwned(data.events, a);
    }
  }

  /** The latest time over an alarm's walked events covers every loaded event
      the alarm owns. */
  lemma LatestCoversOwned(events: seq<Event>, a: Alarm)
    ensures forall k :: 0 <= k < |events| && Owns(a)(events[k]) ==> Latest(a.lastEvent, Walked(events, a)) >= events[k].timestamp
  {
    var evs := Walked(events, a);
    WalkedEvents(events, a);
    forall k | 0 <= k < |events| && Owns(a)(events[k])
      ensures Latest(a.lastEvent, evs) >= events[k].timestamp
    {
      FilterCounts(events, Owns(a), events[k]);
      assert events[k] in multiset(evs);
    }
  }

  /** The events of a trace's processor calls, in order. */
  function ProcessedEvents(calls: seq<Call>): seq<Event> {
    var ps := ProcessCalls(calls);
    seq(|ps|, k requires 0 <= k < |ps| => ps[k].event)
  }

  /** The alarms' event lists one after the other, in load order. */
  function Visits(byName: map<string, seq<Event>>, alarms: seq<Alarm>): seq<Event>
    requires forall i :: 0 <= i < |alarms| ==> alarms[i].eventName in byName
    decreases |alarms|
  {
    if alarms == [] then []
    else Visits(byName, alarms[..|alarms| - 1]) + byName[alarms[|alarms| - 1].eventName]
  }

  lemma ProcessedEventsConcat(x: seq<Call>, y: seq<Call>)
    ensures ProcessedEvents(x + y) == ProcessedEvents(x) + ProcessedEvents(y)
  {
    ProcessCallsConcat(x, y);
  }

  /** A walk makes exactly one processor call per event, at most one notifier
      call per event, and no other call. */
  lemma {:induction false} RunEventsCallCount(dispatcher: Dispatcher, alarm: Alarm, plant: Plant, contacts: PlantContacts, events: seq<Event>)
    ensures var calls := RunEvents(dispatcher, alarm, plant, contacts, events).calls;
            |ProcessCalls(calls)| == |events| && NotifyCount(calls) <= |events| &&
            |ProcessCalls(calls)| + NotifyCount(calls) == |calls|
    decreases |events|
  {
    if events != [] {
      var prev := RunEvents(dispatcher, alarm, plant, contacts, events[..|events| - 1]);
      var e := events[|events| - 1];
      var out := Process(dispatcher, prev.alarm, e);
      var tail := EventCalls(prev.alarm, plant, contacts, e, out.result);
      assert RunEvents(dispatcher, alarm, plant, contacts, events).calls == prev.calls + tail;
      RunEventsCallCount(dispatcher, alarm, plant, contacts, events[..|events| - 1]);
      EventCallsCounts(prev.alarm, plant, contacts, e, out.result);
      ProcessCallsConcat(prev.calls, tail);
      NotifyCountConcat(prev.calls, tail);
    }
  }

  /** One event's calls: one processor call, and one notifier call or none. */
  lemma EventCallsCounts(before: Alarm, plant: Plant, contacts: PlantContacts, event: Event, result: Value)
    ensures var calls := EventCalls(before, plant, contacts, event, result);
            |ProcessCalls(calls)| == 1 && NotifyCount(calls) == |calls| - 1 <= 1
  {
    var calls := EventCalls(before, plant, contacts, event, result);
    EventCallsPaired(before, plant, contacts, event, result);
    assert calls[..1] == [calls[0]];
    if Truthy(result) {
      assert calls[..|calls| - 1] == calls[..1];
    }
  }

  /** One alarm's walk hands the processor exactly its events, in order. */
  lemma SegmentProcessed(dispatcher: Dispatcher, alarm: Alarm, plant: Plant, contacts: PlantContacts, events: seq<Event>)
    ensures ProcessedEvents(RunEvents(dispatcher, alarm, plant, contacts, events).calls) == events
  {
    SegmentChain(dispatcher, alarm, plant, contacts, events);
  }

  /** The processor is handed the alarms' event lists in alarm load order,
      each list in its own order. */
  lemma {:induction false} VisitOrder(dispatcher: Dispatcher, plants: map<string, Plant>, contacts: map<string, PlantContacts>,
                                      byName: map<string, seq<Event>>, alarms: seq<Alarm>)
    requires forall i :: 0 <= i < |alarms| ==> Ready(plants, contacts, byName, alarms[i])
    ensures ProcessedEvents(AllCalls(dispatcher, plants, contacts, byName, alarms)) == Visits(byName, alarms)
    decreases |alarms|
  {
    if alarms != [] {
      var init := alarms[..|alarms| - 1];
      var a := alarms[|alarms| - 1];
      VisitOrder(dispatcher, plants, contacts, byName, init);
      var x := AllCalls(dispatcher, plants, contacts, byName, init);
      var y := SegmentOf(dispatcher, plants, contacts, byName, a).calls;
      ProcessedEventsConcat(x, y);
      SegmentProcessed(dispatcher, a, plants[a.plantName], contacts[a.plantName], byName[a.eventName]);
    }
  }

  /** In a persisted pass, the processor sees the alarms in load order, each
      with its events one after the other. */
  lemma PassVisitOrder(dispatcher: Dispatcher, data: SystemData)
    requires Complete(data)
    ensures ProcessedEvents(Pass(dispatcher, data).calls) == Visits(ByName(data), data.alarms)
  {
    var plants, contacts, byName := IndexPlants(data.plants), IndexContacts(data.contacts), ByName(data);
    var st := RunAlarms(dispatcher, plants, contacts, byName, data.alarms);
    var r := Pass(dispatcher, data);
    PassIsPassOver(dispatcher, data);
    ReadyIffComplete(data);
    PassOverCalls(dispatcher, plants, contacts, byName, data.alarms);
    RunAlarmsCompletes(dispatcher, plants, contacts, byName, data.alarms);
    assert data.alarms[..|st.done|] == data.alarms;
    VisitOrder(dispatcher, plants, contacts, byName, data.alarms);
    ProcessedEventsConcat(AllCalls(dispatcher, plants, contacts, byName, data.alarms), [PersistCall(r.alarms)]);
  }

  /** Processor and persist calls leave the notifier as it was. */
  lemma {:induction false} ReplayIgnoresOtherCalls(st: NotifierState, calls: seq<Call>)
    requires forall k :: 0 <= k < |calls| ==> !calls[k].NotifyCall?
    ensures Replay(st, calls) == st
    decreases |calls|
  {
    if calls != [] {
      ReplayIgnoresOtherCalls(st, calls[..|calls| - 1]);
    }
  }

  /** Notifying never changes which builder is registered for a type and
      label, and only appends to the transport calls made before. */
  lemma {:induction false} ReplayKeepsRegistrations(st: NotifierState, calls: seq<Call>)
    ensures forall t, l :: Lookup(Replay(st, calls).builders, t, l) == Lookup(st.builders, t, l)
    ensures |st.outbox| <= |Replay(st, calls).outbox| && Replay(st, calls).outbox[..|st.outbox|] == st.outbox
    decreases |calls|
  {
    if calls != [] {
      var prev := Replay(st, calls[..|calls| - 1]);
      ReplayKeepsRegistrations(st, calls[..|calls| - 1]);
      match calls[|calls| - 1]
      case NotifyCall(a, p, c, e, l) =>
        var n := Notify(prev.builders, a, p, c, e, l);
        assert (prev.outbox + n.sent)[..|st.outbox|] == prev.outbox[..|st.outbox|];
      case _ =>
    }
  }
}
