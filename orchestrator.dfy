/** One pass of the alarm pipeline (`Orchestrator.execute`): index the loaded
    records, walk each alarm's events in timestamp order, hand each to the
    processor, notify on a truthy result with the alarm as it was before the
    event, and persist the alarm list once at the end.

    The connector is outside the model: what it loads is the `SystemData`
    parameter, and persisting is a `PersistCall` in the trace of calls the
    pass makes to its collaborators. */
module Orchestration {
  import opened AlarmTypes
  import opened Collections
  import opened EventOrder
  import opened EventProcessing
  import opened EventNotification

  /** What `load_system_data` returns. */
  datatype SystemData = SystemData(alarms: seq<Alarm>, plants: seq<Plant>, contacts: seq<PlantContacts>, events: seq<Event>)

  /** A call the pass makes to a collaborator. A `ProcessCall` records the
      alarm as it was handed to the processor and the result it gave back. */
  datatype Call =
    | ProcessCall(alarm: Alarm, plant: Plant, event: Event, result: Value)
    | NotifyCall(alarm: Alarm, plant: Plant, contacts: PlantContacts, event: Event, messageLabel: Value)
    | PersistCall(alarms: seq<Alarm>)

  /** An event belongs to an alarm when both its event name and its plant match. */
  function Owns(a: Alarm): Event -> bool {
    (e: Event) => e.eventName == a.eventName && e.plantName == a.plantName
  }

  function IndexPlants(plants: seq<Plant>): map<string, Plant> {
    Index(plants, PlantNameOf, (p: Plant) => p)
  }

  function IndexContacts(contacts: seq<PlantContacts>): map<string, PlantContacts> {
    Index(contacts, ContactsPlantOf, (c: PlantContacts) => c)
  }

  /** Plants by name: every plant's name is a key, and each key holds a
      loaded plant of that name (the last one, by IndexLastWins). */
  lemma IndexedPlants(plants: seq<Plant>)
    ensures forall i :: 0 <= i < |plants| ==> plants[i].plantName in IndexPlants(plants)
    ensures forall k :: k in IndexPlants(plants) ==> IndexPlants(plants)[k].plantName == k && IndexPlants(plants)[k] in plants
  {
    IndexValues(plants, PlantNameOf, (p: Plant) => p);
  }

  /** Contact records by plant name, in the same way. */
  lemma IndexedContacts(contacts: seq<PlantContacts>)
    ensures forall i :: 0 <= i < |contacts| ==> contacts[i].plantName in IndexContacts(contacts)
    ensures forall k :: k in IndexContacts(contacts) ==>
              IndexContacts(contacts)[k].plantName == k && IndexContacts(contacts)[k] in contacts
  {
    IndexValues(contacts, ContactsPlantOf, (c: PlantContacts) => c);
  }

  /** The events of `sorted` that belong to an alarm, in the order of `sorted`. */
  function EventsOf(sorted: seq<Event>): Alarm -> seq<Event> {
    (a: Alarm) => Filter(sorted, Owns(a))
  }

  /** The events of each alarm, keyed by the alarm's event name ONLY: when two
      alarms share an event name, the later alarm's list is the one kept. */
  function IndexEvents(alarms: seq<Alarm>, sorted: seq<Event>): map<string, seq<Event>> {
    Index(alarms, EventNameOf, EventsOf(sorted))
  }

  /** Every alarm's event name is a key, and each key holds the events owned
      by some alarm of that name (the last one, by EventsHandedOver). */
  lemma IndexedEvents(alarms: seq<Alarm>, sorted: seq<Event>)
    ensures forall i :: 0 <= i < |alarms| ==> alarms[i].eventName in IndexEvents(alarms, sorted)
    ensures forall k :: k in IndexEvents(alarms, sorted) ==>
              exists i :: 0 <= i < |alarms| && alarms[i].eventName == k && IndexEvents(alarms, sorted)[k] == Filter(sorted, Owns(alarms[i]))
  {
    IndexValues(alarms, EventNameOf, EventsOf(sorted));
  }

  /** The calls made for one event: the processor, then the notifier if the
      result is truthy, given the alarm as it was before the processor ran. */
  function EventCalls(before: Alarm, plant: Plant, contacts: PlantContacts, event: Event, result: Value): seq<Call> {
    [ProcessCall(before, plant, event, result)]
    + if Truthy(result) then [NotifyCall(before, plant, contacts, event, result)] else []
  }

  /** One alarm's walk over its events: the alarm afterwards and the calls made. */
  datatype Segment = Segment(alarm: Alarm, calls: seq<Call>)

  function RunEvents(dispatcher: Dispatcher, alarm: Alarm, plant: Plant, contacts: PlantContacts, events: seq<Event>): Segment
    decreases |events|
  {
    if events == [] then Segment(alarm, [])
    else
      var prev := RunEvents(dispatcher, alarm, plant, contacts, events[..|events| - 1]);
      var e := events[|events| - 1];
      var out := Process(dispatcher, prev.alarm, e);
      Segment(out.alarm, prev.calls + EventCalls(prev.alarm, plant, contacts, e, out.result))
  }

  /** One more event: it is processed from where the walk so far left the alarm. */
  lemma RunEventsNext(dispatcher: Dispatcher, alarm: Alarm, plant: Plant, contacts: PlantContacts, events: seq<Event>,
                      j: nat, current: Alarm, calls: seq<Call>)
    requires j < |events| && RunEvents(dispatcher, alarm, plant, contacts, events[..j]) == Segment(current, calls)
    ensures var out := Process(dispatcher, current, events[j]);
            RunEvents(dispatcher, alarm, plant, contacts, events[..j + 1])
            == Segment(out.alarm, calls + EventCalls(current, plant, contacts, events[j], out.result))
  {
    assert events[..j + 1][..j] == events[..j];
  }

  /** The loop over alarms in load order: the alarms handled so far, the calls
      made, and whether a missing plant, contacts or events entry (a KeyError)
      ended the loop. */
  datatype PassState = PassState(done: seq<Alarm>, calls: seq<Call>, aborted: bool)

  function RunAlarms(dispatcher: Dispatcher, plants: map<string, Plant>, contacts: map<string, PlantContacts>,
                     byName: map<string, seq<Event>>, alarms: seq<Alarm>): (st: PassState)
    ensures |st.done| <= |alarms|
    ensures !st.aborted ==> |st.done| == |alarms|
    decreases |alarms|
  {
    if alarms == [] then PassState([], [], false)
    else
      var prev := RunAlarms(dispatcher, plants, contacts, byName, alarms[..|alarms| - 1]);
      var a := alarms[|alarms| - 1];
      if prev.aborted then prev
      else if a.plantName !in plants || a.plantName !in contacts || a.eventName !in byName then
        PassState(prev.done, prev.calls, true)
      else
        var seg := RunEvents(dispatcher, a, plants[a.plantName], contacts[a.plantName], byName[a.eventName]);
        PassState(prev.done + [seg.alarm], prev.calls + seg.calls, false)
  }

  /** The outcome of a pass: the alarm list as it stands at the end, every call
      made, and whether the list was persisted. */
  datatype PassResult = PassResult(alarms: seq<Alarm>, calls: seq<Call>, persisted: bool)

  /** The loop over the alarms with the given indexes, then the persist call
      if it ran to the end. */
  function PassOver(dispatcher: Dispatcher, plants: map<string, Plant>, contacts: map<string, PlantContacts>,
                    byName: map<string, seq<Event>>, alarms: seq<Alarm>): (r: PassResult)
    ensures |r.alarms| == |alarms|
  {
    var st := RunAlarms(dispatcher, plants, contacts, byName, alarms);
    var final := st.done + alarms[|st.done|..];
    if st.aborted then PassResult(final, st.calls, false)
    else PassResult(final, st.calls + [PersistCall(final)], true)
  }

  /** A whole pass over the loaded data: index it, then loop and persist. */
  function Pass(dispatcher: Dispatcher, data: SystemData): (r: PassResult)
    ensures |r.alarms| == |data.alarms|
  {
    PassOver(dispatcher, IndexPlants(data.plants), IndexContacts(data.contacts),
             IndexEvents(data.alarms, SortByTimestamp(data.events)), data.alarms)
  }

  /** One more alarm: either a missing entry ends the loop, or its events are walked. */
  lemma RunAlarmsNext(dispatcher: Dispatcher, plants: map<string, Plant>, contacts: map<string, PlantContacts>,
                      byName: map<string, seq<Event>>, alarms: seq<Alarm>, i: nat, done: seq<Alarm>, calls: seq<Call>)
    requires i < |alarms| && RunAlarms(dispatcher, plants, contacts, byName, alarms[..i]) == PassState(done, calls, false)
    ensures var a := alarms[i];
            RunAlarms(dispatcher, plants, contacts, byName, alarms[..i + 1])
            == if a.plantName !in plants || a.plantName !in contacts || a.eventName !in byName then PassState(done, calls, true)
               else
                 var seg := RunEvents(dispatcher, a, plants[a.plantName], contacts[a.plantName], byName[a.eventName]);
                 PassState(done + [seg.alarm], calls + seg.calls, false)
  {
    assert alarms[..i + 1][..i] == alarms[..i];
  }

  /** Once a KeyError has ended the loop, later alarms change nothing. */
  lemma {:induction false} AbortIsFinal(dispatcher: Dispatcher, plants: map<string, Plant>, contacts: map<string, PlantContacts>,
                                        byName: map<string, seq<Event>>, alarms: seq<Alarm>, k: nat)
    requires k <= |alarms| && RunAlarms(dispatcher, plants, contacts, byName, alarms[..k]).aborted
    ensures RunAlarms(dispatcher, plants, contacts, byName, alarms) == RunAlarms(dispatcher, plants, contacts, byName, alarms[..k])
    decreases |alarms|
  {
    if k < |alarms| {
      var init := alarms[..|alarms| - 1];
      assert init[..k] == alarms[..k];
      AbortIsFinal(dispatcher, plants, contacts, byName, init, k);
    } else {
      assert alarms[..k] == alarms;
    }
  }

  /** The builders table and transport calls of the notifier. */
  datatype NotifierState = NotifierState(builders: BuilderTable, outbox: seq<Dispatch>)

  /** The notifier's state after it has handled the notify calls in `calls`. */
  function Replay(st: NotifierState, calls: seq<Call>): NotifierState
    decreases |calls|
  {
    if calls == [] then st
    else
      var prev := Replay(st, calls[..|calls| - 1]);
      match calls[|calls| - 1]
      case NotifyCall(a, p, c, e, l) =>
        var n := Notify(prev.builders, a, p, c, e, l);
        NotifierState(n.builders, prev.outbox + n.sent)
      case _ => prev
  }

  class Orchestrator {
    const processor: EventProcessor
    const notifier: EventNotifier

    constructor (processor: EventProcessor, notifier: EventNotifier)
      ensures this.processor == processor && this.notifier == notifier
    {
      this.processor := processor;
      this.notifier := notifier;
    }

    ghost function NotifierNow(): NotifierState
      reads notifier
    {
      NotifierState(notifier.builders, notifier.outbox)
    }

    /** Runs one pass over the loaded `data` and returns the calls it made to
        the processor, the notifier and the connector, in order. */
    method Execute(data: SystemData) returns (calls: seq<Call>)
      modifies notifier
      ensures calls == Pass(processor.dispatcher, data).calls
      ensures NotifierNow() == Replay(old(NotifierNow()), calls)
    {
      ghost var start := NotifierNow();
      var alarms := data.alarms;
      var contactsIndexed := IndexContacts(data.contacts);
      var plantsIndexed := IndexPlants(data.plants);
      var events := SortByTimestamp(data.events);
      var eventsByAlarm := IndexEvents(data.alarms, events);

      var done, aborted;
      done, calls, aborted := WalkAlarms(plantsIndexed, contactsIndexed, eventsByAlarm, alarms, start);
      if aborted {
        // a KeyError ended the loop: nothing is persisted
        return;
      }
      // the loop updated every alarm
      assert data.alarms[|done|..] == [] && done + [] == done;
      calls := calls + [PersistCall(done)];
    }

    /** The loop over the alarms, in load order. A missing plant, contacts or
        events entry raises a KeyError that ends the loop (`aborted`). */
    method WalkAlarms(plants: map<string, Plant>, contacts: map<string, PlantContacts>, byName: map<string, seq<Event>>,
                      alarms: seq<Alarm>, ghost start: NotifierState)
      returns (done: seq<Alarm>, calls: seq<Call>, aborted: bool)
      requires NotifierNow() == Replay(start, [])
      modifies notifier
      ensures PassState(done, calls, aborted) == RunAlarms(processor.dispatcher, plants, contacts, byName, alarms)
      ensures NotifierNow() == Replay(start, calls)
    {
      done, calls := [], [];
      var i := 0;
      while i < |alarms|
        invariant 0 <= i <= |alarms|
        invariant RunAlarms(processor.dispatcher, plants, contacts, byName, alarms[..i]) == PassState(done, calls, false)
        invariant NotifierNow() == Replay(start, calls)
      {
        var alarm := alarms[i];
        RunAlarmsNext(processor.dispatcher, plants, contacts, byName, alarms, i, done, calls);
        if alarm.plantName !in plants || alarm.plantName !in contacts || alarm.eventName !in byName {
          AbortIsFinal(processor.dispatcher, plants, contacts, byName, alarms, i + 1);
          return done, calls, true;
        }
        var updated;
        updated, calls := WalkEvents(alarm, plants[alarm.plantName], contacts[alarm.plantName], byName[alarm.eventName], calls, start);
        done := done + [updated];
        i := i + 1;
      }
      assert alarms[..i] == alarms;
      aborted := false;
    }

    /** One turn of the inner loop: the processor gets a copy of the alarm,
        and a truthy result goes to the notifier with the alarm as it was
        before the processor ran. */
    method HandleEvent(alarm: Alarm, plant: Plant, contacts: PlantContacts, event: Event,
                       calls: seq<Call>, ghost start: NotifierState)
      returns (updated: Alarm, step: seq<Call>)
      requires NotifierNow() == Replay(start, calls)
      modifies notifier
      ensures var out := Process(processor.dispatcher, alarm, event);
              updated == out.alarm && step == EventCalls(alarm, plant, contacts, event, out.result)
      ensures NotifierNow() == Replay(start, calls + step)
    {
      var alarmBeforeEvent := alarm;
      var eventResult;
      updated, eventResult := processor.ProcessEvent(alarm, plant, event);
      step := [ProcessCall(alarmBeforeEvent, plant, event, eventResult)];
      assert (calls + step)[..|calls|] == calls;
      if Truthy(eventResult) {
        var delivered := notifier.NotifyTrigger(alarmBeforeEvent, plant, contacts, event, eventResult);
        ghost var mid := calls + step;
        step := step + [NotifyCall(alarmBeforeEvent, plant, contacts, event, eventResult)];
        assert calls + step == mid + [step[1]];
        assert (mid + [step[1]])[..|mid|] == mid;
      }
    }

    /** The inner loop of `execute` for one alarm: each of its events goes to
        the processor, and a truthy result to the notifier together with the
        alarm as it was before that event. */
    method WalkEvents(alarm: Alarm, plant: Plant, contacts: PlantContacts, alarmEvents: seq<Event>,
                      calls: seq<Call>, ghost start: NotifierState)
      returns (updated: Alarm, extended: seq<Call>)
      requires NotifierNow() == Replay(start, calls)
      modifies notifier
      ensures var seg := RunEvents(processor.dispatcher, alarm, plant, contacts, alarmEvents);
              updated == seg.alarm && extended == calls + seg.calls
      ensures NotifierNow() == Replay(start, extended)
    {
      updated, extended := alarm, calls;
      ghost var seg: seq<Call> := [];
      var j := 0;
      while j < |alarmEvents|
        invariant 0 <= j <= |alarmEvents|
        invariant RunEvents(processor.dispatcher, alarm, plant, contacts, alarmEvents[..j]) == Segment(updated, seg)
        invariant extended == calls + seg
        invariant NotifierNow() == Replay(start, extended)
      {
        RunEventsNext(processor.dispatcher, alarm, plant, contacts, alarmEvents, j, updated, seg);
        var step;
        updated, step := HandleEvent(updated, plant, contacts, alarmEvents[j], extended, start);
        seg := seg + step;
        extended := extended + step;
        j := j + 1;
      }
      assert alarmEvents[..j] == alarmEvents;
    }
  }
}
