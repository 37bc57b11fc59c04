/** The processing registry: a table from an alarm's type to the plugin that
    decides, event by event, whether the alarm fires. */
module EventProcessing {
  import opened AlarmTypes

  /** What a processor plugin gives back: the alarm as it left it, and its result. */
  datatype Handled = Handled(alarm: Alarm, result: Value)

  /** A processor plugin. It may change the alarm it is given; the event is a
      value, so the plugin cannot change it. */
  type Handler = (Alarm, Event) -> Handled

  type Dispatcher = map<string, Handler>

  function Max(a: int, b: int): (m: int)
    ensures m >= a && m >= b && (m == a || m == b)
  {
    if a >= b then a else b
  }

  /** The alarm as the handler receives it: the watermark raised to the event's
      timestamp if that is later, nothing else changed. */
  function Advance(alarm: Alarm, event: Event): (a: Alarm)
    ensures a.lastEvent >= alarm.lastEvent && a.lastEvent >= event.timestamp
    ensures a.lastEvent == alarm.lastEvent || a.lastEvent == event.timestamp
    ensures a == alarm.(lastEvent := a.lastEvent)
  {
    alarm.(lastEvent := Max(event.timestamp, alarm.lastEvent))
  }

  /** `process_event` as a function of the dispatch table: no handler for the
      alarm's type means no result and an untouched alarm. */
  function Process(dispatcher: Dispatcher, alarm: Alarm, event: Event): Handled {
    if alarm.typeAlarm !in dispatcher then Handled(alarm, Null)
    else dispatcher[alarm.typeAlarm](Advance(alarm, event), event)
  }

  /** A plugin that leaves the watermark and the type of the alarm alone (it
      may still change the flag, the last alarm time and the rest). */
  ghost predicate KeepsWatermark(h: Handler) {
    forall a: Alarm, e: Event :: h(a, e).alarm.lastEvent == a.lastEvent && h(a, e).alarm.typeAlarm == a.typeAlarm
  }

  /** `process_event` in full: without a handler the alarm comes back as it
      was with no result; otherwise the handler sees the alarm with its
      watermark raised to the event's timestamp, and nothing else changed. */
  lemma ProcessOutcome(dispatcher: Dispatcher, alarm: Alarm, event: Event)
    ensures alarm.typeAlarm !in dispatcher ==> Process(dispatcher, alarm, event) == Handled(alarm, Null)
    ensures alarm.typeAlarm in dispatcher ==>
      Process(dispatcher, alarm, event) == dispatcher[alarm.typeAlarm](alarm.(lastEvent := Max(event.timestamp, alarm.lastEvent)), event)
  {
  }

  /** With such a plugin, one processing step leaves the watermark at the
      larger of its old value and the event's timestamp. */
  lemma ProcessRaisesWatermark(dispatcher: Dispatcher, alarm: Alarm, event: Event)
    requires alarm.typeAlarm in dispatcher && KeepsWatermark(dispatcher[alarm.typeAlarm])
    ensures Process(dispatcher, alarm, event).alarm.lastEvent == Max(event.timestamp, alarm.lastEvent)
    ensures Process(dispatcher, alarm, event).alarm.typeAlarm == alarm.typeAlarm
  {
  }

  // ---------------------------------------------------------------------------
  // The deprecated bulk variant, process_alarms.

  /** One alarm's pass in the bulk variant, the processor chosen beforehand. */
  datatype BulkRun = BulkRun(alarm: Alarm, results: seq<Value>)

  /** The processor sees the alarm as the previous step left it; afterwards the
      watermark is ASSIGNED the event's timestamp, whatever it was. */
  function BulkEvents(h: Handler, alarm: Alarm, events: seq<Event>): (r: BulkRun)
    ensures |r.results| == |events|
    ensures events == [] ==> r.alarm == alarm
    ensures events != [] ==> r.alarm.lastEvent == events[|events| - 1].timestamp
    decreases |events|
  {
    if events == [] then BulkRun(alarm, [])
    else
      var prev := BulkEvents(h, alarm, events[..|events| - 1]);
      var e := events[|events| - 1];
      var out := h(prev.alarm, e);
      BulkRun(out.alarm.(lastEvent := e.timestamp), prev.results + [out.result])
  }

  /** The k-th verdict is the processor's verdict on the k-th event, given the
      alarm as the events before it left it. */
  lemma {:induction false} BulkChain(h: Handler, alarm: Alarm, events: seq<Event>, k: nat)
    requires k < |events|
    ensures BulkEvents(h, alarm, events).results[k] == h(BulkEvents(h, alarm, events[..k]).alarm, events[k]).result
    decreases |events|
  {
    var init := events[..|events| - 1];
    if k < |init| {
      BulkChain(h, alarm, init, k);
      assert init[..k] == events[..k];
      assert init[k] == events[k];
    } else {
      assert events[..k] == init;
    }
  }

  /** `result[key].append(v)` for each `v` on a `defaultdict(list)`: the key
      only appears once something has been appended. */
  function AppendAll(m: map<string, seq<Value>>, key: string, vs: seq<Value>): (r: map<string, seq<Value>>)
    ensures vs == [] ==> r == m
    ensures vs != [] ==> r.Keys == m.Keys + {key} && r[key] == (if key in m then m[key] else []) + vs
    ensures forall k :: k in m && k != key ==> r[k] == m[k]
  {
    if vs == [] then m else m[key := (if key in m then m[key] else []) + vs]
  }

  /** Appending the values one at a time builds the same map. */
  lemma AppendOneMore(m: map<string, seq<Value>>, key: string, vs: seq<Value>, v: Value)
    ensures var r := AppendAll(m, key, vs);
            AppendAll(m, key, vs + [v]) == r[key := (if key in r then r[key] else []) + [v]]
  {
    var base := if key in m then m[key] else [];
    var r := AppendAll(m, key, vs);
    if vs == [] {
      assert r == m;
      assert vs + [v] == [v];
    } else {
      assert r == m[key := base + vs];
      assert base + vs + [v] == base + (vs + [v]);
      assert r[key := r[key] + [v]] == m[key := base + (vs + [v])];
    }
  }

  /** The state of the bulk variant: the alarm list (updated in place), the
      result map, and whether the loop ran to the end without a KeyError. */
  datatype Bulk = Bulk(alarms: seq<Alarm>, result: map<string, seq<Value>>, completed: bool)

  function BulkAlarms(dispatcher: Dispatcher, alarms: seq<Alarm>, events: map<string, seq<Event>>): (b: Bulk)
    ensures |b.alarms| == |alarms|
    decreases |alarms|
  {
    if alarms == [] then Bulk([], map[], true)
    else
      var prev := BulkAlarms(dispatcher, alarms[..|alarms| - 1], events);
      var a := alarms[|alarms| - 1];
      if !prev.completed || a.eventName !in events then Bulk(prev.alarms + [a], prev.result, false)
      else if a.typeAlarm !in dispatcher then Bulk(prev.alarms + [a], prev.result, true)
      else
        var run := BulkEvents(dispatcher[a.typeAlarm], a, events[a.eventName]);
        Bulk(prev.alarms + [run.alarm], AppendAll(prev.result, a.eventName, run.results), true)
  }

  /** Once a KeyError has stopped the bulk loop, the remaining alarms stay as loaded. */
  lemma {:induction false} BulkStopsAtMissingEvents(dispatcher: Dispatcher, alarms: seq<Alarm>, events: map<string, seq<Event>>, k: nat)
    requires k <= |alarms| && !BulkAlarms(dispatcher, alarms[..k], events).completed
    ensures BulkAlarms(dispatcher, alarms, events)
         == Bulk(BulkAlarms(dispatcher, alarms[..k], events).alarms + alarms[k..],
                 BulkAlarms(dispatcher, alarms[..k], events).result, false)
    decreases |alarms|
  {
    if k < |alarms| {
      var init := alarms[..|alarms| - 1];
      assert init[..k] == alarms[..k];
      BulkStopsAtMissingEvents(dispatcher, init, events, k);
      assert init[k..] + [alarms[|alarms| - 1]] == alarms[k..];
    } else {
      assert alarms[..k] == alarms;
    }
  }

  /** One more turn of the bulk loop, from a state that has not stopped. */
  lemma BulkAlarmsNext(dispatcher: Dispatcher, alarms: seq<Alarm>, events: map<string, seq<Event>>, i: nat,
                       done: seq<Alarm>, result: map<string, seq<Value>>)
    requires i < |alarms| && BulkAlarms(dispatcher, alarms[..i], events) == Bulk(done, result, true)
    ensures var a := alarms[i];
            BulkAlarms(dispatcher, alarms[..i + 1], events)
            == if a.eventName !in events then Bulk(done + [a], result, false)
               else if a.typeAlarm !in dispatcher then Bulk(done + [a], result, true)
               else
                 var run := BulkEvents(dispatcher[a.typeAlarm], a, events[a.eventName]);
                 Bulk(done + [run.alarm], AppendAll(result, a.eventName, run.results), true)
  {
    assert alarms[..i + 1][..i] == alarms[..i];
  }

  /** A missing `events` entry for the next alarm stops the bulk loop there:
      that alarm and every later one stay as loaded. */
  lemma BulkStopsHere(dispatcher: Dispatcher, alarms: seq<Alarm>, events: map<string, seq<Event>>, i: nat,
                      done: seq<Alarm>, result: map<string, seq<Value>>)
    requires i < |alarms| && BulkAlarms(dispatcher, alarms[..i], events) == Bulk(done, result, true)
    requires alarms[i].eventName !in events
    ensures BulkAlarms(dispatcher, alarms, events) == Bulk(done + alarms[i..], result, false)
  {
    BulkAlarmsNext(dispatcher, alarms, events, i, done, result);
    BulkStopsAtMissingEvents(dispatcher, alarms, events, i + 1);
    assert done + [alarms[i]] + alarms[i + 1..] == done + alarms[i..];
  }

  class EventProcessor {
    var dispatcher: Dispatcher

    constructor ()
      ensures dispatcher == map[]
    {
      dispatcher := map[];
    }

    /** Registers `processor` for `alarmType`, replacing any earlier one. */
    method RegisterProcessor(alarmType: string, processor: Handler)
      modifies this
      ensures dispatcher == old(dispatcher)[alarmType := processor]
      ensures alarmType in dispatcher && dispatcher.Keys == old(dispatcher).Keys + {alarmType}
      ensures forall t :: t in old(dispatcher) && t != alarmType ==> dispatcher[t] == old(dispatcher)[t]
    {
      dispatcher := dispatcher[alarmType := processor];
    }

    /** Processes one event: with no handler for the alarm's type, nothing
        happens and the result is `None`; otherwise the watermark is raised
        first and the handler's verdict is returned as it is. */
    method ProcessEvent(alarm: Alarm, plant: Plant, event: Event) returns (updated: Alarm, result: Value)
      ensures Handled(updated, result) == Process(dispatcher, alarm, event)
      ensures alarm.typeAlarm !in dispatcher ==> updated == alarm && result == Null
      ensures alarm.typeAlarm in dispatcher ==>
        Handled(updated, result) == dispatcher[alarm.typeAlarm](Advance(alarm, event), event)
    {
      if alarm.typeAlarm !in dispatcher {
        return alarm, Null;
      }
      var processor := dispatcher[alarm.typeAlarm];
      var advanced := alarm.(lastEvent := Max(event.timestamp, alarm.lastEvent));
      var out := processor(advanced, event);
      updated, result := out.alarm, out.result;
    }

    /** The deprecated bulk variant. A missing `events` entry stops it with a
        KeyError (`completed` false) after the earlier alarms were updated. */
    method ProcessAlarms(alarms: array<Alarm>, plants: map<string, Plant>, events: map<string, seq<Event>>)
      returns (result: map<string, seq<Value>>, completed: bool)
      modifies alarms
      ensures Bulk(alarms[..], result, completed) == BulkAlarms(dispatcher, old(alarms[..]), events)
    {
      ghost var loaded := alarms[..];
      ghost var done: seq<Alarm> := [];
      result := map[];
      var idx := 0;
      while idx < alarms.Length
        invariant 0 <= idx <= alarms.Length && |done| == idx
        invariant BulkAlarms(dispatcher, loaded[..idx], events) == Bulk(done, result, true)
        invariant forall k :: 0 <= k < idx ==> alarms[k] == done[k]
        invariant forall k :: idx <= k < alarms.Length ==> alarms[k] == loaded[k]
      {
        ghost var before := result;
        var missing;
        result, missing := ProcessAlarmAt(alarms, idx, events, result);
        if missing {
          BulkStopsHere(dispatcher, loaded, events, idx, done, before);
          assert alarms[..] == done + loaded[idx..];
          return result, false;
        }
        BulkAlarmsNext(dispatcher, loaded, events, idx, done, before);
        done := done + [alarms[idx]];
        idx := idx + 1;
      }
      assert loaded[..idx] == loaded && alarms[..] == done;
      completed := true;
    }

    /** One turn of the bulk loop, for the alarm at `idx`: a missing `events`
        entry is a KeyError (`missing`); an alarm whose type has no processor
        is skipped; otherwise it is run over its events and written back. */
    method ProcessAlarmAt(alarms: array<Alarm>, idx: int, events: map<string, seq<Event>>,
                          result: map<string, seq<Value>>)
      returns (extended: map<string, seq<Value>>, missing: bool)
      requires 0 <= idx < alarms.Length
      modifies alarms
      ensures forall k :: 0 <= k < alarms.Length && k != idx ==> alarms[k] == old(alarms[k])
      ensures var a := old(alarms[idx]);
              && missing == (a.eventName !in events)
              && (missing || a.typeAlarm !in dispatcher ==> alarms[idx] == a && extended == result)
              && (!missing && a.typeAlarm in dispatcher ==>
                    var run := BulkEvents(dispatcher[a.typeAlarm], a, events[a.eventName]);
                    alarms[idx] == run.alarm && extended == AppendAll(result, a.eventName, run.results))
    {
      var alarm := alarms[idx];
      var alarmName := alarm.eventName;
      if alarmName !in events {
        return result, true;
      }
      var alarmEvents := events[alarmName];
      if alarm.typeAlarm !in dispatcher {
        return result, false;
      }
      alarm, extended := RunProcessor(dispatcher[alarm.typeAlarm], alarmName, alarm, alarmEvents, result);
      alarms[idx] := alarm;
      missing := false;
    }

    /** The inner event loop of the bulk variant for one alarm: every verdict is appended under the alarm's name, and the
        watermark is assigned each event's timestamp in turn. */
    method RunProcessor(processor: Handler, alarmName: string, alarm: Alarm, alarmEvents: seq<Event>,
                        result: map<string, seq<Value>>)
      returns (updated: Alarm, extended: map<string, seq<Value>>)
      ensures updated == BulkEvents(processor, alarm, alarmEvents).alarm
      ensures extended == AppendAll(result, alarmName, BulkEvents(processor, alarm, alarmEvents).results)
    {
      updated, extended := alarm, result;
      var jdx := 0;
      while jdx < |alarmEvents|
        invariant 0 <= jdx <= |alarmEvents|
        invariant updated == BulkEvents(processor, alarm, alarmEvents[..jdx]).alarm
        invariant extended == AppendAll(result, alarmName, BulkEvents(processor, alarm, alarmEvents[..jdx]).results)
      {
        assert alarmEvents[..jdx + 1][..jdx] == alarmEvents[..jdx];
        ghost var done := BulkEvents(processor, alarm, alarmEvents[..jdx]).results;
        var out := processor(updated, alarmEvents[jdx]);
        assert BulkEvents(processor, alarm, alarmEvents[..jdx + 1]).results == done + [out.result];
        AppendOneMore(result, alarmName, done, out.result);
        extended := extended[alarmName := (if alarmName in extended then extended[alarmName] else []) + [out.result]];
        updated := out.alarm.(lastEvent := alarmEvents[jdx].timestamp);
        jdx := jdx + 1;
      }
      assert alarmEvents[..jdx] == alarmEvents;
      // With at least one event, the watermark is set once more to the last
      // event's timestamp; the loop has already left it there.
      if alarmEvents != [] {
        updated := updated.(lastEvent := alarmEvents[|alarmEvents| - 1].timestamp);
      }
    }
  }
}
