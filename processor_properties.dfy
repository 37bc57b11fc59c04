/** What the deprecated bulk variant `process_alarms` does to each alarm and
    to its result map, and how its watermark rule differs from
    `process_event`'s. */
module ProcessorProperties {
  import opened AlarmTypes
  import opened EventProcessing

  /** The first `n` alarms all have an entry in `events`. */
  predicate NamesPresent(alarms: seq<Alarm>, events: map<string, seq<Event>>, n: nat)
    requires n <= |alarms|
  {
    forall j :: 0 <= j < n ==> alarms[j].eventName in events
  }

  /** What the bulk loop makes of one alarm on its own: unchanged without a
      processor for its type, otherwise the result of running over its events. */
  function BulkOutcome(dispatcher: Dispatcher, events: map<string, seq<Event>>, a: Alarm): (r: Alarm)
    requires a.eventName in events
    ensures a.typeAlarm !in dispatcher || events[a.eventName] == [] ==> r.lastEvent == a.lastEvent
    ensures a.typeAlarm in dispatcher && events[a.eventName] != [] ==>
              r.lastEvent == events[a.eventName][|events[a.eventName]| - 1].timestamp
  {
    if a.typeAlarm !in dispatcher then a else BulkEvents(dispatcher[a.typeAlarm], a, events[a.eventName]).alarm
  }

  /** Dropping the last alarm does not change which prefixes have their names present. */
  lemma NamesPresentPrefix(alarms: seq<Alarm>, events: map<string, seq<Event>>, i: nat)
    requires i < |alarms|
    ensures NamesPresent(alarms[..|alarms| - 1], events, i) == NamesPresent(alarms, events, i)
  {
    assert forall j :: 0 <= j < i ==> alarms[..|alarms| - 1][j] == alarms[j];
  }

  /** The loop completes exactly when every alarm's event name is in `events`. */
  lemma {:induction false} BulkCompletes(dispatcher: Dispatcher, alarms: seq<Alarm>, events: map<string, seq<Event>>)
    ensures BulkAlarms(dispatcher, alarms, events).completed <==> NamesPresent(alarms, events, |alarms|)
    decreases |alarms|
  {
    if alarms != [] {
      var n := |alarms| - 1;
      BulkCompletes(dispatcher, alarms[..n], events);
      NamesPresentPrefix(alarms, events, n);
    }
  }

  /** Each alarm up to the first missing name gets its own outcome; the alarm
      with the missing name and all later ones stay as loaded. */
  lemma {:induction false} BulkAlarmAt(dispatcher: Dispatcher, alarms: seq<Alarm>, events: map<string, seq<Event>>, i: nat)
    requires i < |alarms|
    ensures BulkAlarms(dispatcher, alarms, events).alarms[i]
            == if NamesPresent(alarms, events, i + 1) then BulkOutcome(dispatcher, events, alarms[i]) else alarms[i]
    decreases |alarms|
  {
    var n := |alarms| - 1;
    var init := alarms[..n];
    var prev := BulkAlarms(dispatcher, init, events);
    var b := BulkAlarms(dispatcher, alarms, events);
    if i < n {
      BulkAlarmAt(dispatcher, init, events, i);
      NamesPresentPrefix(alarms, events, i + 1);
      assert b.alarms[i] == prev.alarms[i];
      assert init[i] == alarms[i];
    } else {
      BulkCompletes(dispatcher, init, events);
      NamesPresentPrefix(alarms, events, n);
    }
  }

  /** The loop completes exactly when every alarm's event name is in `events`;
      each alarm up to the first missing name gets its own outcome, and the
      alarm with the missing name and all later ones stay as loaded. */
  lemma BulkAlarmsOutcome(dispatcher: Dispatcher, alarms: seq<Alarm>, events: map<string, seq<Event>>)
    ensures var b := BulkAlarms(dispatcher, alarms, events);
            && (b.completed <==> NamesPresent(alarms, events, |alarms|))
            && (forall i :: 0 <= i < |alarms| ==>
                  b.alarms[i] == if NamesPresent(alarms, events, i + 1) then BulkOutcome(dispatcher, events, alarms[i]) else alarms[i])
  {
    BulkCompletes(dispatcher, alarms, events);
    forall i | 0 <= i < |alarms|
      ensures BulkAlarms(dispatcher, alarms, events).alarms[i]
              == if NamesPresent(alarms, events, i + 1) then BulkOutcome(dispatcher, events, alarms[i]) else alarms[i]
    {
      BulkAlarmAt(dispatcher, alarms, events, i);
    }
  }

  /** Every key of the result map is the event name of some alarm. */
  lemma {:induction false} BulkResultKeys(dispatcher: Dispatcher, alarms: seq<Alarm>, events: map<string, seq<Event>>)
    ensures forall k :: k in BulkAlarms(dispatcher, alarms, events).result ==>
              exists i :: 0 <= i < |alarms| && alarms[i].eventName == k
    decreases |alarms|
  {
    if alarms != [] {
      var n := |alarms| - 1;
      var init := alarms[..n];
      var a := alarms[n];
      var prev := BulkAlarms(dispatcher, init, events);
      BulkResultKeys(dispatcher, init, events);
      forall k | k in BulkAlarms(dispatcher, alarms, events).result
        ensures exists i :: 0 <= i < |alarms| && alarms[i].eventName == k
      {
        if k != a.eventName {
          if prev.completed && a.eventName in events && a.typeAlarm in dispatcher {
            var run := BulkEvents(dispatcher[a.typeAlarm], a, events[a.eventName]);
            assert k in AppendAll(prev.result, a.eventName, run.results);
          }
          assert k in prev.result;
          var i :| 0 <= i < n && init[i].eventName == k;
          assert alarms[i].eventName == k;
        }
      }
    }
  }

  /** With distinct event names, the result map has an entry for an alarm
      exactly when the loop reached it, its type has a processor and it has
      events; the entry holds one result per event, in event order. */
  lemma {:induction false} BulkResults(dispatcher: Dispatcher, alarms: seq<Alarm>, events: map<string, seq<Event>>)
    requires UniqueEventNames(alarms)
    ensures var b := BulkAlarms(dispatcher, alarms, events);
            (forall i :: 0 <= i < |alarms| && NamesPresent(alarms, events, i + 1) ==>
                  var a := alarms[i];
                  && (a.eventName in b.result <==> a.typeAlarm in dispatcher && events[a.eventName] != [])
                  && (a.eventName in b.result ==>
                        b.result[a.eventName] == BulkEvents(dispatcher[a.typeAlarm], a, events[a.eventName]).results
                        && |b.result[a.eventName]| == |events[a.eventName]|))
    decreases |alarms|
  {
    if alarms != [] {
      var n := |alarms| - 1;
      var init := alarms[..n];
      var a := alarms[n];
      var prev := BulkAlarms(dispatcher, init, events);
      var b := BulkAlarms(dispatcher, alarms, events);
      assert UniqueEventNames(init);
      BulkResults(dispatcher, init, events);
      BulkResultKeys(dispatcher, init, events);
      BulkAlarmsOutcome(dispatcher, init, events);
      forall i | 0 <= i <= n
        ensures NamesPresent(init, events, i) == NamesPresent(alarms, events, i)
      {
        NamesPresentPrefix(alarms, events, i);
      }
      forall i | 0 <= i < n
        ensures init[i].eventName != a.eventName
      {
        assert init[i] == alarms[i];
      }
      assert a.eventName !in prev.result;
      if !prev.completed || a.eventName !in events || a.typeAlarm !in dispatcher {
        assert b.result == prev.result;
      } else {
        var run := BulkEvents(dispatcher[a.typeAlarm], a, events[a.eventName]);
        assert b.result == AppendAll(prev.result, a.eventName, run.results);
      }
      forall i | 0 <= i < |alarms| && NamesPresent(alarms, events, i + 1)
        ensures var a := alarms[i];
                && (a.eventName in b.result <==> a.typeAlarm in dispatcher && events[a.eventName] != [])
                && (a.eventName in b.result ==>
                      b.result[a.eventName] == BulkEvents(dispatcher[a.typeAlarm], a, events[a.eventName]).results
                      && |b.result[a.eventName]| == |events[a.eventName]|)
      {
        if i < n {
          assert init[i] == alarms[i];
          assert alarms[i].eventName != a.eventName;
          assert NamesPresent(init, events, i + 1);
        } else {
          assert NamesPresent(alarms, events, n);
          assert prev.completed && a.eventName in events;
        }
      }
    }
  }

  /** The bulk variant ASSIGNS the last event's timestamp to the watermark,
      so an event older than the watermark lowers it, where `process_event`
      keeps the larger value. */
  lemma BulkCanLowerWatermark()
    ensures var a := Alarm("P", "E", "1", None, 10, false, "T");
            var e := Event("P", 5, "E", None, None);
            var d: Dispatcher := map["T" := (x: Alarm, ev: Event) => Handled(x, Null)];
            && BulkAlarms(d, [a], map["E" := [e]]).alarms[0].lastEvent == 5
            && Process(d, a, e).alarm.lastEvent == 10
  {
    var a := Alarm("P", "E", "1", None, 10, false, "T");
    var e := Event("P", 5, "E", None, None);
    var d: Dispatcher := map["T" := (x: Alarm, ev: Event) => Handled(x, Null)];
    assert [a][..0] == [];
    assert BulkAlarms(d, [], map["E" := [e]]) == Bulk([], map[], true);
  }
}
