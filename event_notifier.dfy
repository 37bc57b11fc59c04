/** The notification registry: a two-level table from an alarm's type and a
    message label to the plugin that writes the message body, and the dispatch
    of that message over e-mail and SMS. The transports themselves are outside
    the model; each call to one is recorded in the notifier's `outbox`. */
module EventNotification {
  import opened AlarmTypes

  /** A message-builder plugin: renders the body text from the alarm (as it was
      before the event), the event, the plant and the label. */
  type Builder = (Alarm, Event, Plant, Value) -> string

  type BuilderTable = map<string, map<Value, Builder>>

  /** One call to a transport. */
  datatype Dispatch =
    | Email(to: seq<string>, subject: string, body: string, attachments: map<string, string>)
    | Sms(message: string, recipients: seq<int>)

  /** The subject line: "Alarm <event name> triggered in <plant display name>". */
  function Subject(alarm: Alarm, plant: Plant): (subject: string)
    ensures |subject| == 20 + |alarm.eventName| + |plant.plantNameProper|
    ensures subject[..6] == "Alarm "
    ensures subject[6..6 + |alarm.eventName|] == alarm.eventName
    ensures subject[6 + |alarm.eventName|..20 + |alarm.eventName|] == " triggered in "
    ensures subject[20 + |alarm.eventName|..] == plant.plantNameProper
  {
    "Alarm " + alarm.eventName + " triggered in " + plant.plantNameProper
  }

  // ---------------------------------------------------------------------------
  // File extensions: `path.split(".")[-1]`.

  /** Python's `s.split(sep)` for a one-character separator. */
  function Split(s: string, sep: char): (parts: seq<string>)
    ensures |parts| >= 1
    ensures forall k :: 0 <= k < |parts| ==> sep !in parts[k]
    decreases |s|
  {
    if s == [] then [[]]
    else
      var parts := Split(s[..|s| - 1], sep);
      var c := s[|s| - 1];
      if c == sep then parts + [[]]
      else parts[..|parts| - 1] + [parts[|parts| - 1] + [c]]
  }

  /** Python's `sep.join(parts)`. */
  function Join(parts: seq<string>, sep: char): string
    decreases |parts|
  {
    if parts == [] then []
    else if |parts| == 1 then parts[0]
    else Join(parts[..|parts| - 1], sep) + [sep] + parts[|parts| - 1]
  }

  /** Splitting and joining again gives back the original string. */
  lemma {:induction false} JoinSplit(s: string, sep: char)
    ensures Join(Split(s, sep), sep) == s
    decreases |s|
  {
    if s != [] {
      var init := s[..|s| - 1];
      var parts := Split(init, sep);
      var c := s[|s| - 1];
      JoinSplit(init, sep);
      assert s == init + [c];
      if c == sep {
        assert (parts + [[]])[..|parts|] == parts;
      } else {
        var n := |parts|;
        var joined := parts[..n - 1] + [parts[n - 1] + [c]];
        if n == 1 {
          assert joined == [parts[0] + [c]];
        } else {
          assert joined[..n - 1] == parts[..n - 1];
          assert Join(parts, sep) == Join(parts[..n - 1], sep) + [sep] + parts[n - 1];
        }
      }
    }
  }

  /** The text after the last '.', or the whole path when it has none. */
  function Extension(path: string): (ext: string)
    ensures '.' !in ext
    ensures |ext| <= |path| && path[|path| - |ext|..] == ext
    ensures |ext| < |path| ==> path[|path| - |ext| - 1] == '.'
    decreases |path|
  {
    if path == [] then []
    else if path[|path| - 1] == '.' then []
    else
      var init := path[..|path| - 1];
      var before := Extension(init);
      assert path == init + [path[|path| - 1]];
      assert path[|init| - |before|..] == init[|init| - |before|..] + [path[|path| - 1]];
      before + [path[|path| - 1]]
  }

  /** The extension is the last piece of `path.split(".")`. */
  lemma {:induction false} ExtensionIsLastPart(path: string)
    ensures var parts := Split(path, '.'); parts[|parts| - 1] == Extension(path)
    decreases |path|
  {
    if path != [] {
      ExtensionIsLastPart(path[..|path| - 1]);
    }
  }

  /** The paths an optional key contributes: none, or the one it holds. */
  function Paths(path: Option<string>): set<string> {
    if path.Some? then {path.value} else {}
  }

  /** Which image an attachment is. */
  datatype Stem = Inference | Original

  /** The name an attachment is sent under: "inference." or "original."
      followed by the file's extension. */
  function AttachmentName(stem: Stem, path: string): string {
    StemName(stem) + "." + Extension(path)
  }

  function StemName(stem: Stem): string {
    if stem == Inference then "inference" else "original"
  }

  /** The attachment name keeps the file's extension, after the stem and a dot. */
  lemma AttachmentKeepsExtension(stem: Stem, path: string)
    ensures var name := AttachmentName(stem, path);
            Extension(name) == Extension(path) && name == StemName(stem) + "." + Extension(name)
  {
    ExtensionAfterDot(StemName(stem), Extension(path));
  }

  /** A dot-free text after a '.' is the extension. */
  lemma {:induction false} ExtensionAfterDot(prefix: string, ext: string)
    requires '.' !in ext
    ensures Extension(prefix + "." + ext) == ext
    decreases |ext|
  {
    var path := prefix + "." + ext;
    if ext == [] {
      assert path[|path| - 1] == '.';
    } else {
      var init := ext[..|ext| - 1];
      ExtensionAfterDot(prefix, init);
      assert path[..|path| - 1] == prefix + "." + init;
      assert path[|path| - 1] == ext[|ext| - 1];
    }
  }

  /** The attachment map with the entry for `path` added, if the event has it. */
  function Put(m: map<string, string>, path: Option<string>, stem: Stem): (r: map<string, string>)
    ensures r.Keys == m.Keys + Paths(path)
    ensures path.Some? ==> r[path.value] == AttachmentName(stem, path.value)
    ensures forall k :: k in m && k !in Paths(path) ==> r[k] == m[k]
  {
    if path.None? then m
    else
      var r := m[path.value := AttachmentName(stem, path.value)];
      assert r.Keys == m.Keys + {path.value};
      r
  }

  /** The attachment map: the inference image as "inference.<ext>" and the
      original image as "original.<ext>", each only when the event names it;
      the original is written second, so it wins when both paths coincide. */
  function Attachments(event: Event): (m: map<string, string>)
    ensures m.Keys == Paths(event.ftpInference) + Paths(event.ftpOriginal)
    ensures event.ftpOriginal.Some? ==>
      m[event.ftpOriginal.value] == AttachmentName(Original, event.ftpOriginal.value)
    ensures event.ftpInference.Some? && event.ftpInference.value !in Paths(event.ftpOriginal) ==>
      m[event.ftpInference.value] == AttachmentName(Inference, event.ftpInference.value)
  {
    Put(Put(map[], event.ftpInference, Inference), event.ftpOriginal, Original)
  }

  /** The transport calls for one notification: e-mail first if there are
      e-mail contacts, then SMS if there are phone contacts. */
  function Channels(contacts: PlantContacts, subject: string, body: string, attachments: map<string, string>): (sent: seq<Dispatch>)
    ensures Email(contacts.emailContacts, subject, body, attachments) in sent <==> contacts.emailContacts != []
    ensures Sms(body, contacts.phoneContacts) in sent <==> contacts.phoneContacts != []
    ensures forall k :: 0 <= k < |sent| ==>
      sent[k] == Email(contacts.emailContacts, subject, body, attachments) || sent[k] == Sms(body, contacts.phoneContacts)
    ensures |sent| <= 2 && (|sent| == 2 ==> sent[0].Email? && sent[1].Sms?)
  {
    (if contacts.emailContacts != [] then [Email(contacts.emailContacts, subject, body, attachments)] else [])
    + (if contacts.phoneContacts != [] then [Sms(body, contacts.phoneContacts)] else [])
  }

  /** The builder registered for (alarm type, label), if any. */
  function Lookup(table: BuilderTable, alarmType: string, messageLabel: Value): (r: Option<Builder>)
    ensures r.Some? <==> alarmType in table && messageLabel in table[alarmType]
    ensures r.Some? ==> r.value == table[alarmType][messageLabel]
  {
    if alarmType in table && messageLabel in table[alarmType] then Some(table[alarmType][messageLabel]) else None
  }

  /** Reading the outer defaultdict is harmless: a type with no entry and a
      type with an empty entry have no builder for any label. */
  lemma LookupEmptyEntry(table: BuilderTable, alarmType: string, messageLabel: Value)
    requires alarmType !in table
    ensures Lookup(table, alarmType, messageLabel) == Lookup(table[alarmType := map[]], alarmType, messageLabel) == None
  {
  }

  /** What one `notify_trigger` call does: whether it found a builder, the
      table afterwards, and the transport calls it made. */
  datatype Notification = Notification(delivered: bool, builders: BuilderTable, sent: seq<Dispatch>)

  function Notify(table: BuilderTable, alarm: Alarm, plant: Plant, contacts: PlantContacts, event: Event, messageLabel: Value): (n: Notification)
    ensures n.delivered <==> Lookup(table, alarm.typeAlarm, messageLabel).Some?
    ensures !n.delivered ==> n.sent == []
    ensures n.delivered ==>
      n.sent == Channels(contacts, Subject(alarm, plant),
                         Lookup(table, alarm.typeAlarm, messageLabel).value(alarm, event, plant, messageLabel), Attachments(event))
    ensures n.builders.Keys == table.Keys + {alarm.typeAlarm}
    ensures forall t, l :: Lookup(n.builders, t, l) == Lookup(table, t, l)
  {
    // reading the outer defaultdict inserts an empty table for an unknown type
    var table' := if alarm.typeAlarm in table then table else table[alarm.typeAlarm := map[]];
    var builders := table'[alarm.typeAlarm];
    if messageLabel !in builders then Notification(false, table', [])
    else
      var body := builders[messageLabel](alarm, event, plant, messageLabel);
      Notification(true, table', Channels(contacts, Subject(alarm, plant), body, Attachments(event)))
  }

  class EventNotifier {
    var builders: BuilderTable
    /** Every transport call made so far, in order. */
    var outbox: seq<Dispatch>

    /** Only the empty `defaultdict(dict)` of builders; the transports are not modelled. */
    constructor ()
      ensures builders == map[] && outbox == []
    {
      builders := map[];
      outbox := [];
    }

    /** Registers `messageBuilder` for (`alarmType`, `messageLabel`), the label
        being `True` unless given, and replaces any earlier builder there. */
    method RegisterMessageBuilder(alarmType: string, messageBuilder: Builder, nameonly messageLabel: Value := Bool(true))
      modifies this
      ensures builders == old(builders)[alarmType :=
        (if alarmType in old(builders) then old(builders)[alarmType] else map[])[messageLabel := messageBuilder]]
      ensures outbox == old(outbox)
      ensures Lookup(builders, alarmType, messageLabel) == Some(messageBuilder)
      ensures forall t, l :: t != alarmType || l != messageLabel ==> Lookup(builders, t, l) == Lookup(old(builders), t, l)
    {
      var typeBuilders := if alarmType in builders then builders[alarmType] else map[];
      builders := builders[alarmType := typeBuilders[messageLabel := messageBuilder]];
    }

    /** Builds the message for `alarm` (the state before the event) and sends it
        over the channels the plant has contacts for. Returns false, sending
        nothing, when no builder is registered for the type and label. */
    method NotifyTrigger(alarm: Alarm, plant: Plant, contacts: PlantContacts, event: Event, messageLabel: Value)
      returns (delivered: bool)
      modifies this
      ensures var n := Notify(old(builders), alarm, plant, contacts, event, messageLabel);
              delivered == n.delivered && builders == n.builders && outbox == old(outbox) + n.sent
    {
      ghost var n := Notify(builders, alarm, plant, contacts, event, messageLabel);
      var subject := "Alarm " + alarm.eventName + " triggered in " + plant.plantNameProper;
      assert subject == Subject(alarm, plant);

      if alarm.typeAlarm !in builders {
        builders := builders[alarm.typeAlarm := map[]];
      }
      var typeBuilders := builders[alarm.typeAlarm];
      assert builders == n.builders;
      if messageLabel !in typeBuilders {
        return false;
      }
      var body := typeBuilders[messageLabel](alarm, event, plant, messageLabel);

      var attachments: map<string, string> := map[];
      if event.ftpInference.Some? {
        var path := event.ftpInference.value;
        attachments := attachments[path := AttachmentName(Inference, path)];
      }
      if event.ftpOriginal.Some? {
        var path := event.ftpOriginal.value;
        attachments := attachments[path := AttachmentName(Original, path)];
      }
      assert attachments == Attachments(event);
      assert n.sent == Channels(contacts, subject, body, attachments);

      if contacts.emailContacts != [] {
        outbox := outbox + [Email(contacts.emailContacts, subject, body, attachments)];
      }
      if contacts.phoneContacts != [] {
        outbox := outbox + [Sms(body, contacts.phoneContacts)];
      }
      return true;
    }
  }
}
