/** The records exchanged by the alarm pipeline. In the source each one is a
    dictionary with a fixed set of keys; here each is a datatype with one field
    per key. Timestamps are integers. */
module AlarmTypes {

  datatype Option<+T> = None | Some(value: T)

  /** A trigger condition for one (plant, event name) pair. `lastEvent` is the
      watermark: the timestamp of the latest event already processed. */
  datatype Alarm = Alarm(
    plantName: string,
    eventName: string,
    idAlarm: string,
    lastAlarm: Option<int>,
    lastEvent: int,
    flagAlarm: bool,
    typeAlarm: string)

  /** A monitored site; `plantNameProper` is its display name. */
  datatype Plant = Plant(plantName: string, plantNameProper: string, events: seq<string>)

  /** One recorded observation. The two transfer paths are optional keys. */
  datatype Event = Event(
    plantName: string,
    timestamp: int,
    eventName: string,
    ftpInference: Option<string>,
    ftpOriginal: Option<string>)

  /** Who to contact for a plant: e-mail addresses and phone numbers. */
  datatype PlantContacts = PlantContacts(plantName: string, emailContacts: seq<string>, phoneContacts: seq<int>)

  /** What a processor returns, which is also the label a message builder is
      registered under: Python's `None`, a `bool` or a `str`. */
  datatype Value = Null | Bool(b: bool) | Str(s: string)

  /** Python truthiness of a processor result: `None`, `False` and `""` are falsy. */
  predicate Truthy(v: Value) {
    match v
    case Null => false
    case Bool(b) => b
    case Str(s) => s != []
  }

  /** The falsy results are exactly `None`, `False` and the empty string. */
  lemma FalsyValues(v: Value)
    ensures !Truthy(v) <==> v == Null || v == Bool(false) || v == Str("")
  {
  }

  /** Accessors used as key functions when indexing the loaded records. */
  function EventNameOf(a: Alarm): string { a.eventName }
  function PlantNameOf(p: Plant): string { p.plantName }
  function ContactsPlantOf(c: PlantContacts): string { c.plantName }

  /** No two alarms share an event name. */
  predicate UniqueEventNames(alarms: seq<Alarm>) {
    forall i, j :: 0 <= i < j < |alarms| ==> alarms[i].eventName != alarms[j].eventName
  }
}
