/** The event store: an in-memory list of memorial events (birthdays,
    anniversaries), flushed to storage after every change, seeded with sample
    events on a first run. */
module Events {
  import opened Wrappers
  import opened Seqs
  import opened Decimal

  /** A stored event. `date` is a calendar date written YYYY-MM-DD; money
      amounts and reminder offsets are carried as given. */
  datatype MemorialEvent = MemorialEvent(
    id: string,
    title: string,
    date: string,
    description: Option<string>,
    category: string,
    isImportant: bool,
    reminderDays: seq<int>,
    color: string,
    budget: Option<real>,
    spent: Option<real>)

  /** An event without its id, as supplied to `AddEvent` or by the sample provider. */
  datatype EventData = EventData(
    title: string,
    date: string,
    description: Option<string>,
    category: string,
    isImportant: bool,
    reminderDays: seq<int>,
    color: string,
    budget: Option<real>,
    spent: Option<real>)

  /** The id-less part of a stored event. */
  function DataOf(e: MemorialEvent): EventData {
    EventData(e.title, e.date, e.description, e.category, e.isImportant,
              e.reminderDays, e.color, e.budget, e.spent)
  }

  /** The supplied data with the id `id` added. */
  function WithId(data: EventData, id: string): (e: MemorialEvent)
    ensures e.id == id && DataOf(e) == data
  {
    MemorialEvent(id, data.title, data.date, data.description, data.category,
                  data.isImportant, data.reminderDays, data.color, data.budget, data.spent)
  }

  /** The id of an event. */
  function IdOf(e: MemorialEvent): string {
    e.id
  }

  /** The ids of the events, position by position. */
  function Ids(es: seq<MemorialEvent>): seq<string> {
    Map(es, IdOf)
  }

  /** The samples numbered by position: sample `i` gets the id `i + 1` in decimal. */
  function NumberSamples(samples: seq<EventData>): (r: seq<MemorialEvent>)
    ensures |r| == |samples|
    ensures forall i :: 0 <= i < |r| ==> DataOf(r[i]) == samples[i] && r[i].id == DecimalString(i + 1)
  {
    seq(|samples|, i requires 0 <= i < |samples| => WithId(samples[i], DecimalString(i + 1)))
  }

  /** Numbered samples have distinct ids. */
  lemma NumberSamplesDistinctIds(samples: seq<EventData>)
    ensures NoDup(Ids(NumberSamples(samples)))
  {
    var r := NumberSamples(samples);
    forall i, j | 0 <= i < j < |r|
      ensures Ids(r)[i] != Ids(r)[j]
    {
      DecimalStringInjective(i + 1, j + 1);
    }
  }

  class EventStore {
    /** The in-memory collection. */
    var events: seq<MemorialEvent>
    /** What the last flush wrote to storage; `None` before the first flush. */
    ghost var persisted: Option<seq<MemorialEvent>>

    constructor ()
      ensures events == [] && persisted == None
    {
      events := [];
      persisted := None;
    }

    /** Writes the whole collection to storage. */
    method Save()
      modifies this`persisted
      ensures persisted == Some(events)
    {
      persisted := Some(events);
    }

    /** Replaces the collection by the stored one; `stored` is `None` when
        storage holds nothing or what it holds does not parse. The change
        is flushed back like any other. */
    method Load(stored: Option<seq<MemorialEvent>>)
      modifies this
      ensures events == (if stored.Some? then stored.value else [])
      ensures persisted == Some(events)
    {
      if stored.Some? {
        events := stored.value;
      } else {
        events := [];
      }
      Save();
    }

    /** On an empty store, installs `samples` (what the sample provider
        produces) numbered "1", "2", ... by position; a non-empty store is
        left alone. */
    method EnsureSampleData(samples: seq<EventData>)
      modifies this
      ensures |old(events)| == 0 ==> events == NumberSamples(samples) && persisted == Some(events)
      ensures |old(events)| != 0 ==> events == old(events) && persisted == old(persisted)
      ensures |old(events)| == 0 ==> NoDup(Ids(events))
    {
      if |events| == 0 {
        NumberSamplesDistinctIds(samples);
        events := NumberSamples(samples);
        Save();
      }
    }

    /** Appends `data` with the id `id` and returns that id. */
    method AddEvent(data: EventData, id: string) returns (newId: string)
      modifies this
      ensures newId == id
      ensures events == old(events) + [WithId(data, id)]
      ensures persisted == Some(events)
      ensures id !in Ids(old(events)) && NoDup(Ids(old(events))) ==> NoDup(Ids(events))
    {
      var e := WithId(data, id);
      events := events + [e];
      Save();
      MapAppend(old(events), e, IdOf);
      newId := e.id;
    }

    /** Replaces the first event with `updated.id` by a copy of `updated`.
        Reports whether one was found. */
    method UpdateEvent(updated: MemorialEvent) returns (found: bool)
      modifies this
      ensures found == (updated.id in Ids(old(events)))
      ensures found ==>
        events == old(events)[IndexOf(Ids(old(events)), updated.id) := updated] && persisted == Some(events)
      ensures !found ==> events == old(events) && persisted == old(persisted)
      ensures Ids(events) == Ids(old(events))
    {
      var i := IndexOf(Ids(events), updated.id);
      if i > -1 {
        MapUpdate(events, i, updated, IdOf);
        events := events[i := updated];
        Save();
        found := true;
      } else {
        found := false;
      }
    }

    /** Removes the first event with id `id`, keeping the order of the rest.
        Reports whether one was found. */
    method DeleteEvent(id: string) returns (found: bool)
      modifies this
      ensures found == (id in Ids(old(events)))
      ensures found ==>
        events == RemoveAt(old(events), IndexOf(Ids(old(events)), id)) && persisted == Some(events)
      ensures !found ==> events == old(events) && persisted == old(persisted)
      ensures NoDup(Ids(old(events))) ==> NoDup(Ids(events))
    {
      var i := IndexOf(Ids(events), id);
      if i > -1 {
        MapRemoveAt(events, i, IdOf);
        if NoDup(Ids(events)) {
          NoDupRemoveAt(Ids(events), i);
        }
        events := RemoveAt(events, i);
        Save();
        found := true;
      } else {
        found := false;
      }
    }
  }

  /** Seeding twice with the same samples is the same as seeding once: the
      second call finds the store non-empty, or installs the same empty list. */
  method EnsureSampleDataTwice(store: EventStore, samples: seq<EventData>)
    modifies store
    ensures |old(store.events)| == 0 ==> store.events == NumberSamples(samples) && store.persisted == Some(store.events)
    ensures |old(store.events)| != 0 ==> store.events == old(store.events) && store.persisted == old(store.persisted)
  {
    store.EnsureSampleData(samples);
    ghost var once := store.events;
    store.EnsureSampleData(samples);
    assert store.events == once;
  }
}
