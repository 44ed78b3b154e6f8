/** The contact store: an in-memory list of contact records, flushed to storage
    after every change, with read queries over it. Creating a contact with a
    birthday, or changing a contact's birthday, calls into the event store;
    those calls are recorded in a log and what they do is not modelled. */
module Contacts {
  import opened Wrappers
  import opened Seqs
  import opened Text

  /** A stored contact. Optional fields are `None` when absent. */
  datatype Contact = Contact(
    id: string,
    name: string,
    phone: Option<string>,
    email: Option<string>,
    notes: Option<string>,
    category: Option<string>,
    avatar: Option<string>,
    birthday: Option<string>,
    isFavorite: bool,
    createdAt: string,
    updatedAt: string)

  /** What a caller supplies to create a contact: everything but the id and the
      two timestamps. */
  datatype ContactData = ContactData(
    name: string,
    phone: Option<string>,
    email: Option<string>,
    notes: Option<string>,
    category: Option<string>,
    avatar: Option<string>,
    birthday: Option<string>,
    isFavorite: bool)

  /** A call made into the event store, with the contact passed to it. */
  datatype BirthdayHook =
    | CreateBirthdayEvent(contact: Contact)
    | UpdateBirthdayEvent(contact: Contact)

  /** How a call into the code as written ends: with a value, or with the
      TypeError JavaScript throws when a missing member is called. */
  datatype Outcome<T> = Returned(value: T) | ThrewTypeError

  /** The caller-supplied part of a stored contact. */
  function DataOf(c: Contact): ContactData {
    ContactData(c.name, c.phone, c.email, c.notes, c.category, c.avatar, c.birthday, c.isFavorite)
  }

  /** A new record: the supplied data with its id and both timestamps set. */
  function Stamp(data: ContactData, id: string, now: string): (c: Contact)
    ensures c.id == id && c.createdAt == now && c.updatedAt == now
    ensures DataOf(c) == data
  {
    Contact(id, data.name, data.phone, data.email, data.notes, data.category, data.avatar,
            data.birthday, data.isFavorite, now, now)
  }

  /** The id of a contact. */
  function IdOf(c: Contact): string {
    c.id
  }

  /** The ids of the contacts, position by position. */
  function Ids(cs: seq<Contact>): seq<string> {
    Map(cs, IdOf)
  }

  /** The category field of a contact, present or not. */
  function CategoryOf(c: Contact): Option<string> {
    c.category
  }

  /** The category fields of the contacts, position by position
      (`contacts.map(c => c.category)`). */
  function CategoryFields(cs: seq<Contact>): seq<Option<string>> {
    Map(cs, CategoryOf)
  }

  /** JavaScript truthiness of an optional string: `undefined` and the empty
      string are falsy, every other string is truthy. */
  predicate Truthy(s: Option<string>)
    ensures Truthy(s) <==> s != None && s != Some("")
  {
    s.Some? && s.value != ""
  }

  /** The record after `toggleFavorite`: the flag flipped, `updatedAt` refreshed. */
  function Toggled(c: Contact, now: string): (r: Contact)
    ensures r.isFavorite == !c.isFavorite && r.updatedAt == now
    ensures r.id == c.id && r.createdAt == c.createdAt
    ensures DataOf(r) == DataOf(c).(isFavorite := !c.isFavorite)
  {
    c.(isFavorite := !c.isFavorite, updatedAt := now)
  }

  /** Toggling twice restores the flag; only the timestamp records the change. */
  lemma ToggledTwice(c: Contact, t1: string, t2: string)
    ensures Toggled(Toggled(c, t1), t2) == c.(updatedAt := t2)
  {
  }

  /** The three contacts a first run is seeded with: ids "1", "2" and "3",
      each with a birthday and no avatar; `now` is both timestamps. */
  function SampleContacts(now: string): (r: seq<Contact>)
    ensures Ids(r) == ["1", "2", "3"] && NoDup(Ids(r))
    ensures forall c :: c in r ==> c.createdAt == now && c.updatedAt == now
    ensures forall c :: c in r ==> Truthy(c.birthday) && Truthy(c.category) && c.avatar == None
  {
    [
      Contact("1", "Анна Петрова", Some("+7 (999) 123-45-67"), Some("anna.petrova@example.com"),
              Some("Сестра, день рождения 15 марта"), Some("Семья"), None, Some("1990-03-15"),
              true, now, now),
      Contact("2", "Михаил Иванов", Some("+7 (999) 234-56-78"), Some("mikhail.ivanov@example.com"),
              Some("Коллега по работе"), Some("Коллеги"), None, Some("1985-07-22"),
              false, now, now),
      Contact("3", "Елена Смирнова", Some("+7 (999) 345-67-89"), Some("elena.smirnova@example.com"),
              Some("Лучшая подруга"), Some("Друзья"), None, Some("1992-12-10"),
              true, now, now)
    ]
  }

  // ---------------------------------------------------------------------
  // Read queries
  // ---------------------------------------------------------------------

  /** The contacts whose category is exactly `category`, in stored order. */
  function ContactsByCategory(cs: seq<Contact>, category: string): (r: seq<Contact>)
    ensures IsSubsequence(r, cs)
    ensures forall c :: c in r <==> c in cs && c.category == Some(category)
    ensures forall c :: multiset(r)[c] == if c.category == Some(category) then multiset(cs)[c] else 0
  {
    Filter(cs, (c: Contact) => c.category == Some(category))
  }

  /** The contacts marked as favourite, in stored order. */
  function FavoriteContacts(cs: seq<Contact>): (r: seq<Contact>)
    ensures IsSubsequence(r, cs)
    ensures forall c :: c in r <==> c in cs && c.isFavorite
    ensures forall c :: multiset(r)[c] == if c.isFavorite then multiset(cs)[c] else 0
  {
    Filter(cs, (c: Contact) => c.isFavorite)
  }

  /** An optional field that is present and includes the lowered query once lowered. */
  predicate FieldMatches(field: Option<string>, lowerQuery: string) {
    field.Some? && Includes(Lower(field.value), lowerQuery)
  }

  /** The search condition for one contact: the lowered query occurs in the
      lowered name, or in a present phone, e-mail or notes field. The empty
      query matches everything; a query longer than every field matches nothing. */
  predicate Matches(c: Contact, lowerQuery: string)
    ensures |lowerQuery| == 0 ==> Matches(c, lowerQuery)
    ensures Matches(c, lowerQuery) ==>
              || |lowerQuery| <= |c.name|
              || (c.phone.Some? && |lowerQuery| <= |c.phone.value|)
              || (c.email.Some? && |lowerQuery| <= |c.email.value|)
              || (c.notes.Some? && |lowerQuery| <= |c.notes.value|)
  {
    Includes(Lower(c.name), lowerQuery)
    || FieldMatches(c.phone, lowerQuery)
    || FieldMatches(c.email, lowerQuery)
    || FieldMatches(c.notes, lowerQuery)
  }

  /** Case-insensitive substring search over name, phone, e-mail and notes,
      in stored order. */
  function SearchContacts(cs: seq<Contact>, query: string): (r: seq<Contact>)
    ensures IsSubsequence(r, cs)
    ensures forall c :: c in r <==> c in cs && Matches(c, Lower(query))
    ensures forall c :: multiset(r)[c] == if Matches(c, Lower(query)) then multiset(cs)[c] else 0
  {
    var lowerQuery := Lower(query);
    Filter(cs, (c: Contact) => Matches(c, lowerQuery))
  }

  /** An empty query keeps every contact. */
  lemma SearchEmptyQueryKeepsAll(cs: seq<Contact>)
    ensures SearchContacts(cs, "") == cs
  {
    var lowerQuery := Lower("");
    FilterKeepsAll(cs, (c: Contact) => Matches(c, lowerQuery));
  }

  /** A contact is found by its own name written in any letter case: by any
      query whose lower case is that of the name. */
  lemma SearchFindsByName(cs: seq<Contact>, i: nat, query: string)
    requires i < |cs| && Lower(query) == Lower(cs[i].name)
    ensures cs[i] in SearchContacts(cs, query)
  {
    IncludesItself(Lower(cs[i].name));
  }

  /** The letter case of the query does not matter. */
  lemma SearchIgnoresQueryCase(cs: seq<Contact>, query: string)
    ensures SearchContacts(cs, query) == SearchContacts(cs, Lower(query))
  {
    LowerIdempotent(query);
    var q1, q2 := Lower(query), Lower(Lower(query));
    FilterAgrees(cs, (c: Contact) => Matches(c, q1), (c: Contact) => Matches(c, q2));
  }

  /** A contact's category counts when it is present and not empty. */
  predicate HasCategory(c: Contact, x: string) {
    c.category == Some(x) && x != ""
  }

  /** The present, non-empty categories of the contacts, in stored order,
      repetitions included (`map(c => c.category).filter(Boolean)`). */
  function CategoryList(cs: seq<Contact>): (r: seq<string>)
    ensures |r| <= |cs|
    ensures forall x :: x in r <==> exists i :: 0 <= i < |cs| && HasCategory(cs[i], x)
  {
    if |cs| == 0 then []
    else
      var rest := CategoryList(cs[1..]);
      if Truthy(cs[0].category) then [cs[0].category.value] + rest else rest
  }

  /** The list never holds the empty string, and holds each other category
      as often as it is a contact's category field. */
  lemma {:induction false} CategoryListCounts(cs: seq<Contact>)
    ensures "" !in CategoryList(cs)
    ensures forall x :: x != "" ==> multiset(CategoryList(cs))[x] == multiset(CategoryFields(cs))[Some(x)]
  {
    if |cs| > 0 {
      MapCons(cs, CategoryOf);
      CategoryListCounts(cs[1..]);
    }
  }

  /** Two listed categories come in the order in which they first appear as
      category fields. */
  lemma {:induction false} CategoryListOrder(cs: seq<Contact>, x: string, y: string)
    requires x in CategoryList(cs) && y in CategoryList(cs)
    ensures IndexOf(CategoryList(cs), x) < IndexOf(CategoryList(cs), y) <==>
            IndexOf(CategoryFields(cs), Some(x)) < IndexOf(CategoryFields(cs), Some(y))
  {
    var v, tail := cs[0].category, cs[1..];
    MapCons(cs, CategoryOf);
    var rest := CategoryList(tail);
    if Truthy(v) {
      assert CategoryList(cs) == [v.value] + rest;
      if x != v.value {
        CategoryInFields(tail, x);
        IndexOfCons(v.value, rest, x);
      }
      if y != v.value {
        CategoryInFields(tail, y);
        IndexOfCons(v.value, rest, y);
      }
      IndexOfCons(v, CategoryFields(tail), Some(x));
      IndexOfCons(v, CategoryFields(tail), Some(y));
      if x != v.value && y != v.value {
        CategoryListOrder(tail, x, y);
      }
    } else {
      CategoryInFields(tail, x);
      CategoryInFields(tail, y);
      IndexOfCons(v, CategoryFields(tail), Some(x));
      IndexOfCons(v, CategoryFields(tail), Some(y));
      CategoryListOrder(tail, x, y);
    }
  }

  /** A listed category is some contact's category field. */
  lemma CategoryInFields(cs: seq<Contact>, x: string)
    requires x in CategoryList(cs)
    ensures Some(x) in CategoryFields(cs)
  {
    var i :| 0 <= i < |cs| && HasCategory(cs[i], x);
    assert CategoryFields(cs)[i] == Some(x);
  }

  /** Each present, non-empty category once, in order of first appearance
      among the category fields (`Array.from(new Set(...))`). */
  function Categories(cs: seq<Contact>): (r: seq<string>)
    ensures NoDup(r)
    ensures forall x :: x in r <==> exists i :: 0 <= i < |cs| && HasCategory(cs[i], x)
    ensures forall i, j :: 0 <= i < j < |r| ==>
              IndexOf(CategoryFields(cs), Some(r[i])) < IndexOf(CategoryFields(cs), Some(r[j]))
  {
    var r := Dedup(CategoryList(cs));
    assert forall i, j :: 0 <= i < j < |r| ==>
             IndexOf(CategoryFields(cs), Some(r[i])) < IndexOf(CategoryFields(cs), Some(r[j])) by {
      forall i, j | 0 <= i < j < |r|
        ensures IndexOf(CategoryFields(cs), Some(r[i])) < IndexOf(CategoryFields(cs), Some(r[j]))
      {
        CategoryListOrder(cs, r[i], r[j]);
      }
    }
    r
  }

  // ---------------------------------------------------------------------
  // The store
  // ---------------------------------------------------------------------

  class ContactStore {
    /** The in-memory collection. */
    var contacts: seq<Contact>
    /** What the last flush wrote to storage; `None` before the first flush. */
    ghost var persisted: Option<seq<Contact>>
    /** The calls made into the event store, oldest first. */
    ghost var birthdayHooks: seq<BirthdayHook>

    constructor ()
      ensures contacts == [] && persisted == None && birthdayHooks == []
    {
      contacts := [];
      persisted := None;
      birthdayHooks := [];
    }

    /** Writes the whole collection to storage. */
    method Save()
      modifies this`persisted
      ensures persisted == Some(contacts)
    {
      persisted := Some(contacts);
    }

    /** Replaces the collection by the stored one; `stored` is `None` when
        storage holds nothing or what it holds does not parse. The change
        is flushed back like any other. */
    method Load(stored: Option<seq<Contact>>)
      modifies this
      ensures contacts == (if stored.Some? then stored.value else [])
      ensures persisted == Some(contacts)
      ensures birthdayHooks == old(birthdayHooks)
    {
      if stored.Some? {
        contacts := stored.value;
      } else {
        contacts := [];
      }
      Save();
    }

    /** Seeds an empty store with the sample contacts; a non-empty store is
        left alone. Seeding makes no call into the event store. */
    method EnsureSampleData(now: string)
      modifies this
      ensures |old(contacts)| == 0 ==> contacts == SampleContacts(now) && persisted == Some(contacts)
      ensures |old(contacts)| != 0 ==> contacts == old(contacts) && persisted == old(persisted)
      ensures |old(contacts)| == 0 ==> NoDup(Ids(contacts))
      ensures birthdayHooks == old(birthdayHooks)
    {
      if |contacts| == 0 {
        contacts := SampleContacts(now);
        Save();
      }
    }

    /** Appends a new contact built from `data` with id `id` and both
        timestamps `now`, and asks the event store for a birthday event
        exactly when the contact has a non-empty birthday. */
    method AddContact(data: ContactData, id: string, now: string) returns (c: Contact)
      modifies this
      ensures c.id == id && c.createdAt == now && c.updatedAt == now && DataOf(c) == data
      ensures contacts == old(contacts) + [c]
      ensures persisted == Some(contacts)
      ensures birthdayHooks == old(birthdayHooks) + (if Truthy(c.birthday) then [CreateBirthdayEvent(c)] else [])
      ensures id !in Ids(old(contacts)) && NoDup(Ids(old(contacts))) ==> NoDup(Ids(contacts))
    {
      c := Stamp(data, id, now);
      contacts := contacts + [c];
      Save();
      if Truthy(c.birthday) {
        birthdayHooks := birthdayHooks + [CreateBirthdayEvent(c)];
      }
      MapAppend(old(contacts), c, IdOf);
    }

    /** Replaces the first contact with `updated.id` by `updated` with a
        refreshed `updatedAt`. The event store is told when the birthday
        changed. Reports whether a contact with that id was found. */
    method UpdateContact(updated: Contact, now: string) returns (found: bool)
      modifies this
      ensures found == (updated.id in Ids(old(contacts)))
      ensures found ==>
        var i := IndexOf(Ids(old(contacts)), updated.id);
        && contacts == old(contacts)[i := updated.(updatedAt := now)]
        && persisted == Some(contacts)
        && birthdayHooks == old(birthdayHooks) +
             (if old(contacts)[i].birthday != updated.birthday then [UpdateBirthdayEvent(updated)] else [])
      ensures !found ==>
        contacts == old(contacts) && persisted == old(persisted) && birthdayHooks == old(birthdayHooks)
      ensures NoDup(Ids(old(contacts))) ==> NoDup(Ids(contacts))
    {
      var i := IndexOf(Ids(contacts), updated.id);
      if i > -1 {
        var oldContact := contacts[i];
        MapUpdate(contacts, i, updated.(updatedAt := now), IdOf);
        contacts := contacts[i := updated.(updatedAt := now)];
        Save();
        if oldContact.birthday != updated.birthday {
          birthdayHooks := birthdayHooks + [UpdateBirthdayEvent(updated)];
        }
        found := true;
      } else {
        found := false;
      }
    }

    /** Removes the first contact with id `id`, keeping the order of the rest.
        Reports whether one was found. The event store is not told. */
    method DeleteContact(id: string) returns (found: bool)
      modifies this
      ensures found == (id in Ids(old(contacts)))
      ensures found ==>
        contacts == RemoveAt(old(contacts), IndexOf(Ids(old(contacts)), id)) && persisted == Some(contacts)
      ensures !found ==> contacts == old(contacts) && persisted == old(persisted)
      ensures birthdayHooks == old(birthdayHooks)
      ensures NoDup(Ids(old(contacts))) ==> NoDup(Ids(contacts))
    {
      var i := IndexOf(Ids(contacts), id);
      if i > -1 {
        MapRemoveAt(contacts, i, IdOf);
        if NoDup(Ids(contacts)) {
          NoDupRemoveAt(Ids(contacts), i);
        }
        contacts := RemoveAt(contacts, i);
        Save();
        found := true;
      } else {
        found := false;
      }
    }

    /** Flips the favourite flag of the first contact with id `id` and
        refreshes its `updatedAt`. Reports whether one was found. */
    method ToggleFavorite(id: string, now: string) returns (found: bool)
      modifies this
      ensures found == (id in Ids(old(contacts)))
      ensures found ==>
        var i := IndexOf(Ids(old(contacts)), id);
        contacts == old(contacts)[i := Toggled(old(contacts)[i], now)] && persisted == Some(contacts)
      ensures !found ==> contacts == old(contacts) && persisted == old(persisted)
      ensures birthdayHooks == old(birthdayHooks)
      ensures Ids(contacts) == Ids(old(contacts))
    {
      var i := IndexOf(Ids(contacts), id);
      if i > -1 {
        MapUpdate(contacts, i, Toggled(contacts[i], now), IdOf);
        contacts := contacts[i := Toggled(contacts[i], now)];
        Save();
        found := true;
      } else {
        found := false;
      }
    }
  }

  /** `addContact` and `updateContact` as written, next to an event store that
      exports no `createBirthdayEvent` and no `updateBirthdayEvent`: the hook
      call throws, after the collection has been changed and flushed. */
  method AddContactAsWritten(store: ContactStore, data: ContactData, id: string, now: string)
      returns (outcome: Outcome<Contact>)
    modifies store
    ensures store.contacts == old(store.contacts) + [Stamp(data, id, now)]
    ensures store.persisted == Some(store.contacts)
    ensures outcome == if Truthy(data.birthday) then ThrewTypeError else Returned(Stamp(data, id, now))
  {
    var c := Stamp(data, id, now);
    store.contacts := store.contacts + [c];
    store.Save();
    if Truthy(c.birthday) {
      outcome := ThrewTypeError;
    } else {
      outcome := Returned(c);
    }
  }

  method UpdateContactAsWritten(store: ContactStore, updated: Contact, now: string)
      returns (outcome: Outcome<bool>)
    modifies store
    ensures updated.id !in Ids(old(store.contacts)) ==>
      outcome == Returned(false) && store.contacts == old(store.contacts)
      && store.persisted == old(store.persisted)
    ensures updated.id in Ids(old(store.contacts)) ==>
      var i := IndexOf(Ids(old(store.contacts)), updated.id);
      && store.contacts == old(store.contacts)[i := updated.(updatedAt := now)]
      && store.persisted == Some(store.contacts)
      && outcome == if old(store.contacts)[i].birthday != updated.birthday then ThrewTypeError else Returned(true)
  {
    var i := IndexOf(Ids(store.contacts), updated.id);
    if i > -1 {
      var oldContact := store.contacts[i];
      store.contacts := store.contacts[i := updated.(updatedAt := now)];
      store.Save();
      if oldContact.birthday != updated.birthday {
        outcome := ThrewTypeError;
      } else {
        outcome := Returned(true);
      }
    } else {
      outcome := Returned(false);
    }
  }

  /** Concrete runs of the code as written: adding a contact with a birthday
      stores it and then throws, so the caller never gets the new record, and
      so does giving a stored contact a birthday; the corrected `AddContact`
      returns the record and logs the hook call instead. */
  method BirthdayHookThrows()
      returns (added: Outcome<Contact>, stored: seq<Contact>, corrected: Contact, updated: Outcome<bool>)
    ensures added == ThrewTypeError && |stored| == 1 && stored[0].birthday == Some("1990-03-15")
    ensures corrected == stored[0]
    ensures updated == ThrewTypeError
  {
    var data := ContactData("Анна Петрова", None, None, None, None, None, Some("1990-03-15"), false);
    var now := "2024-06-01T00:00:00.000Z";
    var store := new ContactStore();
    added := AddContactAsWritten(store, data, "a1", now);
    stored := store.contacts;
    var fixedStore := new ContactStore();
    corrected := fixedStore.AddContact(data, "a1", now);
    assert fixedStore.birthdayHooks == [CreateBirthdayEvent(corrected)];
    var other := new ContactStore();
    var plain := AddContactAsWritten(other, data.(birthday := None), "b1", now);
    assert Ids(other.contacts) == ["b1"];
    updated := UpdateContactAsWritten(other, plain.value.(birthday := Some("1990-03-15")), now);
  }

  /** Toggling the same contact twice, with nothing in between, restores its
      favourite flag; its record differs only in `updatedAt`. */
  method ToggleFavoriteTwice(store: ContactStore, id: string, t1: string, t2: string)
      returns (first: bool, second: bool)
    modifies store
    ensures first == second == (id in Ids(old(store.contacts)))
    ensures first ==>
      var i := IndexOf(Ids(old(store.contacts)), id);
      store.contacts == old(store.contacts)[i := old(store.contacts)[i].(updatedAt := t2)]
    ensures !first ==> store.contacts == old(store.contacts)
  {
    ghost var before := store.contacts;
    first := store.ToggleFavorite(id, t1);
    second := store.ToggleFavorite(id, t2);
    if first {
      ToggledTwice(before[IndexOf(Ids(before), id)], t1, t2);
    }
  }
}
