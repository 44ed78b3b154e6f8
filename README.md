# Contact, event and balance stores — a Dafny model

This project models the three in-memory record stores of a personal-reminders
front end.

- The **contact store** (`front/src/store/contacts.ts`) holds a list of
  contacts. It offers create, update, delete and toggle-favourite, plus four
  read-only queries: by category, favourites, case-insensitive search, and
  distinct categories. When a contact with a birthday is created, or a
  contact's birthday changes, it calls into the event store.
- The **event store** (`front/src/store/events.ts`) holds a list of memorial
  events with the same create/update/delete shape. On a first run it is
  seeded with numbered sample events.
- The **user store** (`front/src/store/user.ts`) holds one profile record
  whose balance can be credited, or debited only if the balance covers the
  amount.

Every change is followed by a flush of the whole collection to storage.

Each store is a Dafny class: `Contacts.ContactStore`, `Events.EventStore` and
`User.UserStore`. The collection is a `seq` field that the methods reassign.
Each method's postcondition states the whole new state in terms of the old
one: what was found, which index changed, and that nothing else did. Storage
is a ghost field `persisted`, which holds what the last flush wrote. The
contact store's calls into the event store are recorded in a ghost log,
`birthdayHooks`. The read queries are functions on the contact sequence.

Shared modules hold the pieces these are built from:

- `Seqs`: the JavaScript array primitives `findIndex`, `splice(i, 1)`,
  `map` and `filter`, and the insertion-ordered de-duplication of
  `Array.from(new Set(...))`.
- `Text`: `toLowerCase` and `includes`.
- `Decimal`: `Number.prototype.toString` on naturals, with its inverse.

Things the stores get from the environment become parameters:

- the generated id and the clock reading (`id`, `now`);
- the result of reading storage (`stored: Option<...>`, where `None` means
  nothing is stored or it does not parse);
- the sample-event provider's output (`samples`).

The stores do no birthday synchronization of their own. `MemorialEvent` has
no field linking it to a contact or to attendees, and `events.ts` defines no
birthday operation. The model therefore covers only when the contact store
makes its birthday calls, not what those calls do.

## Model

| member | source | states |
|---|---|---|
| Seqs.IndexOf | front/src/store/contacts.ts:112 | -1 exactly when the id is absent; otherwise the position holds the id and no earlier position does (`findIndex`) |
| Seqs.Map | front/src/store/contacts.ts:175 | `map` keeps the length and applies the function at every position |
| Seqs.MapCons | front/src/store/contacts.ts:175 | the image of a non-empty sequence is the head's image followed by the tail's image |
| Seqs.MapAppend | front/src/store/contacts.ts:100 | after `push`, the id list is the old id list with the new id appended |
| Seqs.MapUpdate | front/src/store/contacts.ts:115-118 | replacing a record by one with the same id leaves the id list unchanged |
| Seqs.MapRemoveAt | front/src/store/contacts.ts:134 | removing the record at `i` removes its id at the same place |
| Seqs.IndexOfCons | front/src/store/contacts.ts:175-176 | the first occurrence in a sequence with a known head is 0 when the head matches, else one past the first occurrence in the tail |
| Seqs.RemoveAt | front/src/store/contacts.ts:134 | `splice(i, 1)` shortens by one, keeps the elements before `i`, shifts those after it down by one, and drops exactly one copy of `s[i]` |
| Seqs.NoDupRemoveAt | front/src/store/events.ts:78 | removing an element keeps distinct ids distinct |
| Seqs.Filter | front/src/store/contacts.ts:154 | `filter` yields an order-preserving subsequence holding every satisfying element as often as the input does, and no other element |
| Seqs.FilterKeepsAll | front/src/store/contacts.ts:165-170 | a predicate true of every element keeps the whole sequence |
| Seqs.FilterAgrees | front/src/store/contacts.ts:165-170 | two predicates that agree on the elements filter alike |
| Seqs.IndexOfAppend | front/src/store/contacts.ts:175 | appending leaves existing first occurrences in place, and places a new element's first occurrence at the end |
| Seqs.Dedup | front/src/store/contacts.ts:175-176 | the insertion-ordered set of the input: no repeats, the same members, ordered by first occurrence |
| Text.LowerChar | front/src/store/contacts.ts:164 | an upper-case Latin or Russian letter becomes its lower-case letter 32 code points up, Ё becomes ё, every other character maps to itself; the result never is a capital |
| Text.Lower | front/src/store/contacts.ts:164 | lowercasing keeps the length and lowers character by character |
| Text.LowerIdempotent | front/src/store/contacts.ts:164-169 | lowering an already lowered string changes nothing |
| Text.Includes | front/src/store/contacts.ts:166-169 | `includes` never holds for a needle longer than the string, and always holds for the empty needle |
| Text.IncludesItself | front/src/store/contacts.ts:166 | every string includes itself |
| Decimal.DigitChar | front/src/store/events.ts:49 | a digit below ten is written as a decimal digit character |
| Decimal.DigitValue | front/src/store/events.ts:49 | reading a digit character gives back the digit that writes it |
| Decimal.DecimalString | front/src/store/events.ts:49 | `(index + 1).toString()`: a non-empty string of digits, no leading zero, that reads back as the number |
| Decimal.DecimalStringInjective | front/src/store/events.ts:49 | different numbers get different id strings |
| Contacts.Stamp | front/src/store/contacts.ts:94-99 | the new record has the given id, `createdAt == updatedAt == now`, and otherwise equals the supplied data |
| Contacts.Truthy | front/src/store/contacts.ts:104 | a birthday (line 104) or category (line 175) is truthy iff it is present and not the empty string |
| Contacts.SampleContacts | front/src/store/contacts.ts:47-84 | the seed is three contacts with the distinct ids "1", "2", "3", `createdAt == updatedAt == now`, each with a birthday and a category and without an avatar |
| Contacts.Toggled | front/src/store/contacts.ts:144-145 | the favourite flag is flipped, `updatedAt` is `now`, and id, creation time and every other field are kept |
| Contacts.ToggledTwice | front/src/store/contacts.ts:141-150 | two toggles give back the original record except for `updatedAt` |
| Contacts.ContactsByCategory | front/src/store/contacts.ts:153-155 | keeps exactly the contacts whose category equals the argument, in order, with multiplicities |
| Contacts.FavoriteContacts | front/src/store/contacts.ts:158-160 | keeps exactly the favourite contacts, in order, with multiplicities |
| Contacts.Matches | front/src/store/contacts.ts:165-170 | the empty query matches every contact; a matching query is no longer than the name or than some present phone, e-mail or notes field |
| Contacts.SearchContacts | front/src/store/contacts.ts:163-171 | keeps a contact iff the lowered query occurs in its lowered name, or in a present phone, e-mail or notes field; the order is kept |
| Contacts.SearchEmptyQueryKeepsAll | front/src/store/contacts.ts:163-171 | an empty query returns the whole collection |
| Contacts.SearchFindsByName | front/src/store/contacts.ts:164-166 | any query that lowers to the lowered name of a contact finds that contact, so its name in any letter case does |
| Contacts.SearchIgnoresQueryCase | front/src/store/contacts.ts:164 | a query and its lowered form give the same result |
| Contacts.CategoryList | front/src/store/contacts.ts:175 | `map(c => c.category).filter(Boolean)` holds exactly the present, non-empty categories, and is no longer than the collection |
| Contacts.CategoryListCounts | front/src/store/contacts.ts:175 | the list never holds the empty string, and holds every other category as many times as it is a contact's category field |
| Contacts.CategoryInFields | front/src/store/contacts.ts:175 | a listed category is the category field of some contact |
| Contacts.CategoryListOrder | front/src/store/contacts.ts:175 | two listed categories' first occurrences in the list come in the order of their first occurrences among the category fields, in both directions |
| Contacts.Categories | front/src/store/contacts.ts:174-177 | each present, non-empty category exactly once, ordered by the position of its first appearance among the contacts' category fields |
| Contacts.ContactStore.constructor | front/src/store/contacts.ts:20 | the store starts empty, with nothing flushed and no event-store calls |
| Contacts.ContactStore.Save | front/src/store/contacts.ts:36-42 | storage afterwards holds the whole in-memory collection |
| Contacts.ContactStore.Load | front/src/store/contacts.ts:22-34 | the collection becomes the stored one, or empty when storage holds nothing or does not parse |
| Contacts.ContactStore.EnsureSampleData | front/src/store/contacts.ts:45-89 | an empty store becomes the three sample contacts, with distinct ids, and is flushed; a non-empty store is untouched; no event-store call |
| Contacts.ContactStore.AddContact | front/src/store/contacts.ts:91-109 | appends exactly the stamped record and returns it; earlier entries are unchanged; a create-birthday call is logged iff the birthday is present and non-empty; a fresh id keeps ids unique |
| Contacts.ContactStore.UpdateContact | front/src/store/contacts.ts:111-129 | if the id is absent: false, and nothing changes. Otherwise true, and only the first match becomes `updated` with `updatedAt := now`. An update-birthday call with `updated` is logged iff the stored birthday differs from the new one |
| Contacts.ContactStore.DeleteContact | front/src/store/contacts.ts:131-139 | if the id is absent: false, and nothing changes. Otherwise the first record with the id is removed and the rest keep their order. No event-store call |
| Contacts.ContactStore.ToggleFavorite | front/src/store/contacts.ts:141-150 | if the id is absent: false, and nothing changes. Otherwise only the first match is toggled. The ids are never changed |
| Contacts.ToggleFavoriteTwice | front/src/store/contacts.ts:141-150 | two toggles with nothing in between report the same result and restore the favourite flag; only `updatedAt` differs |
| Contacts.AddContactAsWritten | front/src/store/contacts.ts:91-109 | as written: the contact is stored and flushed, then the call throws when the birthday is present and non-empty |
| Contacts.UpdateContactAsWritten | front/src/store/contacts.ts:111-129 | as written: an absent id returns false and changes and flushes nothing; otherwise the update is stored and flushed, then the call throws when the birthday changed |
| Contacts.BirthdayHookThrows | front/src/store/contacts.ts:104-106 | a concrete contact with a birthday is stored, yet adding it throws; giving a stored contact a birthday also throws; the corrected store returns the record |
| Events.WithId | front/src/store/events.ts:59 | the new event carries the given id and otherwise equals the supplied data |
| Events.NumberSamples | front/src/store/events.ts:47-50 | sample `i` becomes an event with the sample's data and the id `i + 1` in decimal |
| Events.NumberSamplesDistinctIds | front/src/store/events.ts:47-50 | the seeded ids are pairwise distinct |
| Events.EventStore.constructor | front/src/store/events.ts:19 | the store starts empty with nothing flushed |
| Events.EventStore.Save | front/src/store/events.ts:35-41 | storage afterwards holds the whole in-memory collection |
| Events.EventStore.Load | front/src/store/events.ts:21-33 | the collection becomes the stored one, or empty when storage holds nothing or does not parse |
| Events.EventStore.EnsureSampleData | front/src/store/events.ts:44-55 | an empty store becomes the numbered samples (distinct ids) and is flushed; a non-empty store is untouched |
| Events.EventStore.AddEvent | front/src/store/events.ts:57-63 | appends exactly the data with the new id and returns that id; earlier entries unchanged; a fresh id keeps ids unique |
| Events.EventStore.UpdateEvent | front/src/store/events.ts:65-73 | if the id is absent: false, and nothing changes. Otherwise true, and only the first match becomes `updated`. The ids never change |
| Events.EventStore.DeleteEvent | front/src/store/events.ts:75-83 | if the id is absent: false, and nothing changes. Otherwise the first event with the id is removed, the rest keep their order, and unique ids stay unique |
| Events.EnsureSampleDataTwice | front/src/store/events.ts:44-55 | seeding twice with the same samples ends as seeding once |
| User.DefaultProfile | front/src/store/user.ts:12-17 | the initial profile is the default user's, with balance 0 in RUB |
| User.UserStore.constructor | front/src/store/user.ts:12-17 | the initial profile is the default one: balance 0, currency RUB |
| User.UserStore.SaveUser | front/src/store/user.ts:30-36 | storage afterwards holds the profile |
| User.UserStore.LoadUser | front/src/store/user.ts:19-28 | a stored profile replaces the current one; when storage holds nothing or does not parse, the current profile is kept |
| User.UserStore.AddToBalance | front/src/store/user.ts:39-42 | the balance becomes old balance plus the amount; id, name and currency are kept |
| User.UserStore.SubtractFromBalance | front/src/store/user.ts:44-51 | succeeds iff the balance covers the amount, and then lowers it by exactly the amount. Otherwise it returns false and nothing changes. A non-negative balance never goes negative. Id, name and currency are kept |
| User.AddThenSubtract | front/src/store/user.ts:39-51 | from a non-negative balance, crediting then debiting the same amount succeeds and restores the profile |

## Left out

- Storage and JSON (`localStorage`, `JSON.parse`, `JSON.stringify`): a read is an `Option` parameter and a flush is the ghost `persisted` snapshot. What `JSON.parse` yields is not validated in the source. A stored `null`, or a non-array, would be taken as the collection. The model only admits well-formed stored records.
- Storage write failures, which the source logs and ignores: not modelled. After a flush, `persisted` always equals the in-memory state.
- Vue reactivity (`ref`, deep `watch`): read as "a flush follows every change". That includes the reassignment made by `load`, so `Load` ends with a flush. The watcher's extra, asynchronous second save of the same content is not modelled.
- Id generation (`Date.now()`, `Math.random()`) and clock readings (`toISOString()`): passed in as `id` and `now`.
- Contacts.ContactStore.AddContact: does not require the generated id to be fresh, since nothing in the source checks it. Uniqueness of ids is stated only for the case where the id is fresh. The same holds for Events.EventStore.AddEvent.
- Contacts.ContactStore.EnsureSampleData: uses one `now` for all six timestamps of the seed contacts. The source reads the clock six times, and the readings can differ by a millisecond.
- Text.Lower: lowers only the Latin letters A-Z and the Russian letters А-Я and Ё. Other letters' case mappings, which `toLowerCase` also applies, are not modelled.
- What the birthday hooks `createBirthdayEvent` and `updateBirthdayEvent` do: they are not defined in `events.ts`, so the model only logs when they are called.
- The sample-event provider (`createSampleEvents` from `@/data/sampleEvents`): `@/data/sampleEvents` is not part of this model, so its output is the `samples` parameter.
- Object aliasing: `addContact` returns the same object it stores, and `toggleFavorite` mutates the stored object in place. The model stores values, so a later change made by a caller through the returned reference is not captured.
- User.UserStore.AddToBalance: the balance is an unbounded `int`. JavaScript `number` rounding, fractional amounts and `NaN` are not modelled. The same holds for User.UserStore.SubtractFromBalance.
- Event `budget` and `spent` are modelled as `real`. The store never computes with them.
- `formatCurrency`: formatting through `Intl.NumberFormat` is a library call.
- `front/src/utils/pwa-utils.ts`, `front/src/main.ts`, `front/vite.config.ts`, `test-watch.js` and `application/db/mongo/*.js`: browser cache and notification APIs, app bootstrap, build configuration, a file watcher and database wrappers. None of them is part of the stores.
- The birthday synchronization engine, derived events linked to contacts, the roll-forward sweep, the next-occurrence date rule and the attendee linker: none exist in the source, so none is modelled. Deleting a contact makes no call into the event store.

## Findings

| source | as written | input that shows it | evidently intended | confidence | as-written member | corrected member |
|---|---|---|---|---|---|---|
| front/src/store/contacts.ts:104-106 | `eventsStore.createBirthdayEvent(contact)` is called, but the event store's default export (front/src/store/events.ts:91-99) has no such member. The call throws a TypeError after the contact has been pushed and flushed, so `addContact` never returns it | adding contact data with `birthday: "1990-03-15"` | ask the event store for a birthday event, then return the new contact | high; not executed | Contacts.AddContactAsWritten, Contacts.BirthdayHookThrows | Contacts.ContactStore.AddContact |
| front/src/store/contacts.ts:122-124 | `eventsStore.updateBirthdayEvent(updated)` likewise does not exist, so an update that changes the birthday throws after it has been stored, and `true` is never returned | updating a stored contact with no birthday to `birthday: "1990-03-15"` | tell the event store about the new birthday, then return `true` | high; not executed | Contacts.UpdateContactAsWritten, Contacts.BirthdayHookThrows | Contacts.ContactStore.UpdateContact |
