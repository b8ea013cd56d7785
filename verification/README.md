# A verified model of the realm object store and its neighbours

The news app keeps its articles in Realm. This project models the parts of that code base
that decide something: the engine that creates and updates objects, the iterators of index
sets, the conversion of dates, the range edits of lists, the write wrapper, the walk over
observers, the walk over include paths, and the app's own image cache. It states what each of
them promises, and proves it for all inputs, all runs or all reachable states.

`dafny verify dfyconfig.toml` checks the whole project.

## How it is built

**The database** (`Store`) is tables of rows of cells, with a log of every primitive write.
A binding passes *values*, which are finite trees: scalars, null, managed objects, unmanaged
objects described property by property, and sequences. The schema lists the properties of each
type, their defaults and the primary key.

**The engine** (`Engine`) is `create`, `set_property_value_impl`, `ValueUpdater`,
`List::assign` and `set_if_different` as functions from states to states, with the state they
leave behind also when they raise. `Accessor` is the same as a program: a realm whose database
is updated in place, with the source's loops, each method proved to do what the function says
and to keep the database valid.

**The proofs** about the engine build on each other:

- `Framing`, `FrameProofs`: the names (type and key) in a value tree, and the frame of every
  step. From this follow key safety over whole runs (`Runs`) and that only named objects change.
- `Policies`: `UpdateModified` against `UpdateAll`, by a simulation in which the two databases
  may differ in the lists that are being assigned. `Divergence` has the ways in which the
  policies part when the conditions of the theorem do not hold.
- `Reading`, `Keeping`, `ReadBack`, `Idempotence`: a description of what a created object shows,
  given without reference to the engine; that `create` establishes it; and that updating with
  what is already there writes nothing. `CreateRules` adds when rows are new, that `ForceCreate`
  touches nothing else, and what new rows need.
- `Validation`: a check of a value against the schema and the database, which creates nothing;
  that calls succeed exactly if it has no complaint, and otherwise raise its first one.
- `PropertyWrites`, `BatchWrites`: the same for writes of one property, and of all matches.
- `UnkeyedObjects`: where objects of types without a key end up, policy by policy.
- `Integrity`: over every run, cells keep the types of their columns and no link dangles.
- `ListAssign`: the sequence a list ends up with, and exactly which writes it took.
- `AppSchema`: for the app's own types the conditions of these results hold of every value.

**The rest** is independent: `PropertyTypes`, `IndexSets`, `Timestamps`, `SwiftLists`,
`Transactions`, `Observation`, `IncludePaths`, `ImageCache`.

## Readings of the source

- `unbox<RowExpr>` has no body in the repository. It is read as its signature and its callers
  suggest: a managed object gives its row, anything else is created with the same policy and the
  current row that was passed. `List::add` passes none, so the declared default of 0 applies
  (`RLMAccessor.hpp:82`); the current row matters only for types without a key.
- Rows are only ever appended, so row numbers stay valid.
- A default value that is an object has all its properties, as a freshly made Swift object does;
  so no defaults are consulted inside a default. Objects inside the defaults of absent
  properties count as part of the value wherever a condition speaks of the names in it.
- What the core does with null for a list of optional elements is not in the repository; the
  model raises an exception there.
- Raised exceptions leave the writes made so far in place; undoing them is the business of the
  surrounding transaction.
- The lower guard of `RLMTimestampForNSDate` subtracts the epoch shift where the conversion adds
  it, so it clamps some timestamps that could be represented. `Timestamps.RoundTrip` gives the
  exact set of timestamps that survive.

## Model

| member | source | states |
|---|---|---|
| `Policies.PoliciesAgree` | FinalProject/Pods/Realm/include/object_accessor.hpp:190-305 | For values whose nested objects are of keyed types and name none of their own ancestors, `UpdateModified` and `UpdateAll` raise the same exception with as many rows added, or return the same row and leave the same contents, through all nested links and lists. The object itself may lack a key unless it is to reuse a current row. |
| `Policies.CreateSame` | FinalProject/Pods/Realm/include/object_accessor.hpp:190-305 | The simulation behind it: started in databases that agree except in some cells of rows the value does not name, the two policies end in databases that agree except there. |
| `Policies.UpdateSame` | FinalProject/Pods/Realm/include/object_accessor.hpp:82-98 | Writing a link or scalar always, and writing it only if it differs from what was read before the nested create, come to the same. |
| `Policies.FillSame` | FinalProject/Pods/Realm/include/list.hpp:260-281 | Overwriting a list in place and then trimming it, and clearing and refilling it, come to the same, element by element, although the nested creates run in different databases. |
| `Validation.CreateOutcome` | FinalProject/Pods/Realm/include/object_accessor.hpp:190-305 | Under every policy, for values in which no key is repeated, `create` raises exactly the first complaint of a check that creates nothing and looks keys up in the database as it was before the call; it succeeds if there is none. |
| `Validation.CreateSucceeds` | FinalProject/Pods/Realm/include/object_accessor.hpp:204-297 | It succeeds if and only if the key is there, of its type and, under `ForceCreate`, not taken, a row to be reused exists, and every supplied or default value fits its column, through all nested objects; a required property of a new dictionary object must not be missing or null. Managed objects must exist by the end, and suffice if they exist at the start. |
| `Validation.MissingIsReported` | FinalProject/Pods/Realm/include/object_accessor.hpp:286-294 | If the properties before it can be set, a required property without a value is what the exception names. |
| `Validation.CreateMeets` | FinalProject/Pods/Realm/include/object_accessor.hpp:190-305 | The induction behind it: in any database in which the keys in the value find what they found at the start, the run and the check agree on the exception. |
| `Validation.AcceptsIff` | FinalProject/Pods/Realm/include/object_accessor.hpp:204-297 | The check has no complaint exactly if, property by property and in any order, everything is acceptable. |
| `Divergence.NamedAncestorDiverges` | FinalProject/Pods/Realm/include/object_accessor.hpp:85-89 | A value that names its own ancestor, for which the policies leave different links. |
| `Divergence.UnkeyedTypeDiverges` | FinalProject/Pods/Realm/include/object_accessor.hpp:259-271 | A type without a key, for which one policy reuses the linked or current row and the other adds one. |
| `Idempotence.CreateReadsBack` | FinalProject/Pods/Realm/include/object_accessor.hpp:204-297 | Under every policy, after a successful create of a value in which no key is repeated, the returned row shows every supplied value with all nested objects, every default if it is new, and the rest as before; a key finds it. Objects without a key are new rows (under `UpdateModified`, nested objects have keys). |
| `Idempotence.PropertyRoundTrip` | FinalProject/Pods/Realm/include/object_accessor.hpp:144-178 | Under every policy, reading a property of the object gives back the very scalar, null, managed object or list of these that was supplied. |
| `Idempotence.UnsuppliedUnchanged` | FinalProject/Pods/Realm/include/object_accessor.hpp:281-284 | Under every policy, a property not supplied to an existing object reads as before. |
| `Idempotence.KeyRoundTrip` | FinalProject/Pods/Realm/include/object_accessor.hpp:205-219 | Under every policy the key of the object reads as supplied; failing that, as the default; failing that, as null, which the type then allows. |
| `Idempotence.DefaultRoundTrip` | FinalProject/Pods/Realm/include/object_accessor.hpp:281-297 | Under every policy, a property not supplied to a new object reads as its default; failing that, as empty, null, zero or false. |
| `Idempotence.OnlyNamedObjectsChange` | FinalProject/Pods/Realm/include/object_accessor.hpp:190-305 | Under every policy, returning or raising, rows whose type and key are not named by the value keep their contents. |
| `Idempotence.CreateTwice` | FinalProject/Pods/Realm/include/object_accessor.hpp:87-97 | Without null lists and NaN, repeating a successful create of keyed objects, whatever its policy was, with `UpdateModified` issues no write whatever; repeating it with `UpdateAll` leaves the contents as they are. |
| `Idempotence.CreateAgain` | FinalProject/Pods/Realm/include/object_accessor.hpp:259-262 | The same for `UpdateModified` with objects without keys, at any depth, which are found again by the rows they are linked from. |
| `Idempotence.CreateSettled` | FinalProject/Pods/Realm/include/list.hpp:236-246 | Updating an object, with or without a key, with a value that it already shows leaves state and log untouched. |
| `PropertyWrites.SetPoliciesAgree` | FinalProject/Pods/Realm/include/object_accessor.hpp:44-57 | `set_property_value` with `UpdateModified` and with `UpdateAll` raises the same exception or leaves the same contents, if no object nested in the value lacks a key or names the owner or an ancestor. |
| `PropertyWrites.SetOutcome` | FinalProject/Pods/Realm/include/object_accessor.hpp:44-57 | `set_property_value` raises without a write if and because the row is missing, the property is missing, or the property is the key; otherwise it raises exactly the first complaint about the value. |
| `PropertyWrites.SetSucceeds` | FinalProject/Pods/Realm/include/object_accessor.hpp:44-57 | It succeeds if and only if row and property exist, the property is not the key, and it takes the value. |
| `PropertyWrites.SetPlain` | FinalProject/Pods/Realm/include/object_accessor.hpp:103-142 | Scalars, null, managed objects and lists of these are set, under every policy, if and only if they fit; the property then holds and reads the value, no row is added, and no other cell changes even if it raises. |
| `PropertyWrites.ScalarWrites` | FinalProject/Pods/Realm/include/object_accessor.hpp:82-98 | Setting a scalar is one write, except that `UpdateModified` issues none where the value is held already; NaN counts as different from itself. |
| `PropertyWrites.SetRoundTrip` | FinalProject/Pods/Realm/include/object_accessor.hpp:103-142 | Under every policy, reading the property gives back the value that was set, and all other cells of objects that the value does not name are as before. |
| `PropertyWrites.SetShows` | FinalProject/Pods/Realm/include/object_accessor.hpp:103-142 | Under every policy, the value that was set shows together with all its nested objects. |
| `PropertyWrites.SetTwice` | FinalProject/Pods/Realm/include/object_accessor.hpp:82-98 | Setting the same value again with `UpdateModified` issues no write. |
| `CreateRules.ForceCreateIsNew` | FinalProject/Pods/Realm/include/object_accessor.hpp:244-257 | `ForceCreate` raises without a write when the key is taken, and otherwise returns a row that did not exist. |
| `CreateRules.ForceCreateOnlyAdds` | FinalProject/Pods/Realm/include/object_accessor.hpp:244-271 | `ForceCreate` changes no cell that existed, for types with or without keys, also when it raises in the middle of a nested create. |
| `CreateRules.CreateForced` | FinalProject/Pods/Realm/include/object_accessor.hpp:190-305 | Where `ForceCreate` succeeds, `UpdateAll` takes the very same steps, through all nested values. |
| `CreateRules.NewObjectsAreComplete` | FinalProject/Pods/Realm/include/object_accessor.hpp:286-294 | A new object given as a dictionary has a value or default other than null for every required property. |
| `Runs.KeysStayUnique` | FinalProject/Pods/Realm/include/object_accessor.hpp:44-57 | Over every run of creates, property writes and batch writes, with any policies and whichever calls raise, no key occurs twice in a table, null included, and no existing row changes its key. |
| `Runs.BatchHitsTheMatches` | FinalProject/Pods/Realm/include/results.hpp:336-359 | A scalar batch write sets the value on exactly the rows that matched at the start, once each and in order, even if the query depends on the property; a value of the wrong type writes nothing. |
| `BatchWrites.BatchSetsTheMatches` | FinalProject/Pods/Realm/include/results.hpp:336-359 | For every column but the key, a batch write of scalars, null, managed objects or lists of these succeeds if and only if the value fits or nothing matched; then every row that matched at the start reads the value, and the result is the number of matches. |
| `BatchWrites.BatchShowsTheMatches` | FinalProject/Pods/Realm/include/results.hpp:351-357 | The same with unmanaged objects of types without a key, of which every row gets its own. |
| `BatchWrites.BatchTouchesOnlyTheMatches` | FinalProject/Pods/Realm/include/results.hpp:336-359 | Returning or raising, and for every value, a batch write changes no existing cell but the property in the rows that matched. |
| `BatchWrites.BatchOfOneObjectRaises` | FinalProject/Pods/Realm/include/results.hpp:351-357 | A link to an unmanaged object with a key cannot be given to two rows: the second finds the key taken. |
| `Integrity.NothingDangles` | FinalProject/Pods/Realm/include/object_accessor.hpp:190-305 | From an empty database, over every run of creates, property writes and batch writes, whichever raise, every cell and list item has its column's type and nullability, and every link leads to an existing row. |
| `Integrity.ExecAllTyped` | FinalProject/Pods/Realm/include/results.hpp:336-359 | The same from any database of which it holds. |
| `Integrity.SetPropTyped` | FinalProject/Pods/Realm/include/object_accessor.hpp:103-142 | Setting a property keeps it, also when it raises in the middle of a nested value. |
| `Integrity.InPlaceTyped` | FinalProject/Pods/Realm/include/list.hpp:260-275 | Overwriting a list in place keeps it, although the elements are created while the list is half done. |
| `FrameProofs.CreateFrame` | FinalProject/Pods/Realm/include/object_accessor.hpp:190-305 | Every create writes only rows with a name in its value, adds only such rows under keys new to their table, and keeps all keys. |
| `FrameProofs.SetPropFrame` | FinalProject/Pods/Realm/include/object_accessor.hpp:103-142 | Setting a property writes its own column and rows named in the value, and nothing else. |
| `FrameProofs.AssignFrame` | FinalProject/Pods/Realm/include/list.hpp:249-282 | Assigning a list writes the list and rows named in the value, and nothing else. |
| `ListAssign.AssignHolds` | FinalProject/Pods/Realm/include/list.hpp:249-282 | For scalars, managed objects and objects with keys, none of which names the owner, a successful assignment ends with exactly what the elements denote; the writes of the list are exactly the plan, or a clear and one append per element. |
| `ListAssign.PlanIsMinimal` | FinalProject/Pods/Realm/include/list.hpp:260-275 | The plan turns the old list into the new one with one set per differing common position, max(0, n - sz) additions and max(0, sz - n) removals, and nothing else. |
| `UnkeyedObjects.ListOfNewObjects` | FinalProject/Pods/Realm/include/list.hpp:276-281 | Under an overwriting policy the items for objects without a key are links to rows that are new, different and ascending, each showing the element at its position, with all that is nested in it. |
| `UnkeyedObjects.LinkToNewObject` | FinalProject/Pods/Realm/include/object_accessor.hpp:264-271 | Under an overwriting policy a link to an object without a key leads to a new row that shows it. |
| `UnkeyedObjects.ListInPlace` | FinalProject/Pods/Realm/include/list.hpp:236-275 | Under `UpdateModified` the common positions keep the rows they linked to, and positions beyond the old end link to row 0, which is where the default current row leads; a row that only one element is written into shows it. |
| `UnkeyedObjects.ListInPlaceSucceeds` | FinalProject/Pods/Realm/include/list.hpp:260-275 | That succeeds if and only if every element can be written into its row. |
| `UnkeyedObjects.LinkInPlace` | FinalProject/Pods/Realm/include/object_accessor.hpp:82-98 | Under `UpdateModified` a link to an object without a key keeps its row, which then shows the object, or leads to a new row if there was none. |
| `UnkeyedObjects.LinkInPlaceSucceeds` | FinalProject/Pods/Realm/include/object_accessor.hpp:259-262 | That succeeds if and only if the object can be written into the linked row, or created. |
| `AppSchema.SavingArticles` | FinalProject/FinalProject/Model/Object/News.swift:11-40 | For every article value, `.all` and `.modified` do the same, and saving it again changes nothing. |
| `AppSchema.ArticlesAreSaved` | FinalProject/FinalProject/Model/Object/News.swift:11-40 | Every article whose properties are missing, null or of their types is saved, whatever is in the database; a null source or author is no obstacle. |
| `AppSchema.NewsIsFresh` | FinalProject/FinalProject/Model/Object/News.swift:20-40 | No article value, the default source included, names an object twice. |
| `Accessor.Realm.CreateObject` | FinalProject/Pods/Realm/include/object_accessor.hpp:190-305 | The property loop in place does what the function on states says, for results and exceptions, and for values in which no key is repeated succeeds exactly if the value is acceptable; the database stays valid (typed, without dangling links or repeated keys), no key changes, the returned row has the key of the value, and `ForceCreate` leaves alone all that existed. |
| `Accessor.Realm.FindByKey` | FinalProject/Pods/Realm/include/object_accessor.hpp:334-350 | The first row with the key, or none if no row has it. |
| `Accessor.Realm.SetPropertyImpl` | FinalProject/Pods/Realm/include/object_accessor.hpp:103-142 | The null, list, link and scalar branches in place, as on states; the database stays valid and no key changes. |
| `Accessor.Realm.AssignList` | FinalProject/Pods/Realm/include/list.hpp:249-282 | The choice between doing nothing, clearing, overwriting and refilling, as on states, with a valid database and a typed list at the end. |
| `Accessor.Realm.RefillItems` | FinalProject/Pods/Realm/include/list.hpp:276-281 | The refill loop, as on states; the database is valid at every turn. |
| `Accessor.Realm.OverwriteItems` | FinalProject/Pods/Realm/include/list.hpp:260-275 | The in-place loop and the shrinking tail loop, as on states; both terminate, and the database is valid at every turn. |
| `Accessor.Realm.SetOnResults` | FinalProject/Pods/Realm/include/results.hpp:336-359 | The loop over the snapshot, as on states; the database stays valid and no key changes. With a value without unmanaged objects it succeeds exactly if the value fits or nothing matches. |
| `PropertyTypes.UnpackPack` | FinalProject/Pods/Realm/include/property.hpp:40-61 | Packing a type and its flags into a byte loses nothing, and each flag test reads its own flag. |
| `PropertyTypes.PackUnpack` | FinalProject/Pods/Realm/include/property.hpp:165-191 | Every byte with a valid base type is the code of the type it unpacks to. |
| `PropertyTypes.SameBaseMeansSameBase` | FinalProject/Pods/Realm/include/property.hpp:137-140 | The masked comparison holds exactly when the base types agree. |
| `IndexSets.ChunkIterator.Increment` | FinalProject/Pods/Realm/include/index_set.hpp:277-284 | `++` is one step forward in the flat sequence of ranges, across chunk boundaries and to the end. |
| `IndexSets.ChunkIterator.Decrement` | FinalProject/Pods/Realm/include/index_set.hpp:294-305 | `--` is one step back in the flat sequence, also from the end position. |
| `IndexSets.ChunkIterator.NextChunk` | FinalProject/Pods/Realm/include/index_set.hpp:315-320 | Moves to the flat position after the last range of the chunk. |
| `IndexSets.ChunkIterator.Current` | FinalProject/Pods/Realm/include/index_set.hpp:47-48 | Dereferencing gives the range at the flat position. |
| `IndexSets.ChunkIterator.Equals` | FinalProject/Pods/Realm/include/index_set.hpp:263-268 | Iterators are equal exactly when their flat positions are. |
| `IndexSets.ChunkIterator.ForthAndBack` | FinalProject/Pods/Realm/include/index_set.hpp:277-305 | `--` undoes `++`. |
| `IndexSets.ChunkIterator.BackAndForth` | FinalProject/Pods/Realm/include/index_set.hpp:277-305 | `++` undoes `--`. |
| `IndexSets.PositionsDetermine` | FinalProject/Pods/Realm/include/index_set.hpp:263-320 | A flat position determines chunk and inner position, without empty chunks. |
| `IndexSets.IndexIterator.Increment` | FinalProject/Pods/Realm/include/index_set.hpp:199-207 | `++` drops exactly the first of the remaining indices. |
| `IndexSets.IndexIterator.IsAt` | FinalProject/Pods/Realm/include/index_set.hpp:196-197 | Equality with the end, which ignores the offset, holds exactly when no index remains. |
| `IndexSets.Enumerate` | FinalProject/Pods/Realm/include/index_set.hpp:219-235 | Iterating from begin to end terminates and gives every index of the set once, in strictly ascending order. |
| `IndexSets.IndicesAscend` | FinalProject/Pods/Realm/include/index_set.hpp:192-235 | The indices of ascending disjoint ranges strictly ascend. |
| `IndexSets.IndicesExact` | FinalProject/Pods/Realm/include/index_set.hpp:192-235 | An index is enumerated iff some range contains it. |
| `Timestamps.FromDate` | FinalProject/Pods/Realm/include/RLMUtil.hpp:146-169 | The step-by-step conversion computes the specified timestamp; casts and epoch shift stay within their types. |
| `Timestamps.Unclamped` | FinalProject/Pods/Realm/include/RLMUtil.hpp:159-168 | An unclamped date becomes a valid timestamp (no opposite signs) less than a nanosecond away, on the side of the reference date. |
| `Timestamps.AlwaysValid` | FinalProject/Pods/Realm/include/RLMUtil.hpp:149-168 | Every date becomes a valid timestamp. |
| `Timestamps.Monotone` | FinalProject/Pods/Realm/include/RLMUtil.hpp:149-168 | Earlier dates never become later timestamps, across clamps, reference date and sign correction. |
| `Timestamps.MonotoneDates` | FinalProject/Pods/Realm/include/RLMUtil.hpp:146-169 | The same with the infinities. |
| `Timestamps.RoundTrip` | FinalProject/Pods/Realm/include/RLMUtil.hpp:139-169 | A valid timestamp survives the trip to a date and back iff it is outside the last second and not below the lower guard (or is the clamped value itself). |
| `Timestamps.RoundTripDates` | FinalProject/Pods/Realm/include/RLMUtil.hpp:139-169 | The same with null. |
| `Timestamps.RoundTripInterval` | FinalProject/Pods/Realm/include/RLMUtil.hpp:139-169 | The opposite trip moves an unclamped date by less than a nanosecond. |
| `Timestamps.LowerGuardClampsTooMuch` | FinalProject/Pods/Realm/include/RLMUtil.hpp:156-157 | A representable timestamp that the lower guard clamps. |
| `Timestamps.Extremes` | FinalProject/Pods/Realm/include/RLMUtil.hpp:149-157 | The infinities become the least and greatest valid timestamps, NaN the origin. |
| `Timestamps.EpochCountsDays` | FinalProject/Pods/Realm/include/RLMUtil.hpp:139-169 | The epoch shift is the number of seconds in the days from 1970 to 2001. |
| `SwiftLists.List.ReplaceSubrange` | FinalProject/Pods/RealmSwift/RealmSwift/List.swift:504-513 | Replacing a range is a splice; out of bounds it raises, with the list cut off at the lower bound if only the upper one is out of range. |
| `SwiftLists.List.ReplaceSubrangeForward` | FinalProject/Pods/RealmSwift/RealmSwift/List.swift:672-690 | The older form, which inserts forwards, does exactly the same. |
| `SwiftLists.List.RemoveSubrange` | FinalProject/Pods/RealmSwift/RealmSwift/List.swift:631-636 | Removing a range is a splice with nothing. |
| `SwiftLists.List.RemoveTimes` | FinalProject/Pods/RealmSwift/RealmSwift/List.swift:507-509 | Repeated removal at one place removes the positions from there on. |
| `SwiftLists.List.RemoveFirst` | FinalProject/Pods/RealmSwift/RealmSwift/List.swift:585-594 | Drops the first n, or raises without an edit. |
| `SwiftLists.List.RemoveLast` | FinalProject/Pods/RealmSwift/RealmSwift/List.swift:602-611 | Drops the last n, or raises without an edit. |
| `SwiftLists.List.InsertContents` | FinalProject/Pods/RealmSwift/RealmSwift/List.swift:618-624 | Inserting one by one, each a place further, inserts the sequence. |
| `SwiftLists.List.InsertReversed` | FinalProject/Pods/RealmSwift/RealmSwift/List.swift:510-512 | Inserting in reverse at one place inserts the sequence. |
| `Transactions.Realm.Write` | FinalProject/Pods/RealmSwift/RealmSwift/Realm.swift:212-223 | After any legal block the realm is outside a write transaction, and the data has exactly the edits whose transaction was committed. |
| `Transactions.Realm.RunBlock` | FinalProject/Pods/RealmSwift/RealmSwift/Realm.swift:245-328 | A block's begins, commits, cancels and edits lead to the specified end. |
| `Transactions.FinishIsLasting` | FinalProject/Pods/RealmSwift/RealmSwift/Realm.swift:212-223 | Running step by step gives the data with the edits whose transaction ends in a commit. |
| `Transactions.AllOrNothing` | FinalProject/Pods/RealmSwift/RealmSwift/Realm.swift:212-223 | A block that only edits is all or nothing. |
| `Observation.Info.ForEach` | FinalProject/Pods/Realm/include/RLMObservation.hpp:115-130 | From any info of a proper doubly-linked list the walk terminates and calls the function, position by position, on the predecessors in reverse, then on the info and its successors. |
| `Observation.VisitsEachOnce` | FinalProject/Pods/Realm/include/RLMObservation.hpp:115-130 | That order visits every info exactly once. |
| `IncludePaths.WalkPath` | FinalProject/Pods/Realm/include/keypath_helpers.hpp:73-100 | Deciding by table equality, the walk takes one step after another from the start of the path: each gives a link whose part is appended and whose far side, self-referential backlinks included, is where the next step starts. It returns when the path is used up, and raises the error of the first step that fails. |
| `IncludePaths.Generate` | FinalProject/Pods/Realm/include/keypath_helpers.hpp:58-104 | On success one such chain per path, otherwise the error of the first path that is empty or fails. |
| `IncludePaths.OutcomeIsUnique` | FinalProject/Pods/Realm/include/keypath_helpers.hpp:73-100 | That description of a walk leaves one outcome only. |
| `IncludePaths.EveryPartIsAHop` | FinalProject/Pods/Realm/include/keypath_helpers.hpp:77-100 | Every part of such a chain is a forward link, or a backlink, from where the parts before it lead; only a part without a column stays in place. |
| `IncludePaths.EveryPartIsALink` | FinalProject/Pods/Realm/include/keypath_helpers.hpp:66-104 | If the mapping names a column for every link, every part of every chain is a link from where the parts before it lead. |
| `ImageCache.Downloader.SaveImage` | FinalProject/FinalProject/Model/API/APIManager.DownLoader.swift:44-57 | Saving queues and stores; with sixty keys queued it drops the oldest and its image; without a dictionary it does nothing. |
| `ImageCache.Downloader.ClearImageData` | FinalProject/FinalProject/Model/API/APIManager.DownLoader.swift:59-61 | Clearing removes the dictionary and leaves the queue alone. |
| `ImageCache.Downloader.ConfigStorage` | FinalProject/FinalProject/Model/API/APIManager.DownLoader.swift:63-66 | Resetting empties the dictionary and leaves the queue alone. |
| `ImageCache.RunDescribed` | FinalProject/FinalProject/Model/API/APIManager.DownLoader.swift:42-66 | After every run the queue is the last sixty keys saved, and a URL is stored iff its latest save came after the last clear or reset and no copy of it was evicted by that save or a later one; its data is that of the latest save. |
| `ImageCache.CacheIsBounded` | FinalProject/FinalProject/Model/API/APIManager.DownLoader.swift:44-66 | Over every run at most sixty keys are queued, every stored URL is queued, and at most sixty images are stored. |

## Left out

- Bodies that are not in the repository: index set mutation, schema comparison, object store migrations, notifiers, and the core's tables, which are modelled by what their callers rely on.
- Idempotence.OnlyNamedObjectsChange: objects in the defaults of absent properties count as named also where the object exists and the defaults are not consulted, because the names are those of the value and do not depend on the database. The same holds of the conditions on values.
- UnkeyedObjects.ListInPlace: under `UpdateModified`, what is nested in an object without a key is taken to have keys; deeper objects without a key are written into whatever rows are linked there, which may be shared.
- BatchWrites.BatchOfOneObjectRaises: says nothing of lists, or of objects with keys nested deeper in a value.
- Values in which a key is repeated, or an ancestor named, are covered by the frame, the key safety and the typing of every run, but not by the read-back and success results: there the order of the properties decides.
- Migrations, in which duplicate keys are allowed for a time, and the helpers for permission roles.
- `CreatePolicy::Skip`, which is only used for lookups.
- A managed list other than the list being assigned is represented by its elements, read beforehand.
- Key-value observation callbacks, object lifetimes and reference counting; the function called by the observer walk is taken not to relink the list.
- Floating point: dates are exact reals, and the two zeros of a stored float are one value.
- Integer widths, except in the timestamp conversion, where they matter.
- Commits that fail; what they leave behind is decided in code that is not in the repository.
- The image queue across restarts of the app.
- Networking, decoding, screens, settings and the parts of the bindings that only forward.
