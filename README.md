# URL shortener: the in-memory mapping store

This project models `MockURLMapping`, the in-memory store that the URL
shortener uses during development in place of its document database. The
store is one dictionary from short code to mapping record. A record holds the
short code, the original URL, the creation timestamp, a click count, an
`is_active` flag and the creator's IP address, which may be absent. Five
operations work on the dictionary:

- `create_mapping` stores a fresh record under a code and returns it;
- `get_mapping` reports the URL, click count and timestamp of a code, or a miss;
- `increment_clicks` adds one click to a present code;
- `validate_short_code_exists` tests whether a code is present;
- `get_url_stats` returns the whole record, or nothing.

Module `MockDatabase` (`mock_database.dfy`) defines the record and the
lookup result as datatypes. It specifies each operation as a pure function
over the dictionary's value (`Table`). The class `MockURLMapping` holds the
dictionary in its field `storage` and updates it in place. Each method is
proved against the matching function. The unused `_click_counts` dictionary
is the field `clickCounts`. No method may modify it, and none does.

Module `StoreHistory` (`store_history.dfy`) treats a sequence of
`create_mapping` and `increment_clicks` calls as a history and proves the
following about it:

- keys are never removed;
- every record stays under its own code;
- a code's click count grows by exactly the number of its increments until the
  code is created again.

The repository's design notes for the HTTP layer promise a "409 - Custom
alias already exists" error (routes/shorten.py:32) and a test for a
duplicate custom alias (tests/test_shorten.py:16). The store does not back
that promise, and the model follows the store: `create_mapping` has no
collision check, silently replaces an existing record (resetting its click
count to 0) and never fails.

Two further facts about `config/mock_database.py` shape the model:

- nothing reads `is_active`, so a record whose flag were false would still be
  found by `get_mapping`;
- the creation timestamp is always the fixed string `"2025-08-06T10:30:00Z"`.

## Model

| member | source | states |
|---|---|---|
| MockDatabase.Create | config/mock_database.py:10-20 | the new table has the old keys plus the code; the record under the code has the given code, URL and IP, the fixed timestamp, zero clicks and is active; every other key keeps its record; well-formedness is preserved |
| MockDatabase.Increment | config/mock_database.py:36-41 | same keys; a present code's record gains exactly one click and nothing else changes; an absent code leaves the table unchanged; well-formedness is preserved |
| MockDatabase.LookupMapping | config/mock_database.py:22-33 | `exists` holds iff the code is present; a hit reports the stored URL, click count and timestamp; a miss reports no URL and the error "Short code not found" |
| MockDatabase.StatsOf | config/mock_database.py:48-53 | some record iff the code is present, and then exactly the stored record |
| MockDatabase.QueriesAgree | config/mock_database.py:22-53 | the membership test, the `exists` flag of a lookup and the presence of statistics agree; a hit shows the same URL, clicks and timestamp as the statistics |
| MockDatabase.CreateThenLookup | config/mock_database.py:10-53 | right after creating a code, it exists, its lookup is a hit with the new URL, zero clicks and the fixed timestamp, and its statistics are the new record |
| MockDatabase.CreateOverwrites | config/mock_database.py:12-19 | creating a present code keeps the number of keys and resets its clicks to zero; creating an absent code adds exactly one key |
| MockDatabase.MockURLMapping.constructor | config/mock_database.py:4-7 | both dictionaries start empty and the store is well-formed |
| MockDatabase.MockURLMapping.CreateMapping | config/mock_database.py:10-20 | the new storage is `Create` of the old one, so other keys are untouched; the returned record is the stored one, with zero clicks, active, fixed timestamp; `clickCounts` is untouched |
| MockDatabase.MockURLMapping.GetMapping | config/mock_database.py:22-33 | reads without changing anything and returns exactly `LookupMapping` of the storage; on a well-formed store a hit carries the fixed creation timestamp |
| MockDatabase.MockURLMapping.IncrementClicks | config/mock_database.py:35-41 | returns true iff the code was present; the new storage is `Increment` of the old one, so a miss changes nothing and never adds a key |
| MockDatabase.MockURLMapping.ValidateShortCodeExists | config/mock_database.py:43-46 | reads without changing anything and returns exactly whether the code is stored |
| MockDatabase.MockURLMapping.GetUrlStats | config/mock_database.py:48-53 | reads without changing anything and returns exactly `StatsOf` of the storage; on a well-formed store the returned record carries the requested code and the fixed creation timestamp |
| StoreHistory.KeysOnlyGrow | config/mock_database.py:10-41 | after any history of creations and increments, the keys are the old keys plus the created codes, so no key is ever removed |
| StoreHistory.RunPreservesWellFormed | config/mock_database.py:10-41 | every history keeps each record under its own code with the fixed timestamp |
| StoreHistory.ClickCountCountsIncrements | config/mock_database.py:36-41 | if a history does not re-create a code, that code's record is unchanged except that its click count grows by exactly the number of increments of that code |
| StoreHistory.ClickCountMonotone | config/mock_database.py:36-41 | a code's click count never drops unless the code is created again |
| StoreHistory.IncrementsOfCounts | config/mock_database.py:36-41 | a run of n increments of one code counts n increments and creates no code |
| StoreHistory.CreateThenIncrements | config/mock_database.py:10-41 | creating a code and then incrementing it n times leaves its record with the created URL, code and IP, the fixed timestamp, active, and exactly n clicks |
| StoreHistory.IncrementsOfAbsentCode | config/mock_database.py:36-41 | any number of increments of an absent code leave the store unchanged |

## Left out

- The console message of `mock_init_db` (config/mock_database.py:57) is I/O and is not modelled.
- Aliasing: `create_mapping` and `get_url_stats` return the stored dictionary object itself. A caller that mutates it would change the store. The model returns record values instead.
- The Python class keeps `_storage` at class level, so it is shared by the whole process. The model holds it in one `MockURLMapping` object.
- Concurrency and atomicity: the Python dictionary has no locking. The model is sequential.
- `short_code`, `original_url` and `created_by_ip` can be any Python value (the code any hashable one, such as `None`). The model takes a string, a string and an optional string.
- MockInitDb, MockGetCollection: `mock_init_db` returns True and `mock_get_collection` returns "mock_collection"; they are kept as constant functions, with nothing to state beyond the value.
- The Firestore database (config/database.py), the code generator (utils/url_encoder.py), the record model (models/url_mapping.py), the HTTP routes (routes/shorten.py, routes/redirect.py), app.py and the tests hold only design notes with no implementation. They are not part of this model.
- check_deployment.py and setup_dev.py only read and write configuration files and print to the console. They are not part of this model.
