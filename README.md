# signal-atak-bot: identifier registry and CoT event, in Dafny

The bot sends a Cursor-on-Target ("CoT") location report for an enemy
ground unit to a TAK server every five seconds. This project models the two
parts of `bot.py` that hold logic of their own and proves what they promise:

- **The identifier registry** (`uid_registry.dfy`, module `UidRegistry`).
  It is a table from a base identifier to a count, kept in the counter file
  `uid_counts_dict.json`. The module-level table `uid_counts` and the file
  are the fields of class `Registry`. The constructor is the load at import
  time. `GenerateUniqueUid` is `generate_unique_uid`: a missing base starts
  at 0, its count goes up by one, the whole table overwrites the file, and
  `base-count` is returned. The file is an abstract `FileState`: absent,
  present but not parseable, or present with a parsed table. Loading yields
  the empty table in the first two cases. Successive mints, and successive
  runs of the program that each reload the file, are also functions
  (`MintAll`, `Runs`). The lemmas about them prove that the same base yields
  `b-1`, `b-2`, … and that, as long as only the program writes the counter
  file, no identifier is ever minted twice. That holds across bases too,
  because the text after the last dash is always digits.
- **Decimal numerals** (`decimal.dfy`, module `Decimal`). `NatToString` is
  how the f-string in `generate_unique_uid` writes a count. `ValueOf` is its
  inverse.
- **The CoT event** (`cot_event.dfy`, module `CotEvent`). `GenCot` is
  `gen_cot` returning the ElementTree element it builds: an `event` element
  with fixed attributes, a `point` child, and a `detail` child that holds a
  `contact` and a `note`. The three `pytak.cot_time` calls become three clock
  readings plus a formatting function, all passed in. `ReadReport` reads the
  varying fields back out of an event. The round-trip lemma proves that every
  value given to `gen_cot` comes back out.

Loading does not always fall back to the empty table. `load_uid_counts`
(bot.py:17-20) catches only `json.JSONDecodeError`, so a file that exists but
cannot be opened, or whose bytes do not decode as text, raises. The model
covers only the cases that do not raise; the others are listed under
"Left out".

## Model

| member | source | states |
|---|---|---|
| `Decimal.NatToString` | bot.py:39 | a count is written as a non-empty string of digits with no leading zero ("0" only for 0) |
| `Decimal.ValueOfNatToString` | bot.py:39 | reading the written count back as decimal gives the count |
| `Decimal.NatToStringInjective` | bot.py:39 | different counts are written differently |
| `UidRegistry.Load` | bot.py:13-21 | a missing file, or a file that does not parse, loads as the empty table; otherwise the parsed table is loaded |
| `UidRegistry.Written` | bot.py:24-27 | saving replaces the file's contents with the whole table, and loading that file yields exactly that table |
| `UidRegistry.Bump` | bot.py:35-37 | after a mint the base's count is its old count plus one (1 if it was missing); the key set grows by at most that key; every other key keeps its count; no count decreases |
| `UidRegistry.UidOf` | bot.py:39 | an identifier is the base, then a dash, then digits whose value is the count |
| `UidRegistry.SplitUidOf` | bot.py:39 | the last dash of an identifier is the one after the base, so the base and the count can be read back from the identifier |
| `UidRegistry.UidOfInjective` | bot.py:39 | two identifiers are equal only when they have the same base and the same count, even if a base itself contains dashes |
| `UidRegistry.NextId` | bot.py:33-39 | a mint returns base-(new count), and `base + "-1"` for a base the table lacks |
| `UidRegistry.Registry.constructor` | bot.py:30 | at import the table is what loading the counter file yields |
| `UidRegistry.Registry.Save` | bot.py:24-27 | the file afterwards holds the whole in-memory table, whatever it held before; the table is unchanged |
| `UidRegistry.Registry.GenerateUniqueUid` | bot.py:33-39 | the table becomes its one-key update; the file already holds the new table when the identifier is returned; the identifier is base-(new count) |
| `UidRegistry.StartAndMint` | bot.py:30-39 | loading at import and then minting once returns the identifier and leaves the file that the functional `Run` describes; reloading that file gives the bumped table |
| `UidRegistry.Run` | bot.py:30-39 | one run of the program: the load at import, the single mint in `main`, and the file it leaves, which always holds a parsed table and loads as the bumped table; the identifier is base-(loaded count + 1) |
| `UidRegistry.MintAll` | bot.py:35-39 | repeated mints on one table: one identifier per mint, and the final table keeps every key with a count at least as large |
| `UidRegistry.Runs` | bot.py:13-39 | runs of the program one after another, each reloading the file the previous one wrote: one identifier per run, the first being what a single run from the starting file mints, and after at least one run the file holds a parsed table |
| `UidRegistry.MintAllIds` | bot.py:35-39 | the i-th of successive mints returns base-(starting count + mints of that base so far) |
| `UidRegistry.MintAllCounts` | bot.py:35-37 | after successive mints each key's count has grown by the number of times it was minted; no key is lost and the only new keys are minted bases |
| `UidRegistry.SuccessiveMints` | bot.py:35-39 | minting a base the table lacks, again and again, returns b-1, b-2, b-3, … |
| `UidRegistry.MintAllNeverRepeats` | bot.py:35-39 | successive mints on one table never return the same identifier twice, whatever the bases |
| `UidRegistry.RunsAreMints` | bot.py:13-39 | runs that each reload the file the previous run wrote mint exactly what successive mints on one table would, so counts survive a restart |
| `UidRegistry.RunsNeverRepeat` | bot.py:13-39 | while only the program writes the counter file, no run mints an identifier that an earlier run minted |
| `UidRegistry.FirstAndSecondRun` | bot.py:13-39 | with no counter file, two runs with base "enemy" mint "enemy-1" and then "enemy-2" |
| `UidRegistry.CorruptFileReusesUid` | bot.py:15-21 | once the counter file no longer parses, the next run mints the same identifier the first run minted |
| `CotEvent.EventAttributes` | bot.py:44-53 | the event has exactly version, type, uid, how, time, start and stale; version is "2.0", type is "a-h-G-U" and how is "m-g"; uid and the three times are as supplied |
| `CotEvent.Point` | bot.py:55-63 | the point has exactly lat, lon, hae, ce and le; lat and lon are copied as given, without validation; hae, ce and le are "10.0" |
| `CotEvent.Contact` | bot.py:66-70 | the contact has exactly type "v", name equal to the uid, category "Enemy" and droid "ANDROID-1234567890" |
| `CotEvent.Note` | bot.py:72-73 | the note's text is "Enemy " followed by the uid |
| `CotEvent.Detail` | bot.py:65-73 | the detail has no attributes and two children, the contact and then the note, and each can be found by its tag |
| `CotEvent.GenCot` | bot.py:42-73 | the event element and its fixed attributes; time and start are the clock readings as taken; stale is its reading moved 300 seconds ahead; the children are the point and then the detail |
| `CotEvent.ReadReportOfGenCot` | bot.py:44-63 | reading the uid, the position and the three times back out of a built event returns exactly the values supplied |
| `CotEvent.GenCotInjective` | bot.py:44-68 | events built from different uids or positions differ |
| `CotEvent.SingleReading` | bot.py:49-53 | when the clock readings coincide, time equals start and stale is 300 seconds after it |

## Left out

- `MySender.run`, `MySender.handle_data`, `MyReceiver.run` and `MyReceiver.handle_data` (bot.py:78-114) are not modelled. They are endless asyncio loops over pytak queues, and besides that they only do a UTF-8 encode or decode and log.
- `main` (bot.py:117-144) is not modelled. It reads configuration from the environment, sets up pytak's `CLITool` and runs the tasks. Only its call to `generate_unique_uid`, after the load at import, is kept, as `StartAndMint`.
- The command-line parsing (bot.py:147-161) is not modelled.
- `ET.tostring` (bot.py:75) is not modelled: the model stops at the element tree. XML serialisation, escaping, and parsing the text back are library behaviour.
- `pytak.cot_time` is not modelled. Its clock readings are inputs and its ISO-8601 formatting is a function parameter. The model assumes that it moves the reading forward by the given number of seconds.
- Real file I/O and JSON are not modelled. The file is an abstract `FileState`, and "does not parse" is the single `Malformed` case.
- `Load` is total. In the source, a file that exists but cannot be opened, or whose bytes do not decode as text, raises, because only `json.JSONDecodeError` is caught. The model has no such error.
- `Table` maps only to natural numbers. A file holding valid JSON that is not an object of non-negative integers (a list, a negative count, a float) loads into something the model's table cannot represent. Minting from such a table can then fail or produce other text.
- A failing save is not modelled. Opening the file for writing (bot.py:26) empties it before `json.dump` runs, so a dump that raises leaves the file empty or malformed, and the next load reads it as the empty table.
- The order of attributes is not modelled. ElementTree keeps attributes in insertion order and `ET.tostring` writes them in that order; the model's `attrib` is a `map`, which has none.
- Strings with lone surrogates are not modelled. A Python `str` can hold them (a base from undecodable command-line bytes, or a JSON key such as "\ud800"); a Dafny `char` cannot.
- Several processes sharing the counter file, and a crash in the middle of a write, are not modelled. Both are outside one run's sequential behaviour.
