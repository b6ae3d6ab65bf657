# cotton: the JSON output encoder, the JSON logger and the dummy Unix sandbox

cotton is a command-line tool that manages program sandboxes ("boxes"). A
box is a numbered directory under a base path. A sandbox object keeps its
limits and redirections and can be saved to and restored from an archive.
The CLI reports every outcome through a logger. In JSON mode that report is
a single envelope object `{"result": ..., "errors": [...], "warnings": [...]}`,
which the Node.js binding parses.

This project models two parts of the tool in Dafny and proves properties
about them.

- **`json.dfy`, module `Json`: the `to_json` encoder family.**
  - A `Value` datatype stands for the C++ argument types that `to_json` has
    overloads for. `ToJson` is the overload resolution.
  - Integers are encoded as their decimal `std::to_string` form.
  - Strings go through the two `replace_all` passes and are then quoted. The
    passes are proved equal to a per-character `Escape`, whose inverse
    `Unescape` gives a round trip.
  - A C++ `std::string` holds bytes and a Dafny `string` holds characters.
    Escaping is not affected: in UTF-8 no byte of a multi-byte character
    equals `\` or `"`, so those two are escaped the same either way.
  - `to_json_arr` and the vector-of-pairs `to_json_obj` are loops. They are
    modelled as methods (`ToJsonArr`, `PairsToJsonObjAsWritten`) whose
    loops are proved against the specification functions `Join`,
    `ArrayOf` and `Terminated`.
  - The variadic `to_json_obj`/`to_json_obj_rec` is recursion (`ObjRec`),
    proved equal to `"{" + Join(members) + "}"`.
- **`logger.dfy`, module `Logger`: the two loggers.**
  - `JsonLogger` is a class with the `result_`, `errors` and `warnings`
    fields. Its `Error`/`Warning` methods append and its `Result*`
    methods overwrite.
  - Its `Write` returns the envelope line, specified by `Envelope`. The shape
    lemmas spell out the exact text of entries, rows and the envelope.
  - `TtyLogger` only carries the two facts that matter to the rest of the
    tool: it is the TTY logger and its final write emits nothing.
- **`box.dfy`, modules `Bits` and `Box`: what all sandbox implementations
  share.**
  - The box directory name `<bp>/box_<id>/`, with injectivity and
    prefix-freedom.
  - The 17 feature-mask constants, proved to be pairwise disjoint single
    bits. `or` of masks is set union and `and` tests membership.
  - The "not implemented" report (code 254).
  - `serror` (a message followed by `": "` and the C library's text for an
    errno).
  - The archive order of the base record (id, then base path), with its
    round trip.
  - The `box_creators` registry, as a class over a map.
- **`dummy_unix_sandbox.dfy`, module `DummyUnix`: the dummy Unix sandbox.**
  - The class keeps the record of limits, redirections and measurements as
    one `BoxRecord` value, plus the calls made to the error and warning
    handlers. Setters, getters and redirections update and read that
    record.
  - `create_box(limit)` is modelled over an abstract view of the box
    directories (`BoxDirs`). For each id the view says whether the entry is
    missing, a directory (locked or not) or something else. It also gives the
    errno with which `mkdir` fails and the errno with which the exclusive
    creation of the lock file fails.
  - `ClaimBox` is the loop. It is proved against the specification function
    `Search`, and `Search` is characterised by `FirstUnskipped`, the
    first id that is not passed over, and by `LockWarnings`, the warnings
    for the ids passed over on the way.

Calls into the operating system are parameters:
- `open` is a function from a path and mode to an errno, with 0 meaning
  success.
- `rm_rf` is a function from a path to its return value.
- `strerror` is a function from an errno to its text.
- The directory view of `create_box` is a value passed in and returned.

The C++ source has two definitions of `DummyUnixSandbox` that do not agree:
headers/DummyUnixSandbox.hpp and an inline class in
src/DummyUnixSandbox.cpp. The model merges them into one state:
- The field set, the initial zeros, the accessors and the archive order come
  from the header.
- `create_box`, the redirections and `delete_box` come from the `.cpp`,
  which holds their only bodies.
- The model's getter is the header's `get_memory_limit`, which returns the
  stored limit. The `.cpp` version, which returns the feature constant,
  is kept as `GetMemoryLimitAsWritten` (see Findings).
- For `get_features`, the header's set is the sandbox's feature set
  (`Features`). The `.cpp` set is kept beside it (`FeaturesOutOfLine`).

## Model

| member | source | states |
|---|---|---|
| Json.NatToDecimalRoundTrip | headers/simple_json.hpp:12-15 | the decimal digits of a natural number read back as that number |
| Json.NatToDecimalInjective | headers/simple_json.hpp:12-15 | distinct natural numbers have distinct decimal forms |
| Json.IntToDecimalRoundTrip | headers/simple_json.hpp:12-15 | `std::to_string` of an integer (optional minus sign, then digits) parses back to that integer |
| Json.TwoPassesAreEscape | src/simple_json.cpp:11-13 | replacing `\` first and `"` second equals escaping each character on its own: the backslashes inserted before quotes are not doubled |
| Json.StringToJson | src/simple_json.cpp:10-16 | the encoding starts and ends with `"` and what lies between is the per-character escape of the input |
| Json.StringToJsonLength | src/simple_json.cpp:11-15 | the encoding has length \|s\| + 2 + the number of backslashes + the number of double quotes |
| Json.EscapeKeepsPlainText | src/simple_json.cpp:11-15 | a string with no backslash and no double quote, control characters included, passes through unchanged |
| Json.PlainStringToJson | src/simple_json.cpp:14 | such a string is only put between double quotes |
| Json.StringToJsonRoundTrip | src/simple_json.cpp:11-15 | decoding the encoding by the inverse rule gives back the input |
| Json.StringToJsonInjective | src/simple_json.cpp:11-15 | distinct strings have distinct encodings |
| Json.ToJson | src/simple_json.cpp:4-21 | booleans give `true`/`false`; integers give text that parses back to them; strings give text that decodes back to them; raw strings are returned unchanged; vectors give a bracketed text |
| Json.VecIsArray | headers/simple_json.hpp:38-41 | `to_json` on a vector is `to_json_arr` with the element-wise `to_json` |
| Json.ToJsonArr | headers/simple_json.hpp:28-36 | the loop yields `[`, the converted elements in input order joined by `, `, then `]` |
| Json.JoinAppend | headers/simple_json.hpp:31-34 | joining two non-empty lists is joining each with one separator between: the order is kept |
| Json.JoinLength | headers/simple_json.hpp:31-34 | n ≥ 1 elements are joined with exactly n − 1 separators |
| Json.ArrayOfLength | headers/simple_json.hpp:29-35 | the empty array is exactly `[]`; n ≥ 1 elements give the elements' lengths + 2(n − 1) + 2 |
| Json.ArrayOfAppend | headers/simple_json.hpp:29-35 | one more element lands at the end, after a `, ` when there were others |
| Json.ObjRecIsJoin | headers/simple_json.hpp:43-49 | with no arguments `to_json_obj_rec` is empty; otherwise it is the members `key: value` in argument order joined by `, `, then exactly one `}` |
| Json.ToJsonObj | headers/simple_json.hpp:51-54 | the variadic object is `{`, the members in argument order joined by `, `, and `}` |
| Json.ObjOfTwo | headers/simple_json.hpp:51-54 | a two-member object is `{m1, m2}` |
| Json.ObjOfThree | headers/simple_json.hpp:51-54 | a three-member object is `{m1, m2, m3}` |
| Json.PlainObjOfTwo | headers/simple_json.hpp:51-54 | with keys that need no escaping, a two-member object is `{"k1": v1, "k2": v2}` |
| Json.PlainObjOfThree | headers/simple_json.hpp:51-54 | the same for three members |
| Json.TerminatedIsJoinThenSeparator | headers/simple_json.hpp:59-62 | writing `, ` after every element is the join followed by one extra `, ` |
| Json.AsWrittenStep | headers/simple_json.hpp:61 | each member is at least four characters long, so the text is always longer than the pair count and the test on line 61 always appends `, ` |
| Json.PairsToJsonObjAsWritten | headers/simple_json.hpp:56-64 | the loop as written yields `{`, every member followed by `, `, then `}` |
| Json.PairsAsWrittenTrailingSeparator | headers/simple_json.hpp:61 | for every non-empty input the as-written output is `{` + the joined members + `, }`, which differs from the variadic object of the same pairs |
| Json.PairsToJsonObj | headers/simple_json.hpp:56-64 | with the separator test on the pair count, the loop yields `{` + the joined members + `}`, which equals the variadic object on every non-empty input |
| Logger.DiagnosticJson | src/logger.cpp:76-78 | an error or warning entry is a braced object |
| Logger.DiagnosticJsonShape | src/logger.cpp:76-78 | the entry is exactly `{"code": <decimal>, "message": <encoded string>}` |
| Logger.DiagnosticsJson | src/logger.cpp:81-82 | the entries form a bracketed array |
| Logger.DiagnosticAppended | src/logger.cpp:81-82 | one more diagnostic adds its entry at the end of the array, so entries stay in insertion order |
| Logger.NoDiagnostics | src/logger.cpp:81-82 | no diagnostics give `[]` |
| Logger.BoxInfoJson | src/logger.cpp:67-73 | a sandbox row is a braced object |
| Logger.BoxInfoJsonShape | src/logger.cpp:67-73 | the row is exactly `{"name": <string>, "overhead": <decimal>, "features": [<string>, ...]}` |
| Logger.Envelope | src/logger.cpp:79-83 | the envelope is a braced object |
| Logger.EnvelopeShape | src/logger.cpp:79-83 | the envelope is exactly `{"result": <result through the string encoder>, "errors": [...], "warnings": [...]}`, keys in that order |
| Logger.QuotedWord | headers/logger.hpp:41 | the words `null`, `true` and `false` come out of the string encoder as `"null"`, `"true"`, `"false"` |
| Logger.FreshEnvelope | headers/logger.hpp:41-43 | a logger that was given nothing writes the string `"null"` and two empty arrays |
| Logger.StoredBoolIsQuoted | src/logger.cpp:80 | a stored boolean result reaches the wire as the JSON string `"true"` or `"false"` |
| Logger.JsonLogger.constructor | headers/logger.hpp:41-43 | a new logger holds `null` and two empty lists |
| Logger.JsonLogger.IsTtyLogger | headers/logger.hpp:45 | the JSON logger is not the TTY logger |
| Logger.JsonLogger.Error | src/logger.cpp:42-44 | the error is appended at the end; warnings and result are unchanged |
| Logger.JsonLogger.Warning | src/logger.cpp:45-47 | the warning is appended at the end; errors and result are unchanged |
| Logger.JsonLogger.ResultBool | src/logger.cpp:48-50 | the result becomes `true` or `false`, replacing the previous one; the lists are unchanged |
| Logger.JsonLogger.ResultSize | src/logger.cpp:51-53 | the result becomes the number's decimal text, which parses back to the number; the lists are unchanged |
| Logger.JsonLogger.ResultString | src/logger.cpp:54-56 | the result becomes the string's encoding, which decodes back to it; the lists are unchanged |
| Logger.JsonLogger.ResultPairs | src/logger.cpp:57-59 | the result becomes the pair-list encoder's output as written: `{}` for no pairs, otherwise `{` + the joined members + `, }`; the lists are unchanged |
| Logger.JsonLogger.ResultBoxes | src/logger.cpp:66-74 | the result becomes the array of sandbox rows in input order |
| Logger.JsonLogger.Write | src/logger.cpp:75-84 | the line written is the envelope of the current state and a newline; the logger is not changed |
| Logger.TtyLogger.IsTtyLogger | headers/logger.hpp:30 | the console logger is the TTY logger |
| Logger.TtyLogger.Write | headers/logger.hpp:37 | the console logger's final write emits nothing |
| Bits.SingleBitsMeet | headers/box.hpp:30-47 | two single bits below position 17 overlap exactly when they are the same bit |
| Bits.OrMeets | headers/box.hpp:29 | a bit is in the `or` of two masks exactly when it is in one of them (`or` is set union) |
| Box.BoxBasePath | headers/box.hpp:53-59 | the directory name starts with the base path and ends with `/` |
| Box.BoxIdOfBoxBasePath | headers/box.hpp:55 | the id can be read back out of the directory name |
| Box.BoxBasePathInjective | headers/box.hpp:55 | two ids share a directory name exactly when they are equal |
| Box.BoxBasePathPrefixFree | headers/box.hpp:55 | no box directory name is a prefix of another's, because the decimal id is closed by `/` |
| Box.BitIndex | headers/box.hpp:30-47 | every feature has a bit position below 17 |
| Box.FeatureBit | headers/box.hpp:30-47 | each constant is the single bit at its feature's position |
| Box.FeatureBitsDisjoint | headers/box.hpp:30-47 | two constants share a bit exactly when they are the same feature, so `and` with a constant tests membership |
| Box.NotImplemented | headers/box.hpp:67-70 | an unimplemented operation reports code 254 |
| Box.Serror | src/util.cpp:10-12 | the message is the base text, then `: ` and the reason |
| Box.SerializeBase | headers/box.hpp:177-180 | the base record is archived as two items |
| Box.BaseRoundTrip | headers/box.hpp:177-180 | the id is written first and the base path second, and reading reverses it whatever follows |
| Box.BuiltinCreators | src/DummyUnixSandbox.cpp:177 | the implementations register under exactly the names `DummyUnixSandbox` and `NamespaceSandbox`; the second registers at src/NamespaceSandbox.cpp:31 and only in a Linux build (line 1), which is the build modelled |
| Box.RegistrationsCommute | headers/box.hpp:11-14 | registrations under distinct names commute, so the order of the two registrations does not matter |
| Box.BoxCreators.constructor | headers/box.hpp:184-186 | the registry starts empty |
| Box.BoxCreators.Register | headers/box.hpp:11-14 | the name now maps to the implementation; every other name keeps its entry |
| Box.BoxCreators.RegisterBuiltins | src/NamespaceSandbox.cpp:31 | start-up in a Linux build adds the two built-in names to the registry (the other registration is at src/DummyUnixSandbox.cpp:177) |
| Box.BoxCreators.CreatorFor | headers/box.hpp:184-187 | a name has a creator exactly when it was registered, and it is the registered one |
| DummyUnix.FeaturesMembership | headers/DummyUnixSandbox.hpp:69-74 | testing the mask against a feature's bit answers exactly whether the feature is among the eleven the sandbox advertises |
| DummyUnix.FeaturesOfNote | headers/DummyUnixSandbox.hpp:69-74 | the mask includes I/O redirection, return code and signal, and excludes folder mount, clearable and process isolation |
| DummyUnix.FeatureDefinitionsDiffer | src/DummyUnixSandbox.cpp:30-34 | the out-of-line mask is the header's without the return-code and signal bits |
| DummyUnix.Root | headers/DummyUnixSandbox.hpp:78-80 | the root lies inside the box's own directory |
| DummyUnix.RootOutsideOtherBoxes | headers/DummyUnixSandbox.hpp:78-80 | a box's root lies in no other box's directory |
| DummyUnix.Made | src/DummyUnixSandbox.cpp:39 | making a missing directory changes only that id's entry |
| DummyUnix.FirstUnskipped | src/DummyUnixSandbox.cpp:37-54 | the first id in range that is not passed over: every id before it is passed over |
| DummyUnix.SearchSkips | src/DummyUnixSandbox.cpp:44-54 | at an id that is not a directory, already locked, or whose lock cannot be created, the search goes on with the next id; in the last case it first warns with code 4 and the errno text |
| DummyUnix.SearchStops | src/DummyUnixSandbox.cpp:39-56 | at any other id the search stops with no warning: with error 4 and 0 when `mkdir` fails, otherwise by claiming that id and locking it |
| DummyUnix.WarningAt | src/DummyUnixSandbox.cpp:50-54 | an id gives one warning exactly when its directory exists or can be made, is not locked, and its lock file cannot be created for a reason other than that it exists |
| DummyUnix.LockWarningsAgree | src/DummyUnixSandbox.cpp:50-54 | the warnings for a range of ids depend only on the entries in that range |
| DummyUnix.SearchOutcome | src/DummyUnixSandbox.cpp:35-60 | for every start and limit: the result is the first id not passed over if its directory can be made, 0 with the `mkdir` error if it cannot, and 0 with "Could not find a free box id!" if every id below the limit is passed over or the range is empty (`create_box(0)` and `create_box(1)`); the warnings are exactly one per id passed over whose lock file could not be created, in increasing order of id |
| DummyUnix.SearchKeepsEntries | src/DummyUnixSandbox.cpp:37-57 | the search never removes a directory or a lock: every existing entry except the claimed one is unchanged, as is every entry below the starting id; every missing directory passed over is made and left unlocked; no entry after the id where the search stops or claims is touched, nor the id whose `mkdir` fails, nor the entry at `limit` when no id is free |
| DummyUnix.SearchClaimsFreeId | src/DummyUnixSandbox.cpp:37 | a claimed id r satisfies `from` ≤ r < limit and was free beforehand |
| DummyUnix.SecondClaimDiffers | src/DummyUnixSandbox.cpp:49-56 | two allocations with no deletion in between claim different ids |
| DummyUnix.ClaimBox | src/DummyUnixSandbox.cpp:35-60 | the loop returns the id, the directories and the reports of `Search` |
| DummyUnix.Archive | headers/DummyUnixSandbox.hpp:156-172 | the archive has the two base items followed by the fourteen fields |
| DummyUnix.ArchiveRoundTrip | headers/DummyUnixSandbox.hpp:156-172 | reading an archive back in the order it was written restores the record |
| DummyUnix.MemoryLimitAsWrittenIgnoresSetting | src/DummyUnixSandbox.cpp:88-90 | the as-written getter disagrees with the stored limit whenever that limit is not 1 |
| DummyUnix.DummyUnixSandbox.constructor | headers/DummyUnixSandbox.hpp:12-25 | every limit, measurement, return code and signal starts at 0, the names are empty, nothing has been reported |
| DummyUnix.DummyUnixSandbox.GetRoot | headers/DummyUnixSandbox.hpp:78-80 | the root is the box directory followed by `file_root/` |
| DummyUnix.DummyUnixSandbox.CreateBoxWithin | src/DummyUnixSandbox.cpp:35-60 | returns what `Search` from id 1 returns and reports its errors and warnings; the id is set only when one was claimed |
| DummyUnix.DummyUnixSandbox.CreateBox | headers/DummyUnixSandbox.hpp:75-77 | `create_box()` is the search bounded by 2147483647 |
| DummyUnix.DummyUnixSandbox.DeleteBox | src/DummyUnixSandbox.cpp:148-152 | succeeds exactly when `rm_rf` returns 0; otherwise reports error 4 with the errno text; the record is unchanged |
| DummyUnix.DummyUnixSandbox.SetMemoryLimit | headers/DummyUnixSandbox.hpp:81-84 | returns true; the getter then returns the value; no other field changes |
| DummyUnix.DummyUnixSandbox.SetTimeLimit | headers/DummyUnixSandbox.hpp:85-88 | returns true; the getter then returns the value; no other field changes |
| DummyUnix.DummyUnixSandbox.SetWallTimeLimit | headers/DummyUnixSandbox.hpp:89-92 | returns true; the getter then returns the value; no other field changes |
| DummyUnix.DummyUnixSandbox.SetProcessLimit | headers/DummyUnixSandbox.hpp:93-97 | stores 1 for a non-zero limit and 0 otherwise, warns with code 4 exactly when the limit exceeds 1, returns true |
| DummyUnix.DummyUnixSandbox.SetDiskLimit | headers/DummyUnixSandbox.hpp:98-101 | returns true; the getter then returns the value; no other field changes |
| DummyUnix.DummyUnixSandbox.GetMemoryLimitAsWritten | src/DummyUnixSandbox.cpp:88-90 | the out-of-line getter always returns 1, the `memory_limit` constant |
| DummyUnix.DummyUnixSandbox.RedirectStdin | src/DummyUnixSandbox.cpp:103-109 | the name is stored even on failure; opens the box path read-only; succeeds exactly when the open does; a failure is error 4 |
| DummyUnix.DummyUnixSandbox.RedirectStdout | src/DummyUnixSandbox.cpp:110-116 | the name is stored even on failure; opens with read-write, create and truncate; a failure is error 4 |
| DummyUnix.DummyUnixSandbox.RedirectStderr | src/DummyUnixSandbox.cpp:117-123 | the name is stored even on failure; opens with read-write, create and truncate; a failure is only warning 4 |
| DummyUnix.DummyUnixSandbox.Check | headers/box.hpp:67-70 | reports 254 and returns false, changing nothing else |
| DummyUnix.DummyUnixSandbox.Mounts | headers/box.hpp:111-114 | reports 254 and returns the empty list |
| DummyUnix.DummyUnixSandbox.MountedAt | headers/box.hpp:115-118 | reports 254 and returns the empty string |
| DummyUnix.DummyUnixSandbox.Mount | headers/box.hpp:119-122 | reports 254 and returns false |
| DummyUnix.DummyUnixSandbox.Umount | headers/box.hpp:123-126 | reports 254 and returns false |
| DummyUnix.DummyUnixSandbox.Clear | headers/box.hpp:172-175 | reports 254 and returns false |
| DummyUnix.DummyUnixSandbox.Save | headers/DummyUnixSandbox.hpp:156-172 | the archive written reads back as the current record |
| DummyUnix.DummyUnixSandbox.Load | headers/DummyUnixSandbox.hpp:156-172 | a well-formed archive replaces the record with what it holds; a malformed one changes nothing |

## Left out

- src/main.cpp (option parsing, dispatch, exit codes) and the Node.js binding are not part of this model.
- `rm_rf`, `open`, `mkdir`, `stat` and `strerror` are operating-system calls. They are parameters or the `BoxDirs` view, not models.
- `run` has an empty body in src/DummyUnixSandbox.cpp:133-135 with no return statement, so its result is undefined. It is not modelled.
- `box_inner`, `box_checker`, the fork hooks, the pipes and `prepare_io_redirect` have no body in the files modelled, so the header's redirection routing is modelled by the `.cpp` bodies.
- NamespaceSandbox is not part of this model beyond its registry name.
- The registry is modelled as created empty before the two registrations run. In the source the registrars are `__attribute__((constructor))` functions (headers/box.hpp:11-14) and the map is a global with dynamic initialisation in src/main.cpp, and the order between them is not specified. The model does not capture a map initialised after, and so wiping, the registrations.
- `create_box` never checks whether `stat` succeeds (src/DummyUnixSandbox.cpp:44-46). For a box path that exists but is not a directory, `stat` on the name with its trailing `/` fails with ENOTDIR, and `S_ISDIR` then reads an uninitialised buffer. The model takes the intended reading and passes over such an id silently (`NotDirectory`). If the garbage read as "directory", the source would try the lock, the `open` would fail, and it would warn instead.
- `set_error_handler`/`set_warning_handler`: the handlers are represented by the two logs of handler calls, not by callback pointers.
- The console logger's coloured printing is left out. Only its flag and its empty final write are modelled.
- The `time_limit_t`/`space_limit_t` result overloads are left out: their types are not shown and `double_seconds` is floating point. Limits and measurements are plain naturals.
- The boost text archive format is left out. Only the order of the archived fields is modelled, as a list of items.
- Load: a malformed archive throws in the source, possibly after a partial update. The model leaves the state unchanged and returns false instead.
- The `.cpp` class leaves its fields and `id_` uninitialised, while the header initialises the fields to 0. The model takes the header's zeros and starts the id at 0.
- The `.cpp` getters are not `const`, so they do not override the `const` virtuals of headers/box.hpp, and the `.cpp` class leaves the pure virtuals `is_available`, `get_penality`, `get_features` and `get_root` without a `const` override. Dispatch through a `Sandbox*` is not modelled: the model's members are the class's own.
- The `.cpp` `serialize` omits `exit_status` and `signal`. The model archives the header's field list.
- Json.StringToJson: control characters are not escaped, which section 7 of RFC 8259 requires. The model reproduces the source, and the round trip is stated against the source's own decoding rule, not a full JSON parser.
- Integers in `to_json` and the box ids are unbounded. `size_t` wrap-around is not modelled.
- The header's `get_features` names `Sandbox::cpu_limit`, which box.hpp does not define, so that line does not compile as written. The model reads it as `time_limit`, the constant the `.cpp` version uses in the same place.
- The header's class declares other members that box.hpp does not match. It declares `get_overhead() const override`, which overrides nothing, since the pure virtual is `get_penality` (headers/box.hpp:63). It declares `get_return_code`/`get_signal` returning `int`, while box.hpp returns `size_t`. And it marks `get_status` `override` with no base declaration. None of these compile as written. The model's `GetPenality`, `GetReturnCode`, `GetSignal` and `GetStatus` follow box.hpp and the `.cpp` class.
- The logger's vector-of-pairs `result` overload is defined in src/logger.cpp but not declared in headers/logger.hpp. It is modelled as a method of the class.
- The loop in create_box is modelled with its reports returned by `ClaimBox` and then appended to the logs. Errors and warnings go to separate logs, so each log keeps its order.
- `get_id` and the plain getters are functions with no contract of their own. What they return is stated by the setters' and the constructor's contracts.
- The sandbox's fields are kept together in one `BoxRecord` value rather than as separate object fields.
- Box.FeatureBit: the bit-set over a general collection of features is not modelled. Set union and membership are proved per constant (`FeatureBitsDisjoint`, `OrMeets`) and for the sandbox's own mask (`FeaturesMembership`).

## Findings

| source | as written | input that shows it | evidently intended | confidence | as-written member | corrected member |
|---|---|---|---|---|---|---|
| headers/simple_json.hpp:61 | the separator test compares `i+1` with `res.size()`, the length of the text built so far | any non-empty list, e.g. the single pair ("a", "b"): the output is `{"a": "b", }` | compare `i+1` with `obj.size()`, so no `, ` follows the last member | high (not executed) | Json.PairsToJsonObjAsWritten, Json.PairsAsWrittenTrailingSeparator | Json.PairsToJsonObj |
| src/DummyUnixSandbox.cpp:89 | `get_memory_limit` returns `memory_limit`, the feature constant 0x1 | `set_memory_limit(256)` then a direct call of the `.cpp` class's `get_memory_limit()` gives 1 (through a `Sandbox*` the non-`const` getter does not override, and the default reports 254 and returns 0) | return the stored `mem_limit`, as the header's version does | high (not executed) | DummyUnix.DummyUnixSandbox.GetMemoryLimitAsWritten, DummyUnix.MemoryLimitAsWrittenIgnoresSetting | DummyUnix.DummyUnixSandbox.SetMemoryLimit |
