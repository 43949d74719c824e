# autorun, modelled in Dafny

autorun watches a directory tree and runs a command whenever a file in it
changes. This project models the four sequential pieces of logic at its core
and proves properties of them:

- **The event filter** (`Filter`, with the wildcard matcher `Glob`).
  `get_filter` and `make_glob_filter` decide whether a change event is acted on:
  - directories and unwatched kinds of change are ignored;
  - when include patterns are given, the path must match one of them;
  - a path that matches any exclude pattern is rejected.

  Patterns are matched as `fnmatch.fnmatch` matches them on a POSIX system:
  - `*`, `?` and `[...]`/`[!...]` classes are wildcards;
  - `*` and `?` also match `/`;
  - no case folding is done.
- **The command handler** (`Command`). Each argument of the command template is
  formatted with `str.format`, with the changed path as the only positional
  argument. The resulting command is then run.
  - A non-zero exit status is caught and logged.
  - Template errors, an empty command and a failure to launch the program leave
    the handler as exceptions.
- **The debouncer** (`Debounce`). This is a single slot holding the latest event,
  plus an event flag and a stop flag. A background loop waits for the event
  flag, then waits once more on the stop flag (the settle window). It then
  either returns, or, under the lock, takes the slot and clears the event
  flag, and calls `fn` with the event it took.
  - The loop is cut into three steps: the event wait, the stop wait, and the
    take together with the call. The take and the call form one step because
    the taken event is a local of the loop. Nothing another thread does in
    between changes what `fn` receives. A call is therefore placed at its
    take.
  - `stop()` takes no lock. So a stop can come between the stop wait and the
    take, and the model allows exactly that interleaving (phase `Take`).
  - The class `Debounce.Debouncer` keeps these fields, and its methods change
    them in place, following the code as written.
  - The value-level `State`, with `StepState`, `Apply` and `Run`, describes
    interleavings of pushes, stops and loop steps. These functions take a
    `Loop` parameter. `AsWritten` is the code. `Rechecked` is a corrected
    program (see Findings): `stop()` sets its flags while holding the lock,
    and the loop re-checks the stop flag under the lock before taking the
    slot.
  - The methods are proved against those functions.
- **Terminal colours** (`Color`). `hex_to_ansi` reads a six-digit or
  three-digit lower-case hex colour at the start of a string and produces the
  24-bit SGR sequence `ESC[38;2;r;g;bm` (or `48` for a background colour).
  `reset` produces `ESC[0m`.
- **The style table** (`Metadata`). `Map.__getitem__` gives element 0 of the
  stored value for `key` and element 1 for `/key`. A missing key reads as `''`,
  and a false value is returned as it is.

`wrappers.dfy` holds the `Option` and `Result` types the modules share.

Python's `fnmatch` module is not part of the repository. `Glob` follows its
translation of a pattern into a regular expression (Python 3.9 and later) for
the forms listed above.

Notes on what the code does:
- The path placeholder is `str.format`'s `{}` (or `{0}`, with `{{` and `}}` for
  literal braces).
- Only one `{}` may appear in an argument. A second one asks for a positional
  argument that does not exist and raises `IndexError`. Mixing `{}` and `{0}`
  raises `ValueError`.
- These errors are raised while the argument list is built, outside the `try`,
  so they leave the handler. So does `OSError` from a program that cannot be
  started. Only `CalledProcessError` is caught.
- An exception from `fn` is not caught by the debouncer loop, so the loop
  does not survive it.
- The debouncer is not used by `main`.
- The three-digit colour form reads each digit `d` as the two digits `d`,`f`.
  So `123` gives channels 31, 47 and 63, not the doubled 17, 34 and 51.

## Model

| member | source | states |
|---|---|---|
| Glob.AnyRunMatches | autorun/__main__.py:39 | `*` followed by the rest of a pattern matches a name exactly when the rest matches some suffix of it. |
| Glob.Translate | autorun/__main__.py:39 | Reading a pattern gives at most one token per pattern character. |
| Glob.PlainTranslate | autorun/__main__.py:39 | A pattern without `*`, `?` or `[` is read as its own characters, one literal token each. |
| Glob.FnMatch | autorun/__main__.py:39-42 | A pattern without `*`, `?` or `[` matches exactly the name equal to it: no case folding. |
| Glob.StarMatchesAll | autorun/__main__.py:42 | `*` matches every name, including names that hold `/`. |
| Glob.StarSuffix | autorun/__main__.py:42 | `*` followed by plain text matches exactly the names that end with that text, whatever directories come before. |
| Glob.QuestionMatchesOneChar | autorun/__main__.py:39 | `?` matches exactly the one-character names. |
| Glob.ClassItemsWithoutRanges | autorun/__main__.py:39 | A bracket body without `-` accepts exactly the characters it lists. |
| Glob.BracketTranslate | autorun/__main__.py:39 | A closed `[body]` or `[!body]` is read as one class token, negated for `!`, and reading resumes after the `]`. |
| Filter.AnyMatch | autorun/__main__.py:39 | True exactly when some pattern of the list matches the path. |
| Filter.GlobFilter | autorun/__main__.py:36-47 | Accepts exactly when (no includes, or some include matches) and no exclude matches. |
| Filter.Accept | autorun/__main__.py:50-61 | Directories are rejected; kinds other than modified, created, deleted and moved are rejected; otherwise the result is the glob filter on the source path, with absent pattern lists read as empty. |
| Filter.ExcludeWins | autorun/__main__.py:42-43 | A path matching an exclude is rejected even if it matches an include. |
| Filter.IncludeRequired | autorun/__main__.py:38-40 | With includes given, a path matching none of them is rejected. |
| Filter.NoIncludesAcceptsUnexcluded | autorun/__main__.py:36-51 | With no includes (absent or empty) and no exclude match, an event passes exactly when it is a watched kind on a file. |
| Filter.ExampleTestModuleRejected | autorun/__main__.py:36-61 | With include `*.py` and exclude `*_test.py`, `foo_test.py` is rejected. |
| Filter.ExampleNestedModuleAccepted | autorun/__main__.py:36-61 | With the same patterns, `src/app/main.py` passes, since `*` crosses `/`. |
| Filter.ExampleOtherFileRejected | autorun/__main__.py:36-61 | With include `*.py`, `readme.md` is rejected. |
| Command.Render | autorun/__main__.py:66 | Formatting succeeds exactly when the fields fit one positional argument (at most one `{}`, or only `{0}`s), and then yields the template with every field replaced by the argument. |
| Command.Pieces | autorun/__main__.py:66 | A template is split into at most one piece per character. A template without braces is one text piece per character. |
| Command.Format | autorun/__main__.py:66 | `str.format` with the path as the one positional argument: succeeds exactly when the fields fit one positional argument, and then yields the template with every field replaced by the path. |
| Command.EscapeRoundTrip | autorun/__main__.py:66 | Any text with its braces doubled is a valid template that formats back to the text itself. |
| Command.BraceFreeUnchanged | autorun/__main__.py:66 | An argument without braces is formatted to itself. |
| Command.SingleAutoField | autorun/__main__.py:66 | One `{}` between two texts is replaced by the path. |
| Command.IndexFieldsEverywhere | autorun/__main__.py:66 | Any number of `{0}` fields are all replaced by the path. |
| Command.NumberingErrors | autorun/__main__.py:66 | `{}{}` raises IndexError; `{}{0}` and `{0}{}` raise ValueError. |
| Command.BuildCommand | autorun/__main__.py:66 | On success, the command has one element per template argument, each being that argument formatted with the path. On failure, the error is that of the first argument that fails. |
| Command.BraceFreeCommand | autorun/__main__.py:66 | A template without braces becomes the command unchanged. |
| Command.EchoExample | autorun/__main__.py:66 | `["echo", "{}"]` for `/tmp/a.txt` becomes `["echo", "/tmp/a.txt"]`. |
| Command.HandleChange | autorun/__main__.py:63-72 | The handler raises exactly when the arguments cannot be built, the command is empty or the program cannot be started. Exit status 0 is success. Any other status is logged with the command, not raised. |
| Command.ExitStatusNeverPropagates | autorun/__main__.py:67-70 | For a built, non-empty command, every exit status ends normally: success for 0 and a logged failure carrying the status otherwise. |
| Debounce.StepState | autorun/debouncer.py:31-47 | One loop step keeps the invariant and never changes the slot or the stop flag. A failed event wait changes nothing. The stop wait returns when stop is set and otherwise goes on to the take, calling nothing. `fn` is called exactly by the take, unless the take re-checks a set stop flag. The call gets the slot's event, clears the event flag and goes back to the event wait. |
| Debounce.Apply | autorun/debouncer.py:22-47 | Every push, stop or loop step keeps the invariant. `fn` is called only by the take, with the slot's event. Once stop is set it stays set. With stop set, nothing is called and the loop never reaches the take, unless it was already at the take of the code as written. A loop step raises `3·calls + progress` by at most one, and a push or stop does not raise it. |
| Debounce.Run | autorun/debouncer.py:31-47 | Any interleaving keeps the invariant. Every call of `fn` needs an event wait, a stop wait and a take of its own, so there are at most a third as many calls as loop steps, counting the steps already taken towards the next call. |
| Debounce.CallsAfterStop | autorun/debouncer.py:27-47 | After `stop`, the stop flag stays set and at most one more take (with its call of `fn`) happens. It happens only if the loop was already between the stop wait and the take of the code as written, and never in the corrected program. |
| Debounce.StopEndsLoop | autorun/debouncer.py:31-39 | With stop set, the loop returns within two more steps, whatever is pushed meanwhile, when it is waiting with the event flag set, settling, or at a re-checked take. |
| Debounce.StopThenReturns | autorun/debouncer.py:27-39 | `stop()` followed by two loop steps adds no take and the loop returns, from any state except the take of the code as written, and from every state in the corrected program. |
| Debounce.IdleSpins | autorun/debouncer.py:32-34 | With the event flag clear, any number of event waits change nothing and call nothing. |
| Debounce.StopDuringTake | autorun/debouncer.py:27-47 | Push, event wait, stop wait timing out, `stop()`, take: `fn` is called after the stop, the event flag is cleared, and the loop never returns in any number of further steps. |
| Debounce.StopDuringRecheckedTake | autorun/debouncer.py:27-47 | The same interleaving in the corrected program: no take, and the loop returns. |
| Debounce.UnlockedStopDefeatsRecheck | autorun/debouncer.py:27-44 | A re-check under the lock is not enough while `stop()` takes no lock: a stop between the re-check and the take makes the take call `fn`, clear the event flag and leave the loop spinning. |
| Debounce.RecheckedStopReturns | autorun/debouncer.py:27-47 | In the corrected program, whatever happened before, a stop followed by two loop steps adds no take and the loop returns. |
| Debounce.StopIsAtomic | autorun/debouncer.py:27-29 | A loop step landing between the two flag sets of `stop()` ends as that step taken before or after the whole stop. |
| Debounce.PushesKeepLast | autorun/debouncer.py:22-25 | A run of pushes leaves only the last event in the slot with the event flag set, and calls nothing. |
| Debounce.WakeUp | autorun/debouncer.py:33-34 | With the event flag set, the event wait moves the loop to the stop wait without calling anything. |
| Debounce.SettleTakesLast | autorun/debouncer.py:38-47 | Pushes during the settle window, the stop wait timing out and the take end in exactly one call of `fn`, with the last of them, and the event flag is cleared. |
| Debounce.LastPushWins | autorun/debouncer.py:22-47 | Events pushed before and during one settle window are coalesced into a single call with the event pushed last. |
| Debounce.CallsWerePushed | autorun/debouncer.py:22-25 | Every event `fn` is called with was pushed, or was already in the slot. |
| Debounce.BurstExample | autorun/debouncer.py:19-47 | From a fresh debouncer: a push, the wake-up, two pushes, the stop wait and the take call `fn` once, with the third event. |
| Debounce.Debouncer.constructor | autorun/debouncer.py:10-17 | A new debouncer has an empty slot and both flags clear. |
| Debounce.Debouncer.Call | autorun/debouncer.py:19-20 | The positional and keyword arguments are pushed unchanged as one event. |
| Debounce.Debouncer.Push | autorun/debouncer.py:22-25 | The slot holds the new event and the event flag is set. Nothing else changes. |
| Debounce.Debouncer.Stop | autorun/debouncer.py:27-29 | Both flags are set and nothing else changes. A second stop changes nothing while the event flag is still set. |
| Debounce.Debouncer.Step | autorun/debouncer.py:31-47 | One loop step of the code as written, as `Debounce.StepState` describes it. A failed event wait changes nothing and calls nothing. The stop wait calls nothing and returns or goes on to the take. `fn` is called exactly by the take, with the slot's event, and the event flag is cleared. |
| Color.Decimal | autorun/color.py:27 | The decimal spelling of a number: digits only, without a leading zero. |
| Color.DecimalRoundTrip | autorun/color.py:27 | The decimal spelling reads back as the number. |
| Color.HexToAnsi | autorun/color.py:4-27 | The result is empty exactly when no three hex digits start the text, after an optional `#`. Otherwise it is an SGR colour sequence whose three channels are below 256. |
| Color.MatchLong | autorun/color.py:21 | The six-digit pattern matches exactly when six lower-case hex digits start the text after an optional `#`. The channels it reads are below 256. |
| Color.MatchShort | autorun/color.py:22 | The three-digit pattern matches exactly when three lower-case hex digits start the text after an optional `#`. Each channel is below 256 and ends in the hex digit `f`. |
| Color.Reset | autorun/color.py:30-31 | The SGR sequence with the single parameter 0. |
| Color.LongFormRoundTrip | autorun/color.py:21-27 | Six lower-case hex digits, with or without `#` and followed by anything, give the sequence for exactly that colour, with code 38 or 48 by `foreground`. |
| Color.ShortForm | autorun/color.py:22-27 | When six digits do not match, three digits give the channels 16·d+15. |
| Color.HashIsOptional | autorun/color.py:21-22 | A leading `#` does not change the result. |
| Color.UpperCaseRejected | autorun/color.py:21-22 | Upper-case hex digits are not recognised: `#FFFFFF` gives the empty string. |
| Color.ExampleShortWhite | autorun/color.py:6-7 | `fff` gives `ESC[38;2;255;255;255m`. |
| Color.ExampleShortWhiteHash | autorun/color.py:8-9 | `#fff` gives the same. |
| Color.ExampleLongForm | autorun/color.py:10-11 | `010101` gives `ESC[38;2;1;1;1m`. |
| Color.ExampleLongFormHash | autorun/color.py:12-13 | `#010101` gives the same. |
| Color.ExampleBackground | autorun/color.py:14-15 | `#010101` as a background colour gives `ESC[48;2;1;1;1m`. |
| Color.ExampleNoColor | autorun/color.py:16-19 | `#` and the empty string give the empty string. |
| Color.ParamsRoundTrip | autorun/color.py:27 | A non-empty parameter list written with `;` separators reads back as the same list. |
| Color.SgrRoundTrip | autorun/color.py:27 | Distinct parameter lists give distinct SGR sequences: the list reads back from the sequence. |
| Color.ColorReadBack | autorun/color.py:21-27 | The colour code, the `2` and the three channels of a six-digit colour read back from the sequence produced. |
| Metadata.Missing | autorun/metadata.py:29-30 | A missing key reads as the empty string, which is false. |
| Metadata.Get | autorun/metadata.py:21-30 | The lookup strips one leading `/`. A missing name gives `''` for both spellings. A stored false value is returned without indexing. A stored true value is indexed at 1 for `/key` and at 0 otherwise, and an exception comes only from that indexing. The map is not changed. |
| Metadata.TupleLookup | autorun/metadata.py:21-27 | A non-empty tuple gives its first element under the name. Under `/name` it gives its second element, or IndexError when it has only one. |
| Metadata.StringLookup | autorun/metadata.py:21-27 | A non-empty string gives its first character under the name. Under `/name` it gives its second character, or IndexError when it has only one. |
| Metadata.IntegerLookup | autorun/metadata.py:21-27 | A non-zero integer cannot be indexed: both spellings raise TypeError. |
| Metadata.PairRoundTrip | autorun/metadata.py:21-27 | A pair stored under a key reads back as its first element under the key and its second under `/key`. |
| Metadata.SingleElementHasNoClosing | autorun/metadata.py:27 | A one-element tuple gives its element under the key, and `/key` raises IndexError. |
| Metadata.OneSlashRemoved | autorun/metadata.py:22-24 | Only one `/` is stripped: `//key` looks up `/key`. |
| Metadata.StoreElsewhere | autorun/metadata.py:21-30 | Storing under another name does not change a lookup. |
| Metadata.DocumentedExamples | autorun/metadata.py:3-19 | The class examples: `key` and `/key` give `left` and `right`; missing keys give `''`; `'[]'` under `''` gives `[` and `]`. |

## Left out

- The watchdog `Observer`, the `MyHandler` wiring and the `main` loop (autorun/__main__.py:13-22, 75-90) are left out. They are file-system I/O and thread lifecycle.
- `argparse` parsing (autorun/__main__.py:25-33) and every `logging` call are left out. The fact that a failure is logged appears only as the `FailureLogged` outcome.
- Running the command is left out. `subprocess.check_call` appears only as its outcome: an exit status, or a launch failure.
- Command.BuildCommand: only templates whose fields are `{}` or `{0}` (with `{{`, `}}`) are modelled, stated as the precondition `AllSimple`. Conversions, format specifications, other indices and named fields are not modelled.
- Glob: case folding on Windows is not modelled. (`&&`, `~~`, `||` and backslashes inside a bracket expression are ordinary members, as `fnmatch` escapes them, and `ClassItems` reads them that way.)
- Color: the regular-expression engine is not modelled. The two patterns are written as prefix parsers.
- Debounce: real time is not modelled. The `resolution` timeout, the lock, thread start and join, and scheduling are left out.
  - Each wait's result is modelled as whether its flag is set when the step is taken. A flag set by another thread during a wait is a push or stop ordered before that step. `Event.wait` can return false when a `set()` lands after the timeout but before the wait has re-acquired its lock. That is the same set ordered after the step, which the model also allows, so no behaviour is lost.
  - Each push is one step, because it runs under the lock. The take and the call of `fn` are one step, because the taken event is a local of the loop. `stop()` runs without the lock, but a loop step between its two flag sets ends as that step before or after the whole stop (`Debounce.StopIsAtomic`), so it is one step as well.
- Debounce.CallsAfterStop: it bounds the takes after a stop, not the calls of `fn`. A call is placed at its take, but `fn` runs after the lock is released. A stop landing between the take and the call comes before that call in the program, while the model books the call before the stop.
- Debounce.StopThenReturns: "adds no take" is what is proved. A call of `fn` whose take came before the stop can still run after the stop, for the reason given for `Debounce.CallsAfterStop`.
- Debounce.RecheckedStopReturns: as for `Debounce.StopThenReturns`, a call whose take came before the stop can still run after it.
- Debounce.Debouncer.Stop: it does not promise that a second stop changes nothing in every state. After a take has cleared the event flag that the first stop raised, a second stop raises it again, and that lets the loop return.
- Debounce: an exception raised by `fn` is not modelled. It would end the loop's thread, and the model does not claim that the loop survives it.
- Metadata: stored values are limited to strings, tuples, `None` and integers. Other Python objects and non-string keys are not modelled.
- Metadata: storing under a key is the inherited dictionary update, `m[key := v]` in the lemmas. It is not a separate member.
- setup.py is packaging metadata and is not part of this model.

## Findings

| source | as written | input that shows it | evidently intended | confidence | as-written member | corrected member |
|---|---|---|---|---|---|---|
| autorun/debouncer.py:38-44 | The stop wait runs outside the lock and the take does not look at the stop flag again, while `stop()` takes no lock. | `_push(e)`; the event wait returns true; the stop wait times out; `stop()`; the take. `fn(e)` runs after the stop, and the take clears the event flag the stop raised, so every later event wait fails and the loop does not return until another push or stop. | After `stop()` the loop takes no further event and returns. | medium, not executed | Debounce.StopDuringTake | Debounce.RecheckedStopReturns |

In the corrected program (`Rechecked`), `stop()` sets its two flags while
holding the lock, and the loop checks the stop flag again under the lock
before taking the slot. Both changes are needed. `Debounce.UnlockedStopDefeatsRecheck`
shows that the re-check alone still lets a stop land between the re-check and
the take. `Debounce.RecheckedStopReturns` proves that in the corrected program,
whatever happened before, a stop followed by two loop steps adds no take and
the loop returns. `Debounce.StopDuringRecheckedTake` replays the interleaving
above. The class `Debounce.Debouncer` keeps the code as written.
