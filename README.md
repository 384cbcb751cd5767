# cc-prompt-bot prompt store, in Dafny

A model of the data store of a chat bot that serves writing prompts, rotates
one "daily" prompt and collects link submissions (index.js). The store keeps a
single root document `{prompts, nextId, todayPrompt}` in a remote JSON store.
Every mutating operation is a job on a promise queue. `addPrompt` and
`getDailyPrompt` read the whole document, change it in memory and write it
back; `addSubmissionToPrompt` reads it and writes one sub-path; `removePrompt`
deletes one path without reading anything.
The queue runs one job at a time, in enqueue order, so each operation is
modelled as a sequential transition of that document.

- `model.dfy` (module `PromptModel`): the records `Prompt`, `Submission`,
  `DailyPrompt`, the root `Document`, their constructors, `getData`'s default
  document and the calendar-day check `isToday`.
- `jobs.dfy` (module `Jobs`): each queued job as a function from the document
  it reads to its result and the document it leaves. These are the
  specifications the class below is proved against, and the lemmas about the
  rotation and the submissions are stated on them.
- `store.dfy` (module `PromptStore`): the `Storage` object. Its field `stored`
  is what the store holds at "/" (`None` when nothing is stored). Its methods
  work step by step on the document they read, as index.js does. The rotation
  scan is the loop method `ScanForPrompt`.
- `sessions.dfy` (module `Sessions`): runs of queued jobs. It covers id
  assignment over any interleaving, submissions queued back to back, and the
  rotation traced over two prompts, as the code runs and as intended.
- `commands.dfy` (module `Commands`): the prefix dispatch of the `message`
  handler.

The prompt keys `"P" + id` are integer keys here. A `submissions` field that is
still `null` is the empty sequence: every reader treats it as `[]`. Clock
readings (`new Date()`) are a `now` parameter. The result of `isToday` is the
`sameDay` input of `getDailyPrompt`.

The class follows the code as written. For each quirk found there, the
intended behaviour is a separate member beside the literal one (see
"## Findings"):

- `isToday` never returns true.
- The rotation scan looks at the last pick first.
- `removePrompt` deletes a path that lies outside the document's fields.

No command name is a prefix of another, so the first-match order of the
dispatch chain never decides anything. Content that starts with
`"!submissions"` runs the submissions handler, because `"!submit"` and
`"!submissions"` differ at the seventh character.

Behaviour of the code worth noting:

- `addPrompt` resolves to the store write's acknowledgement, not to the new id.
- After an exhausted scan the marker is cleared, so the next call scans again
  from id 1. As written, `removePrompt` removes nothing, so the marker always
  names an existing prompt and the scan always finds it
  (`Jobs.DailyAsWrittenAlwaysPicks`); the exhausted branch is reached only when
  there are no prompts at all (`Jobs.DailyAsWrittenExhaustedOnlyWhenEmpty`),
  and then nothing wraps. The wrap-around belongs to the corrected scan, with
  the corrected removal.
- The scan does not resume after the last pick (finding 2).
- `removePrompt` does not delete the prompt (finding 3).

## Model

| member | source | states |
|---|---|---|
| PromptModel.NewPrompt | index.js:203-208 | a new prompt carries the given id and text, has never been daily and has no submissions |
| PromptModel.NewSubmission | index.js:210-214 | a submission keeps its link and author; its date is the given one, or the current time when none is given |
| PromptModel.NewDailyPrompt | index.js:216-219 | a daily marker names the prompt and is stamped with the current time |
| PromptModel.GetData | index.js:147-149 | a null read becomes the document with no prompts, `nextId` 1 and no marker; any other read is used as it is |
| PromptModel.IsToday | index.js:227-233 | the intended check holds exactly when the two dates are the same instant once the time of day is set aside |
| PromptModel.IsTodayAsWritten | index.js:227-233 | `isToday` as it runs never holds: the bare `return` yields `undefined` |
| PromptModel.IsTodayAsWrittenNeverHolds | index.js:227-233 | `isToday` as it runs is false for every pair of dates, even a date compared with itself, which the intended check accepts |
| PromptModel.IsTodayIsSameCalendarDay | index.js:230-232 | the intended check compares local year, month and day: it is reflexive, symmetric and transitive, and ignores the time of day |
| Jobs.DefaultDocumentIsConsistent | index.js:147-149 | the default document satisfies both document invariants |
| Jobs.Lookup | index.js:185 | a keyed read yields a prompt exactly when the id is present, and then that prompt |
| Jobs.AddPrompt | index.js:154-159 | `addPrompt` stores `NewPrompt(nextId, text)` under `nextId`, moves `nextId` on by exactly one, and changes neither the marker nor any other prompt |
| Jobs.AddPromptKeepsInvariants | index.js:156-157 | on a well-formed document the id handed out is not already used, no existing prompt is overwritten, and both invariants are kept |
| Jobs.RemovePromptIntended | index.js:162-164 | the intended deletion removes exactly that prompt's entry and changes nothing else, neither `nextId` nor the marker |
| Jobs.FirstFrom | index.js:170-174 | the scan's answer is the least id in [start, nextId] that has a prompt; it answers nothing exactly when no id in that range has one |
| Jobs.ScanStart | index.js:170-173 | the first id the scan looks at is the last pick itself, or 1 when there is no marker |
| Jobs.ScanStartIntended | index.js:170-173 | the corrected scan looks first at the id after the last pick, or 1 when there is no marker |
| Jobs.DailyFrom | index.js:166-188 | same-day branch: returns the marked prompt and writes nothing. Exhausted: clears the marker, keeps the prompts. Pick: marks the least existing candidate in [start, nextId] with `now`, flags only that prompt, and returns it flagged. `nextId` is never changed |
| Jobs.DailyKeepsInvariants | index.js:176-182 | a daily job keeps the document well formed and keeps the marker pointing at an existing, flagged prompt |
| Jobs.Daily | index.js:166-188 | as written, a new day's call re-picks the previous pick whenever it still exists (and writes); without a marker the scan covers every id from 1 to `nextId` and finds nothing only when none exists |
| Jobs.DailyIntended | index.js:166-188 | with the scan resuming after the last pick, a new day's call writes; its pick is the least existing id above the previous one; when there is none up to `nextId`, the marker is cleared |
| Jobs.DailyRepicksPrevious | index.js:170-173 | on a well-formed document, a new day's call re-picks the previous pick whenever it still exists, and re-stamps the marker on it |
| Jobs.DailyAsWrittenAlwaysPicks | index.js:170-182 | on a document that keeps both invariants and has a marker, a new day's call always finds a prompt, so the exhausted branch is not reached |
| Jobs.DailyAsWrittenExhaustedOnlyWhenEmpty | index.js:170-178 | on a document that keeps both invariants, a new day's scan as written comes back empty only when there are no prompts at all |
| Jobs.SameDayCallIsStable | index.js:184-186 | after a pick, a later call on the same calendar day (by the intended check) returns the same prompt, leaves the document unchanged and does not write |
| Jobs.SameDayCallRewritesAsWritten | index.js:168-182 | with the literal `isToday`, a second call on the same day still writes: it returns the same prompt and re-stamps the marker with the new time |
| Jobs.ExhaustedRestartsFromOne | index.js:170-178 | after an exhausted scan, the next call behaves as a scan from id 1 on a document without a marker |
| Jobs.WriteAt | index.js:198 | a write at `submissions/<i>` puts the submission at index i; it appends when i is the current length and leaves every other index alone |
| Jobs.Submit | index.js:192-200 | for an unknown id: false, document unchanged. For a known id: true (standing for the write's acknowledgement), and the new submission lands at index = old submission count. Earlier submissions, other prompts, `nextId` and the marker are unchanged |
| Jobs.SubmitKeepsInvariants | index.js:192-200 | adding a submission keeps both document invariants |
| Jobs.UnserialisedSubmitsCollide | index.js:197-198 | two submissions that compute their index from the same snapshot collide: the second overwrites the first, so serialising the jobs is needed |
| PromptStore.ScanForPrompt | index.js:169-174 | the `while` loop ends, and it finds a prompt exactly when one exists in [start, nextId]; the one it finds is the least such id, with its prompt |
| PromptStore.Storage.constructor | index.js:152 | a new store starts from an empty "/", so the first job works on the default document |
| PromptStore.Storage.AddPrompt | index.js:154-159 | the stored document becomes `Jobs.AddPrompt` of the one read: the new prompt sits under the old `nextId`, which was free; `nextId` goes up by one; the marker is unchanged |
| PromptStore.Storage.RemovePrompt | index.js:162-164 | as written, the deletion leaves the stored document unchanged, so `nextId`, the marker and every prompt stay as they were |
| PromptStore.Storage.RemovePromptIntended | index.js:162-164 | the intended deletion removes the prompt and keeps `nextId` and the marker |
| PromptStore.Storage.GetDailyPrompt | index.js:166-188 | the result and the stored document are those of `Jobs.Daily`; the same-day branch leaves the store untouched; `nextId` never changes |
| PromptStore.Storage.GetPrompts | index.js:190 | returns the prompts of the current document, none when nothing is stored |
| PromptStore.Storage.AddSubmissionToPrompt | index.js:192-200 | returns false for an unknown prompt and true (standing for the write's acknowledgement) for a known one; if it does, its submissions become the old ones plus the new one at the end; otherwise the store is untouched |
| Sessions.Run | index.js:140-145 | the queue applies its jobs in order; after a run `nextId` has moved by exactly the number of `addPrompt` jobs in it |
| Sessions.ApplyMovesNextIdOnlyOnAdd | index.js:154-200 | of all jobs, only `addPrompt` changes `nextId`, and by exactly one |
| Sessions.IdsAreConsecutive | index.js:156-157 | in any run, with any jobs interleaved, the `addPrompt` jobs receive `nextId`, `nextId`+1, ... in queue order |
| Sessions.IdsFromFreshStore | index.js:147-157 | from an empty store the k-th prompt added receives id k (ids 1, 2, 3, ...) |
| Sessions.AssignedIdsAreFresh | index.js:156-157 | ids handed out in a run are strictly increasing, and none was a key before the run, even when prompts were removed in between |
| Sessions.RunKeepsInvariants | index.js:154-200 | every run keeps the document well formed; without an intended removal, it also keeps the marker pointing at an existing, flagged prompt |
| Sessions.AsSubmissions | index.js:210-214 | the submissions built from queued entries carry each entry's link, author and time, in order |
| Sessions.QueuedSubmitsAppendInOrder | index.js:192-200 | queued submissions to an existing prompt land at indices old length, old length + 1, ... in queue order, with no gap and no overwrite; the keys, `nextId`, the marker, every other prompt and the target's id, text and flag are unchanged |
| Sessions.TwoPrompts | index.js:154-159 | `addPrompt("A")` then `addPrompt("B")` on an empty store gives prompts 1 "A" and 2 "B" and `nextId` 3 |
| Sessions.RotationAsRunSticks | index.js:166-188 | as the code runs, with prompts "A" and "B", every call on day 1 and day 2 serves "A", each time with a write |
| Sessions.RotationCorrected | index.js:166-188 | as intended, with prompts "A" and "B": day 1 serves "A" twice, the second time without a write; day 2 serves "B"; day 3 serves nothing; day 4 wraps around to "A" |
| Commands.IsCommand | index.js:223-225 | a command test can hold only for content that starts with "!" and is longer than the name |
| Commands.IsCommandIsBangThenName | index.js:223-225 | a command test holds exactly when the content is "!", then the name, then anything |
| Commands.Dispatch | index.js:25-34 | a command is dispatched only if the content starts with "!" + its name; nothing is dispatched only if no name matches |
| Commands.NamesArePrefixFree | index.js:26-33 | no command name is a prefix of another |
| Commands.AtMostOneMatches | index.js:223-225 | at most one command's `isCommand` test holds for any content |
| Commands.DispatchIsOrderIndependent | index.js:25-34 | the content goes to a command exactly when it starts with that command's "!" + name, so the order of the chain is irrelevant |
| Commands.NoPrefixNoCommand | index.js:223-225 | content that does not start with "!" runs no command |
| Commands.DispatchSubmissionsExample | index.js:26-33 | "!submissions 3" goes to the submissions handler |
| Commands.DispatchSubmitExample | index.js:26-33 | "!submit 3 https://example.com" goes to the submit handler |
| Commands.DispatchLongerWordExample | index.js:25-34 | "!dailyx" goes to the daily handler |

## Findings

| source | as written | input that shows it | evidently intended | confidence | as-written member | corrected member |
|---|---|---|---|---|---|---|
| index.js:229 | `return` stands alone on its line, so automatic semicolon insertion returns `undefined` and the same-day branch (index.js:184-186) is never taken | any marker date, even one equal to the current date | return the year/month/day comparison, on the date revived with `new Date(date)`: the marker's date comes back from the JSON store as a string, so the comparison alone would throw once a marker exists | high; not executed | PromptModel.IsTodayAsWritten (with PromptModel.IsTodayAsWrittenNeverHolds) | PromptModel.IsToday (with Jobs.SameDayCallIsStable) |
| index.js:170-173 | the scan starts at `promptId - 1` and increments before looking, so the first candidate is the previous pick | prompts 1 "A" and 2 "B", marker on 1, a new day: "A" is served again (Sessions.RotationAsRunSticks) | start at `promptId + 1`, serving each prompt in turn | medium; not executed | Jobs.Daily (with Jobs.DailyRepicksPrevious) | Jobs.DailyIntended (with Sessions.RotationCorrected) |
| index.js:163 | deletes `"data/prompts/P" + id`, while the document keeps its prompts under `"prompts"` | `addPrompt("A")` then `removePrompt(1)`: prompt 1 is still stored | delete `"prompts/P" + id` | medium; not executed | PromptStore.Storage.RemovePrompt | PromptStore.Storage.RemovePromptIntended (with Jobs.RemovePromptIntended) |

## Left out

- The chat client is not modelled: login, the `ready` handler, reply and help texts, and `comingSoon` are chat I/O.
- The command handlers' argument parsing and checks are not modelled (`submitCmd`, `submissionsCmd`, `promptAddCmd`). The dispatch is modelled up to the handler it selects.
- `modOnly` is not modelled. It is a role lookup on the chat platform.
- `randomCmd` and `randBetween` are not modelled. They depend on `Math.random` and floating-point rounding.
- `isValidUrl` is not modelled. It depends on the WHATWG URL parser, which is not visible here.
- The config file read and the access tokens are process setup, and are not modelled. The start-up wipe of "/" is the `Storage` constructor. The three seed prompts (index.js:12-17) appear only in `PromptStore.StartupSession`, a usage example that drives the start-up sequence through the methods' contracts and states nothing of its own.
- The remote store client is replaced by the in-memory field `stored`. A store write is assumed to succeed. A failed write, and with it the queue's behaviour after a failure, is not modelled: `currentJob.then(fn)` has no rejection handler, so one rejected job makes every later job skip its work.
- The promise queue itself is asynchronous runtime machinery. Only its effect is modelled: jobs apply one at a time, in enqueue order.
- `getPrompts` is not queued, so it can observe a document between another job's read and its write. The model only reads the current document.
- Prompt keys are integers. In the source, `addSubmissionToPrompt` receives the id as the text typed in the chat, and `"P" + "01"` names a different key than `"P" + "1"`. That string-level difference is not modelled.
- Dates are calendar components (`Timestamp`). The local-timezone `Date` arithmetic and the JSON round trip of the marker's date through the store are not modelled.
- Numbers are unbounded integers. JavaScript's double-precision limit on `nextId` is not modelled.
- PromptStore.Storage.AddSubmissionToPrompt: on success the source resolves to the acknowledgement of the store write at "prompts/P<id>/submissions/<n>"; the model returns true in its place, because store writes are assumed to succeed.
- Jobs.Submit: on success the source's result is the store write's acknowledgement; `found` is true in its place, for the same reason.
- PromptStore.Storage.RemovePrompt: states only that the modelled document is unchanged. What the store holds under "data" is not modelled, because no operation reads it.
