/** The data model of the prompt bot's store (index.js): the records built by
    `new Prompt`, `new Submission` and `new DailyPrompt`, the root document kept
    at "/", the default document `getData` falls back to, and the calendar-day
    check `isToday`.

    The store keys prompts by the string "P" + id; here the key is the id itself.
    A `submissions` field that is still null is the empty sequence: every reader
    in index.js treats it as `[]`. */
module PromptModel {

  datatype Option<+T> = None | Some(value: T)

  /** A wall-clock instant, already broken into its local calendar date and the
      milliseconds elapsed since local midnight. */
  datatype Timestamp = Timestamp(year: int, month: int, day: int, millis: nat)

  datatype Submission = Submission(link: string, author: string, date: Timestamp)

  datatype Prompt = Prompt(id: int, text: string, hasBeenDaily: bool, submissions: seq<Submission>)

  /** Which prompt was chosen as the daily one, and when. */
  datatype DailyPrompt = DailyPrompt(date: Timestamp, promptId: int)

  /** The root document: `{prompts, nextId, todayPrompt}`. */
  datatype Document = Document(prompts: map<int, Prompt>, nextId: int, todayPrompt: Option<DailyPrompt>)

  /** `new Prompt(id, text)`: a prompt that has never been daily and has no submissions. */
  function NewPrompt(id: int, text: string): (p: Prompt)
    ensures p.id == id && p.text == text
    ensures !p.hasBeenDaily && |p.submissions| == 0
  {
    Prompt(id, text, false, [])
  }

  /** `new Submission(link, author, date)`: the date defaults to the moment of creation. */
  function NewSubmission(link: string, author: string, date: Option<Timestamp>, now: Timestamp): (s: Submission)
    ensures s.link == link && s.author == author
    ensures date.Some? ==> s.date == date.value
    ensures date.None? ==> s.date == now
  {
    Submission(link, author, if date.Some? then date.value else now)
  }

  /** `new DailyPrompt(promptId)`: stamped with the moment of creation. */
  function NewDailyPrompt(promptId: int, now: Timestamp): (t: DailyPrompt)
    ensures t.promptId == promptId && t.date == now
  {
    DailyPrompt(now, promptId)
  }

  /** The document `getData` works on when the store read yields null. */
  const DefaultDocument: Document := Document(map[], 1, None)

  /** `getData`: the document read from "/", or the default one when nothing is stored. */
  function GetData(read: Option<Document>): (d: Document)
    ensures read.None? ==> d.prompts == map[] && d.nextId == 1 && d.todayPrompt.None?
    ensures read.Some? ==> d == read.value
  {
    if read.None? then DefaultDocument else read.value
  }

  /** The comparison `isToday` was written to make: the same local year, month
      and day, whatever the time of day. */
  predicate IsToday(date: Timestamp, today: Timestamp): (r: bool)
    // Same instant once the time of day is set aside.
    ensures r <==> date.(millis := today.millis) == today
  {
    date.day == today.day && date.month == today.month && date.year == today.year
  }

  /** `isToday` as it runs: a bare `return` ends its line, so automatic semicolon
      insertion makes it return `undefined` and the comparison below it is never
      evaluated. */
  predicate IsTodayAsWritten(date: Timestamp, today: Timestamp): (r: bool)
    ensures !r
  {
    false
  }

  /** The literal check never holds, even for an instant compared with itself,
      where the intended check does. */
  lemma IsTodayAsWrittenNeverHolds(date: Timestamp, today: Timestamp)
    ensures !IsTodayAsWritten(date, today)
    ensures IsToday(today, today) && !IsTodayAsWritten(today, today)
  {
  }

  /** The intended check is a calendar-day equivalence that ignores the time of day. */
  lemma IsTodayIsSameCalendarDay(a: Timestamp, b: Timestamp, c: Timestamp)
    ensures IsToday(a, a)
    ensures IsToday(a, b) ==> IsToday(b, a)
    ensures IsToday(a, b) && IsToday(b, c) ==> IsToday(a, c)
    ensures IsToday(a, b) <==> IsToday(a.(millis := 0), b.(millis := 0))
  {
  }
}
