/** One queued job of index.js's `Storage`, as a function from the document the
    job reads to what it returns and the document it leaves. Because the queue
    runs jobs one at a time, each job is a sequential transition of the root
    document; PromptStore.Storage performs these steps in place and is proved
    to agree with them. */
module Jobs {
  import opened PromptModel

  /** The shape every document written by the store's own operations has:
      `nextId` starts at 1, and each prompt sits under its own id, below `nextId`. */
  predicate WellFormed(d: Document)
  {
    && d.nextId >= 1
    && forall k :: k in d.prompts ==> 1 <= k < d.nextId && d.prompts[k].id == k
  }

  /** The daily marker, when set, names an existing prompt that has been daily. */
  predicate TodayConsistent(d: Document)
  {
    d.todayPrompt.Some? ==>
      d.todayPrompt.value.promptId in d.prompts && d.prompts[d.todayPrompt.value.promptId].hasBeenDaily
  }

  function Lookup(prompts: map<int, Prompt>, id: int): (r: Option<Prompt>)
    ensures r.Some? <==> id in prompts
    ensures r.Some? ==> r.value == prompts[id]
  {
    if id in prompts then Some(prompts[id]) else None
  }

  lemma DefaultDocumentIsConsistent()
    ensures WellFormed(DefaultDocument) && TodayConsistent(DefaultDocument)
  {
  }

  // ---------------------------------------------------------------- addPrompt

  /** `addPrompt(text)`: the new prompt takes id `nextId`, which then moves on by one. */
  function AddPrompt(d: Document, text: string): (r: Document)
    ensures r.nextId == d.nextId + 1
    ensures r.todayPrompt == d.todayPrompt
    ensures r.prompts.Keys == d.prompts.Keys + {d.nextId}
    ensures r.prompts[d.nextId] == NewPrompt(d.nextId, text)
    ensures forall k :: k in d.prompts && k != d.nextId ==> r.prompts[k] == d.prompts[k]
  {
    d.(prompts := d.prompts[d.nextId := NewPrompt(d.nextId, text)], nextId := d.nextId + 1)
  }

  /** On a well-formed document the id handed out is fresh, so no existing
      prompt is overwritten, and both invariants survive. */
  lemma AddPromptKeepsInvariants(d: Document, text: string)
    requires WellFormed(d)
    ensures d.nextId !in d.prompts
    ensures forall k :: k in d.prompts ==> k in AddPrompt(d, text).prompts && AddPrompt(d, text).prompts[k] == d.prompts[k]
    ensures WellFormed(AddPrompt(d, text))
    ensures TodayConsistent(d) ==> TodayConsistent(AddPrompt(d, text))
  {
  }

  // ------------------------------------------------------------ removePrompt

  /** The deletion `removePrompt` was meant to make: the prompt's entry goes,
      nothing else changes. */
  function RemovePromptIntended(d: Document, id: int): (r: Document)
    ensures id !in r.prompts
    ensures r.prompts.Keys == d.prompts.Keys - {id}
    ensures forall k :: k in r.prompts ==> r.prompts[k] == d.prompts[k]
    ensures r.nextId == d.nextId && r.todayPrompt == d.todayPrompt
  {
    d.(prompts := d.prompts - {id})
  }

  // ----------------------------------------------------------- getDailyPrompt

  /** The least id in [s, limit] that has a prompt, if any: the candidates the
      rotation scan checks, in the order it checks them. */
  function FirstFrom(prompts: map<int, Prompt>, s: int, limit: int): (r: Option<int>)
    decreases limit - s
    ensures r.Some? ==> s <= r.value <= limit && r.value in prompts
    ensures r.Some? ==> forall j :: s <= j < r.value ==> j !in prompts
    ensures r.None? ==> forall j :: s <= j <= limit ==> j !in prompts
  {
    if s > limit then None
    else if s in prompts then Some(s)
    else FirstFrom(prompts, s + 1, limit)
  }

  /** The scan's counter before its first step: one below the last pick, or
      below 1 when there is no marker. */
  function InitialCandidate(today: Option<DailyPrompt>): int
  {
    (if today.Some? then today.value.promptId else 1) - 1
  }

  /** The first candidate the scan of `getDailyPrompt` examines: the counter is
      incremented before each lookup. */
  function ScanStart(today: Option<DailyPrompt>): (r: int)
    // The first id looked at is the last pick itself, or 1 without a marker.
    ensures today.Some? ==> r == today.value.promptId
    ensures today.None? ==> r == 1
  {
    InitialCandidate(today) + 1
  }

  /** The first candidate of a scan that resumes after the last pick. */
  function ScanStartIntended(today: Option<DailyPrompt>): (r: int)
    ensures today.Some? ==> r == today.value.promptId + 1 && r > ScanStart(today)
    ensures today.None? ==> r == ScanStart(today)
  {
    if today.None? then 1 else today.value.promptId + 1
  }

  /** What `getDailyPrompt` returns, the document it leaves, and whether it writes. */
  datatype DailyOutcome = DailyOutcome(pick: Option<Prompt>, doc: Document, writes: bool)

  /** `getDailyPrompt` with the scan starting at `start`. `sameDay` is the value
      `isToday(todayPrompt.date)` takes. */
  function DailyFrom(d: Document, now: Timestamp, sameDay: bool, start: int): (r: DailyOutcome)
    ensures r.doc.nextId == d.nextId && r.doc.prompts.Keys == d.prompts.Keys
    // The marker is set and still today: hand back what it names, write nothing.
    ensures !r.writes <==> d.todayPrompt.Some? && sameDay
    ensures !r.writes ==> r.doc == d && r.pick == Lookup(d.prompts, d.todayPrompt.value.promptId)
    // Pool exhausted: no candidate in [start, nextId] exists; the marker is cleared.
    ensures r.writes && r.pick.None? ==>
      r.doc == d.(todayPrompt := None) && forall j :: start <= j <= d.nextId ==> j !in d.prompts
    // A pick: the least existing candidate, flagged, and recorded as today's.
    ensures r.writes && r.pick.Some? ==> r.doc.todayPrompt.Some?
    ensures r.writes && r.pick.Some? ==>
      var id := r.doc.todayPrompt.value.promptId;
      && start <= id <= d.nextId && id in d.prompts
      && (forall j :: start <= j < id ==> j !in d.prompts)
      && r.doc.todayPrompt == Some(DailyPrompt(now, id))
      && r.pick == Some(d.prompts[id].(hasBeenDaily := true))
      && r.doc.prompts[id] == r.pick.value
      && forall k :: k in d.prompts && k != id ==> r.doc.prompts[k] == d.prompts[k]
  {
    if d.todayPrompt.Some? && sameDay then
      DailyOutcome(Lookup(d.prompts, d.todayPrompt.value.promptId), d, false)
    else
      match FirstFrom(d.prompts, start, d.nextId)
      case None => DailyOutcome(None, d.(todayPrompt := None), true)
      case Some(id) =>
        var picked := d.prompts[id].(hasBeenDaily := true);
        DailyOutcome(Some(picked), d.(todayPrompt := Some(NewDailyPrompt(id, now)), prompts := d.prompts[id := picked]), true)
  }

  /** `getDailyPrompt` as written. */
  function Daily(d: Document, now: Timestamp, sameDay: bool): (r: DailyOutcome)
    // A new day while the last pick still exists: that prompt is picked again.
    ensures d.todayPrompt.Some? && !sameDay && d.todayPrompt.value.promptId in d.prompts
            && d.todayPrompt.value.promptId <= d.nextId ==>
      var prev := d.todayPrompt.value.promptId;
      && r.writes
      && r.pick == Some(d.prompts[prev].(hasBeenDaily := true))
      && r.doc.todayPrompt == Some(DailyPrompt(now, prev))
    // Without a marker every id from 1 to `nextId` is a candidate.
    ensures d.todayPrompt.None? ==>
      r.writes && (r.pick.None? <==> forall j :: 1 <= j <= d.nextId ==> j !in d.prompts)
  {
    DailyFrom(d, now, sameDay, ScanStart(d.todayPrompt))
  }

  /** `getDailyPrompt` with the scan resuming after the last pick. On a new day
      the pick is the least existing id above the last one, and the rotation
      ends (marker cleared) when there is none up to `nextId`. */
  function DailyIntended(d: Document, now: Timestamp, sameDay: bool): (r: DailyOutcome)
    ensures d.todayPrompt.Some? && !sameDay ==>
      var prev := d.todayPrompt.value.promptId;
      && r.writes
      && (r.pick.Some? ==>
            && r.doc.todayPrompt.Some?
            && var id := r.doc.todayPrompt.value.promptId;
            prev < id && id in d.prompts && forall j :: prev < j < id ==> j !in d.prompts)
      && (r.pick.None? ==> r.doc.todayPrompt.None? && forall j :: prev < j <= d.nextId ==> j !in d.prompts)
  {
    DailyFrom(d, now, sameDay, ScanStartIntended(d.todayPrompt))
  }

  lemma DailyKeepsInvariants(d: Document, now: Timestamp, sameDay: bool, start: int)
    requires WellFormed(d)
    ensures WellFormed(DailyFrom(d, now, sameDay, start).doc)
    ensures TodayConsistent(d) ==> TodayConsistent(DailyFrom(d, now, sameDay, start).doc)
  {
  }

  /** As written, a new day's scan looks at the last pick first: while that
      prompt exists it is picked again, so the rotation never moves on. */
  lemma DailyRepicksPrevious(d: Document, now: Timestamp)
    requires WellFormed(d)
    requires d.todayPrompt.Some? && d.todayPrompt.value.promptId in d.prompts
    ensures var r := Daily(d, now, false);
      && r.pick == Some(d.prompts[d.todayPrompt.value.promptId].(hasBeenDaily := true))
      && r.doc.todayPrompt == Some(DailyPrompt(now, d.todayPrompt.value.promptId))
  {
  }

  /** With the invariants kept and a marker set, the scan as written always
      finds a prompt (the last pick), so its wrap-around branch is never taken. */
  lemma DailyAsWrittenAlwaysPicks(d: Document, now: Timestamp)
    requires WellFormed(d) && TodayConsistent(d) && d.todayPrompt.Some?
    ensures Daily(d, now, false).pick.Some?
  {
  }

  /** So, with the invariants kept, a new day's scan as written comes back empty
      only when there are no prompts at all. */
  lemma DailyAsWrittenExhaustedOnlyWhenEmpty(d: Document, now: Timestamp)
    requires WellFormed(d) && TodayConsistent(d)
    requires Daily(d, now, false).pick.None?
    ensures d.prompts == map[]
  {
    if d.todayPrompt.Some? {
      DailyAsWrittenAlwaysPicks(d, now);
      assert false;
    }
    assert forall k :: k in d.prompts ==> 1 <= k <= d.nextId;
  }

  /** Once a pick was made at `now`, a later call on the same calendar day (by
      the intended check) returns the same prompt and writes nothing. */
  lemma SameDayCallIsStable(d: Document, now: Timestamp, later: Timestamp, start: int)
    requires DailyFrom(d, now, false, start).pick.Some?
    ensures var first := DailyFrom(d, now, false, start);
      var second := DailyFrom(first.doc, later, IsToday(first.doc.todayPrompt.value.date, later), start);
      IsToday(now, later) ==> second.pick == first.pick && second.doc == first.doc && !second.writes
  {
  }

  /** With the literal check, the same-day branch is never taken: a second call
      on the same day scans again and rewrites the marker with the new time. */
  lemma SameDayCallRewritesAsWritten(d: Document, now: Timestamp, later: Timestamp)
    requires WellFormed(d)
    requires Daily(d, now, false).pick.Some?
    ensures var first := Daily(d, now, false);
      var second := Daily(first.doc, later, IsTodayAsWritten(first.doc.todayPrompt.value.date, later));
      && second.writes
      && second.pick == first.pick
      && second.doc.todayPrompt == Some(first.doc.todayPrompt.value.(date := later))
  {
  }

  /** An exhausted scan clears the marker, so the next call scans again from id 1. */
  lemma ExhaustedRestartsFromOne(d: Document, now: Timestamp, later: Timestamp, sameDay: bool, sameDay': bool)
    requires Daily(d, now, sameDay).pick.None? && Daily(d, now, sameDay).writes
    ensures var next := Daily(Daily(d, now, sameDay).doc, later, sameDay');
      next == DailyFrom(d.(todayPrompt := None), later, sameDay', 1)
  {
  }

  // ---------------------------------------------------- addSubmissionToPrompt

  /** A store write at `submissions/<index>`: replaces that entry, or appends
      when the index is the current length. */
  function WriteAt(subs: seq<Submission>, index: nat, s: Submission): (r: seq<Submission>)
    requires index <= |subs|
    ensures |r| == if index == |subs| then |subs| + 1 else |subs|
    ensures r[index] == s
    ensures forall i :: 0 <= i < |subs| && i != index ==> r[i] == subs[i]
  {
    if index == |subs| then subs + [s] else subs[index := s]
  }

  /** Whether the prompt exists, and the document after the submission. */
  datatype SubmitOutcome = SubmitOutcome(found: bool, doc: Document)

  /** `addSubmissionToPrompt(promptId, author, link)`: for an existing prompt the
      new submission is written at index = the current number of submissions. */
  function Submit(d: Document, promptId: int, author: string, link: string, now: Timestamp): (r: SubmitOutcome)
    ensures r.found <==> promptId in d.prompts
    ensures !r.found ==> r.doc == d
    ensures r.found ==>
      var old_ := d.prompts[promptId].submissions;
      && r.doc.nextId == d.nextId && r.doc.todayPrompt == d.todayPrompt
      && r.doc.prompts.Keys == d.prompts.Keys
      && (forall k :: k in d.prompts && k != promptId ==> r.doc.prompts[k] == d.prompts[k])
      && r.doc.prompts[promptId] == d.prompts[promptId].(submissions := r.doc.prompts[promptId].submissions)
      && r.doc.prompts[promptId].submissions == old_ + [Submission(link, author, now)]
  {
    if promptId !in d.prompts then SubmitOutcome(false, d)
    else
      var p := d.prompts[promptId];
      var newIndex := |p.submissions|;
      var subs := WriteAt(p.submissions, newIndex, NewSubmission(link, author, None, now));
      SubmitOutcome(true, d.(prompts := d.prompts[promptId := p.(submissions := subs)]))
  }

  lemma SubmitKeepsInvariants(d: Document, promptId: int, author: string, link: string, now: Timestamp)
    ensures WellFormed(d) ==> WellFormed(Submit(d, promptId, author, link, now).doc)
    ensures TodayConsistent(d) ==> TodayConsistent(Submit(d, promptId, author, link, now).doc)
  {
  }

  /** Why the jobs must be serialised: two submissions that both read the same
      snapshot compute the same index, and the second write overwrites the first. */
  lemma UnserialisedSubmitsCollide(subs: seq<Submission>, a: Submission, b: Submission)
    requires a != b
    ensures var index := |subs|;
      var afterBoth := WriteAt(WriteAt(subs, index, a), index, b);
      afterBoth == subs + [b] && a !in afterBoth[index..]
  {
  }
}
