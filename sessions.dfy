/** Runs of queued jobs. The queue applies jobs strictly in the order they were
    enqueued, so a run is the left-to-right composition of the job transitions. */
module Sessions {
  import opened PromptModel
  import Jobs

  datatype Op =
    | AddPromptOp(text: string)
    | RemovePromptOp(id: int)
    | RemovePromptIntendedOp(id: int)
    | DailyOp(now: Timestamp, sameDay: bool)
    | SubmitOp(promptId: int, author: string, link: string, now: Timestamp)

  /** The document one job leaves behind. `removePrompt` as written deletes a
      path outside the document's fields, so it leaves the document as it was. */
  function Apply(d: Document, op: Op): Document
  {
    match op
    case AddPromptOp(text) => Jobs.AddPrompt(d, text)
    case RemovePromptOp(_) => d
    case RemovePromptIntendedOp(id) => Jobs.RemovePromptIntended(d, id)
    case DailyOp(now, sameDay) => Jobs.Daily(d, now, sameDay).doc
    case SubmitOp(promptId, author, link, now) => Jobs.Submit(d, promptId, author, link, now).doc
  }

  /** The document after the jobs of `ops`, in order: each `addPrompt` moves
      `nextId` by one, and nothing else moves it. */
  function Run(d: Document, ops: seq<Op>): (r: Document)
    decreases |ops|
    ensures r.nextId == d.nextId + CountAdds(ops)
  {
    if ops == [] then d else Run(Apply(d, ops[0]), ops[1..])
  }

  /** The ids the `addPrompt` jobs of a run hand out, in order. */
  function AssignedIds(d: Document, ops: seq<Op>): seq<int>
    decreases |ops|
  {
    if ops == [] then []
    else (if ops[0].AddPromptOp? then [d.nextId] else []) + AssignedIds(Apply(d, ops[0]), ops[1..])
  }

  function CountAdds(ops: seq<Op>): nat
  {
    if ops == [] then 0 else (if ops[0].AddPromptOp? then 1 else 0) + CountAdds(ops[1..])
  }

  /** from, from + 1, ..., from + n - 1 */
  function Range(from: int, n: nat): (r: seq<int>)
    decreases n
    ensures |r| == n
    ensures forall i :: 0 <= i < n ==> r[i] == from + i
  {
    if n == 0 then [] else [from] + Range(from + 1, n - 1)
  }

  /** Only `addPrompt` moves `nextId`, and by exactly one. */
  lemma ApplyMovesNextIdOnlyOnAdd(d: Document, op: Op)
    ensures Apply(d, op).nextId == d.nextId + (if op.AddPromptOp? then 1 else 0)
  {
  }

  /** Whatever else is interleaved, the `addPrompt` jobs of a run hand out
      `nextId`, `nextId` + 1, ... in order, and `nextId` ends up past all of them. */
  lemma {:induction false} IdsAreConsecutive(d: Document, ops: seq<Op>)
    ensures AssignedIds(d, ops) == Range(d.nextId, CountAdds(ops))
    ensures Run(d, ops).nextId == d.nextId + CountAdds(ops)
    decreases |ops|
  {
    if ops != [] {
      var d' := Apply(d, ops[0]);
      ApplyMovesNextIdOnlyOnAdd(d, ops[0]);
      IdsAreConsecutive(d', ops[1..]);
    }
  }

  /** From a fresh store the k-th prompt added (counting from 0) gets id k + 1. */
  lemma IdsFromFreshStore(ops: seq<Op>)
    ensures |AssignedIds(DefaultDocument, ops)| == CountAdds(ops)
    ensures forall i :: 0 <= i < CountAdds(ops) ==> AssignedIds(DefaultDocument, ops)[i] == i + 1
  {
    IdsAreConsecutive(DefaultDocument, ops);
  }

  /** A run keeps the document well formed; if it removes nothing for real, it
      also keeps the daily marker pointing at an existing, flagged prompt. */
  lemma {:induction false} RunKeepsInvariants(d: Document, ops: seq<Op>)
    requires Jobs.WellFormed(d)
    ensures Jobs.WellFormed(Run(d, ops))
    ensures Jobs.TodayConsistent(d) && (forall i :: 0 <= i < |ops| ==> !ops[i].RemovePromptIntendedOp?) ==>
      Jobs.TodayConsistent(Run(d, ops))
    decreases |ops|
  {
    if ops != [] {
      var op := ops[0];
      match op {
        case AddPromptOp(text) => Jobs.AddPromptKeepsInvariants(d, text);
        case RemovePromptOp(_) =>
        case RemovePromptIntendedOp(id) =>
        case DailyOp(now, sameDay) => Jobs.DailyKeepsInvariants(d, now, sameDay, Jobs.ScanStart(d.todayPrompt));
        case SubmitOp(promptId, author, link, now) => Jobs.SubmitKeepsInvariants(d, promptId, author, link, now);
      }
      assert forall i :: 0 <= i < |ops[1..]| ==> ops[1..][i] == ops[i + 1];
      RunKeepsInvariants(Apply(d, op), ops[1..]);
    }
  }

  /** No id is handed out twice, and none of them names a prompt that was
      there before the run. */
  lemma AssignedIdsAreFresh(d: Document, ops: seq<Op>)
    requires Jobs.WellFormed(d)
    ensures var ids := AssignedIds(d, ops);
      && (forall i :: 0 <= i < |ids| ==> ids[i] !in d.prompts)
      && (forall i, j :: 0 <= i < j < |ids| ==> ids[i] < ids[j])
  {
    IdsAreConsecutive(d, ops);
  }

  // ------------------------------------------------------ queued submissions

  datatype Entry = Entry(author: string, link: string, now: Timestamp)

  function SubmitOps(promptId: int, entries: seq<Entry>): seq<Op>
  {
    if entries == [] then []
    else [SubmitOp(promptId, entries[0].author, entries[0].link, entries[0].now)] + SubmitOps(promptId, entries[1..])
  }

  function AsSubmissions(entries: seq<Entry>): (r: seq<Submission>)
    ensures |r| == |entries|
    ensures forall i :: 0 <= i < |entries| ==> r[i] == Submission(entries[i].link, entries[i].author, entries[i].now)
  {
    if entries == [] then [] else [Submission(entries[0].link, entries[0].author, entries[0].now)] + AsSubmissions(entries[1..])
  }

  /** Running a queue of submissions is running its first and then the rest. */
  lemma RunSubmitOpsStep(d: Document, promptId: int, entries: seq<Entry>)
    requires entries != []
    ensures Run(d, SubmitOps(promptId, entries)) ==
      Run(Jobs.Submit(d, promptId, entries[0].author, entries[0].link, entries[0].now).doc, SubmitOps(promptId, entries[1..]))
  {
    var ops := SubmitOps(promptId, entries);
    assert ops[0] == SubmitOp(promptId, entries[0].author, entries[0].link, entries[0].now);
    assert ops[1..] == SubmitOps(promptId, entries[1..]);
  }

  /** `r` is `d` with at most the submissions of prompt `promptId` changed. */
  predicate SameExceptSubmissions(d: Document, r: Document, promptId: int)
  {
    && promptId in d.prompts
    && r.prompts.Keys == d.prompts.Keys && r.nextId == d.nextId && r.todayPrompt == d.todayPrompt
    && (forall k :: k in d.prompts && k != promptId ==> r.prompts[k] == d.prompts[k])
    && r.prompts[promptId] == d.prompts[promptId].(submissions := r.prompts[promptId].submissions)
  }

  /** Submissions queued one after the other for an existing prompt land at the
      indices old length, old length + 1, ... in queue order: no gap, no
      collision, and nothing already there is touched. */
  lemma {:induction false} QueuedSubmitsAppendInOrder(d: Document, promptId: int, entries: seq<Entry>)
    requires promptId in d.prompts
    ensures var r := Run(d, SubmitOps(promptId, entries));
      && SameExceptSubmissions(d, r, promptId)
      && r.prompts[promptId].submissions == d.prompts[promptId].submissions + AsSubmissions(entries)
    decreases |entries|
  {
    if entries != [] {
      var e := entries[0];
      var d' := Jobs.Submit(d, promptId, e.author, e.link, e.now).doc;
      RunSubmitOpsStep(d, promptId, entries);
      QueuedSubmitsAppendInOrder(d', promptId, entries[1..]);
      AppendThenRest(d, d', Run(d', SubmitOps(promptId, entries[1..])), promptId,
        Submission(e.link, e.author, e.now), AsSubmissions(entries[1..]));
      assert AsSubmissions(entries) == [Submission(e.link, e.author, e.now)] + AsSubmissions(entries[1..]);
    } else {
      assert SubmitOps(promptId, entries) == [];
    }
  }

  /** The inductive step of the lemma above: `s` appended to `d`'s submissions
      gives `d'`, and `rest` appended to those gives `r`. */
  lemma AppendThenRest(d: Document, d': Document, r: Document, promptId: int, s: Submission, rest: seq<Submission>)
    requires SameExceptSubmissions(d, d', promptId) && SameExceptSubmissions(d', r, promptId)
    requires d'.prompts[promptId].submissions == d.prompts[promptId].submissions + [s]
    requires r.prompts[promptId].submissions == d'.prompts[promptId].submissions + rest
    ensures SameExceptSubmissions(d, r, promptId)
    ensures r.prompts[promptId].submissions == d.prompts[promptId].submissions + ([s] + rest)
  {
  }

  // ------------------------------------------------------------------ rotation

  /** `getDailyPrompt` as it runs: literal `isToday`, scan from the last pick. */
  function DailyAsRun(d: Document, now: Timestamp): Jobs.DailyOutcome
  {
    Jobs.Daily(d, now, d.todayPrompt.Some? && IsTodayAsWritten(d.todayPrompt.value.date, now))
  }

  /** `getDailyPrompt` as intended: calendar-day check, scan after the last pick. */
  function DailyCorrected(d: Document, now: Timestamp): Jobs.DailyOutcome
  {
    Jobs.DailyIntended(d, now, d.todayPrompt.Some? && IsToday(d.todayPrompt.value.date, now))
  }

  /** The document after `addPrompt("A")` and `addPrompt("B")` on a fresh store. */
  function TwoPrompts(): (d: Document)
    ensures d.prompts == map[1 := NewPrompt(1, "A"), 2 := NewPrompt(2, "B")] && d.nextId == 3 && d.todayPrompt.None?
  {
    Run(DefaultDocument, [AddPromptOp("A"), AddPromptOp("B")])
  }

  /** As it runs, the rotation over prompts "A" and "B" serves "A" on the first
      day, again later that day, and again on the next day: it never reaches "B". */
  lemma RotationAsRunSticks(day1: Timestamp, day2: Timestamp)
    ensures var o1 := DailyAsRun(TwoPrompts(), day1);
      var o2 := DailyAsRun(o1.doc, day1);
      var o3 := DailyAsRun(o2.doc, day2);
      && o1.pick.Some? && o1.pick.value.text == "A" && o1.writes
      && o2.pick == o1.pick && o2.writes
      && o3.pick == o1.pick && o3.writes
  {
  }

  /** As intended, the rotation over "A" and "B" serves "A" on day 1 (twice,
      the second time without a write), "B" on day 2, nothing on day 3, and
      then starts over with "A" on day 4, because exhaustion clears the marker. */
  lemma RotationCorrected(day1: Timestamp, day2: Timestamp, day3: Timestamp, day4: Timestamp)
    requires !IsToday(day1, day2) && !IsToday(day2, day3)
    ensures var o1 := DailyCorrected(TwoPrompts(), day1);
      var o2 := DailyCorrected(o1.doc, day1);
      var o3 := DailyCorrected(o2.doc, day2);
      var o4 := DailyCorrected(o3.doc, day3);
      var o5 := DailyCorrected(o4.doc, day4);
      && o1.pick.Some? && o1.pick.value.text == "A"
      && o2.pick == o1.pick && !o2.writes
      && o3.pick.Some? && o3.pick.value.text == "B"
      && o4.pick.None? && o4.doc.todayPrompt.None?
      && o5.pick.Some? && o5.pick.value.text == "A"
  {
  }
}
