/** index.js's `Storage`: the remote root document and the jobs that read it,
    change it in memory and write it back. The queue runs these jobs one at a
    time in the order they were enqueued, so each method below is one job run
    to completion; the write-back assigns `stored`. */
module PromptStore {
  import opened PromptModel
  import Jobs

  /** The rotation scan of `getDailyPrompt`: starting one below `start`, step the
      candidate up and look it up, until a prompt is found or the candidate has
      reached `nextId`. */
  method ScanForPrompt(prompts: map<int, Prompt>, start: int, nextId: int)
    returns (nextPrompt: Option<Prompt>, nextPromptId: int)
    ensures nextPrompt.Some? <==> Jobs.FirstFrom(prompts, start, nextId).Some?
    ensures nextPrompt.Some? ==>
      nextPromptId == Jobs.FirstFrom(prompts, start, nextId).value && nextPrompt.value == prompts[nextPromptId]
  {
    nextPrompt := None;
    nextPromptId := start - 1;
    while nextPrompt.None? && nextPromptId < nextId
      invariant start - 1 <= nextPromptId
      invariant nextPrompt.Some? ==> nextPromptId in prompts && nextPrompt.value == prompts[nextPromptId]
      invariant Jobs.FirstFrom(prompts, start, nextId) ==
        if nextPrompt.Some? then Some(nextPromptId) else Jobs.FirstFrom(prompts, nextPromptId + 1, nextId)
      decreases nextId - nextPromptId
    {
      nextPromptId := nextPromptId + 1;
      nextPrompt := Jobs.Lookup(prompts, nextPromptId);
    }
  }

  class Storage {
    /** What the store holds at "/": None when nothing is stored. */
    var stored: Option<Document>

    ghost predicate Valid()
      reads this
    {
      stored.Some? ==> Jobs.WellFormed(stored.value)
    }

    /** The document a job works on (`getData`). */
    function Data(): Document
      reads this
    {
      GetData(stored)
    }

    /** `new Storage(token)`: the first job it queues deletes "/". */
    constructor ()
      ensures Valid() && stored == None
      ensures Data() == DefaultDocument
    {
      stored := None;
    }

    /** `addPrompt(text)`. */
    method AddPrompt(text: string)
      requires Valid()
      modifies this
      ensures Valid()
      ensures stored == Some(Jobs.AddPrompt(old(Data()), text))
      ensures Data().prompts == old(Data().prompts)[old(Data().nextId) := NewPrompt(old(Data().nextId), text)]
      ensures old(Data().nextId) !in old(Data().prompts)
      ensures Data().nextId == old(Data().nextId) + 1
      ensures Data().todayPrompt == old(Data().todayPrompt)
      ensures Jobs.TodayConsistent(old(Data())) ==> Jobs.TodayConsistent(Data())
    {
      var data := GetData(stored);
      Jobs.AddPromptKeepsInvariants(data, text);
      data := data.(prompts := data.prompts[data.nextId := NewPrompt(data.nextId, text)]);
      data := data.(nextId := data.nextId + 1);
      stored := Some(data);
    }

    /** `removePrompt(promptId)` deletes "data/prompts/P" + promptId. The
        document keeps its prompts at "prompts", not under "data", so the
        deletion reaches nothing the store's other operations read or write. */
    method RemovePrompt(promptId: int)
      requires Valid()
      modifies this
      ensures Valid()
      ensures stored == old(stored)
    {
    }

    /** The deletion of "prompts/P" + promptId that `removePrompt` was meant to make. */
    method RemovePromptIntended(promptId: int)
      requires Valid()
      modifies this
      ensures Valid()
      ensures old(stored).None? ==> stored == old(stored)
      ensures old(stored).Some? ==> stored == Some(Jobs.RemovePromptIntended(old(Data()), promptId))
      ensures promptId !in Data().prompts
      ensures Data().nextId == old(Data().nextId) && Data().todayPrompt == old(Data().todayPrompt)
    {
      if stored.Some? {
        var data := stored.value;
        data := data.(prompts := data.prompts - {promptId});
        stored := Some(data);
      }
    }

    /** `getDailyPrompt()` at time `now`; `sameDay` is what `isToday(todayPrompt.date)`
        yields (with the literal `isToday`, always false). */
    method GetDailyPrompt(now: Timestamp, sameDay: bool) returns (result: Option<Prompt>)
      requires Valid()
      modifies this
      ensures Valid()
      ensures var o := Jobs.Daily(old(Data()), now, sameDay);
        && result == o.pick
        && stored == (if o.writes then Some(o.doc) else old(stored))
      ensures Data().nextId == old(Data().nextId)
      ensures Jobs.TodayConsistent(old(Data())) ==> Jobs.TodayConsistent(Data())
    {
      var data := GetData(stored);
      Jobs.DailyKeepsInvariants(data, now, sameDay, Jobs.ScanStart(data.todayPrompt));
      if data.todayPrompt.None? || !sameDay {
        var nextPrompt, nextPromptId := ScanForPrompt(data.prompts, Jobs.ScanStart(data.todayPrompt), data.nextId);
        if nextPrompt.None? {
          data := data.(todayPrompt := None);
          stored := Some(data);
          result := None;
        } else {
          data := data.(todayPrompt := Some(NewDailyPrompt(nextPromptId, now)));
          var picked := data.prompts[nextPromptId].(hasBeenDaily := true);
          data := data.(prompts := data.prompts[nextPromptId := picked]);
          stored := Some(data);
          result := Some(picked);
        }
      } else {
        result := Jobs.Lookup(data.prompts, data.todayPrompt.value.promptId);
      }
    }

    /** `getPrompts()`: the prompts of the document as it stands; not queued,
        so it may run between another job's read and its write. */
    method GetPrompts() returns (prompts: map<int, Prompt>)
      ensures prompts == Data().prompts
      ensures stored.None? ==> prompts == map[]
    {
      var data := GetData(stored);
      prompts := data.prompts;
    }

    /** `addSubmissionToPrompt(promptId, author, link)` at time `now`: false for
        an unknown prompt; otherwise the submission is written at
        "prompts/P<id>/submissions/<n>", n being the current number of submissions. */
    method AddSubmissionToPrompt(promptId: int, author: string, link: string, now: Timestamp) returns (found: bool)
      requires Valid()
      modifies this
      ensures Valid()
      ensures var o := Jobs.Submit(old(Data()), promptId, author, link, now);
        && found == o.found
        && stored == (if found then Some(o.doc) else old(stored))
      ensures found ==>
        Data().prompts[promptId].submissions == old(Data().prompts[promptId].submissions) + [Submission(link, author, now)]
      ensures Jobs.TodayConsistent(old(Data())) ==> Jobs.TodayConsistent(Data())
    {
      var data := GetData(stored);
      Jobs.SubmitKeepsInvariants(data, promptId, author, link, now);
      if promptId !in data.prompts {
        found := false;
      } else {
        var p := data.prompts[promptId];
        var newIndex := |p.submissions|;
        var subs := Jobs.WriteAt(p.submissions, newIndex, NewSubmission(link, author, None, now));
        stored := Some(data.(prompts := data.prompts[promptId := p.(submissions := subs)]));
        found := true;
      }
    }
  }

  /** A session driven only through the methods' contracts: the start-up
      sequence of index.js (wipe, then three prompts), two submissions, and
      two days of rotation with the literal `isToday`. */
  method StartupSession(day1: Timestamp, day2: Timestamp, author: string)
  {
    var s := new Storage();
    s.AddPrompt("Some cool prompt.");
    s.AddPrompt("And another one.");
    s.AddPrompt("One more for good measure.");
    assert s.Data().nextId == 4 && s.Data().prompts.Keys == {1, 2, 3};

    var ok := s.AddSubmissionToPrompt(2, author, "https://example.com/a", day1);
    assert ok;
    ok := s.AddSubmissionToPrompt(2, author, "https://example.com/b", day1);
    assert s.Data().prompts[2].submissions ==
      [Submission("https://example.com/a", author, day1), Submission("https://example.com/b", author, day1)];
    ok := s.AddSubmissionToPrompt(7, author, "https://example.com/c", day1);
    assert !ok;

    var first := s.GetDailyPrompt(day1, false);
    assert first.Some? && first.value.id == 1 && first.value.hasBeenDaily;
    var second := s.GetDailyPrompt(day2, IsTodayAsWritten(s.Data().todayPrompt.value.date, day2));
    assert second == first;
  }
}
