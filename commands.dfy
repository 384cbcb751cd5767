/** The `message` handler's dispatch (index.js): the content is tested against
    "!" + name for each command in a fixed order, and the first name it starts
    with wins. */
module Commands {
  import opened PromptModel

  datatype Command = Daily | Random | Submit | Submissions | Help | PromptAdd | PromptEdit | PromptDelete

  const CommandPrefix: string := "!"

  function Name(c: Command): string
  {
    match c
    case Daily => "daily"
    case Random => "random"
    case Submit => "submit"
    case Submissions => "submissions"
    case Help => "help"
    case PromptAdd => "promptadd"
    case PromptEdit => "promptedit"
    case PromptDelete => "promptdelete"
  }

  /** `isCommand(cmdStr, msg)`: the content starts with "!" + cmdStr. */
  predicate IsCommand(cmdStr: string, content: string): (r: bool)
    // Only content that starts with '!' and is longer than the name can match.
    ensures r ==> |content| > |cmdStr| && content[0] == '!'
  {
    CommandPrefix + cmdStr <= content
  }

  /** A command test holds exactly when the content is "!" followed by the name,
      followed by anything. */
  lemma IsCommandIsBangThenName(cmdStr: string, content: string)
    ensures IsCommand(cmdStr, content) <==>
      |content| > |cmdStr| && content[0] == '!' && content[1..|cmdStr| + 1] == cmdStr
  {
    if |content| > |cmdStr| && content[0] == '!' && content[1..|cmdStr| + 1] == cmdStr {
      assert content[..|cmdStr| + 1] == [content[0]] + content[1..|cmdStr| + 1];
    }
  }

  /** The handler's `if ... else if ...` chain: the command it runs, if any. */
  function Dispatch(content: string): (r: Option<Command>)
    ensures r.Some? ==> IsCommand(Name(r.value), content)
    ensures r.None? ==> forall c: Command :: !IsCommand(Name(c), content)
  {
    if IsCommand("daily", content) then Some(Daily)
    else if IsCommand("random", content) then Some(Random)
    else if IsCommand("submit", content) then Some(Submit)
    else if IsCommand("submissions", content) then Some(Submissions)
    else if IsCommand("help", content) then Some(Help)
    else if IsCommand("promptadd", content) then Some(PromptAdd)
    else if IsCommand("promptedit", content) then Some(PromptEdit)
    else if IsCommand("promptdelete", content) then Some(PromptDelete)
    else None
  }

  /** Two prefixes of one sequence: the shorter is a prefix of the longer. */
  lemma PrefixesAreNested(a: string, b: string, s: string)
    requires a <= s && b <= s && |a| <= |b|
    ensures a <= b
  {
  }

  /** A sequence is not a prefix of one it differs from at a shared position. */
  lemma DifferentAtIsNotPrefix(a: string, b: string, k: nat)
    requires k < |a| && k < |b| && a[k] != b[k]
    ensures !(a <= b)
  {
  }

  /** No command name is a prefix of another: names that share a first letter
      part at their sixth letter ("submit", "submissions") or their seventh
      ("promptadd", "promptedit", "promptdelete"). */
  lemma NamesArePrefixFree(c1: Command, c2: Command)
    requires c1 != c2
    ensures !(Name(c1) <= Name(c2))
  {
    var k :=
      if (c1.Submit? || c1.Submissions?) && (c2.Submit? || c2.Submissions?) then 5
      else if (c1.PromptAdd? || c1.PromptEdit? || c1.PromptDelete?) && (c2.PromptAdd? || c2.PromptEdit? || c2.PromptDelete?) then 6
      else 0;
    DifferentAtIsNotPrefix(Name(c1), Name(c2), k);
  }

  /** At most one command matches any content. */
  lemma AtMostOneMatches(c1: Command, c2: Command, content: string)
    requires IsCommand(Name(c1), content) && IsCommand(Name(c2), content)
    ensures c1 == c2
  {
    if c1 != c2 {
      var p1, p2 := CommandPrefix + Name(c1), CommandPrefix + Name(c2);
      if |p1| <= |p2| {
        PrefixesAreNested(p1, p2, content);
        assert Name(c1) == p1[1..] && Name(c2)[..|Name(c1)|] == p2[1..|p1|];
        NamesArePrefixFree(c1, c2);
      } else {
        PrefixesAreNested(p2, p1, content);
        assert Name(c2) == p2[1..] && Name(c1)[..|Name(c2)|] == p1[1..|p2|];
        NamesArePrefixFree(c2, c1);
      }
    }
  }

  /** So the order of the chain decides nothing: a content is dispatched to a
      command exactly when it starts with that command's "!" + name. */
  lemma DispatchIsOrderIndependent(content: string, c: Command)
    ensures Dispatch(content) == Some(c) <==> IsCommand(Name(c), content)
  {
    if IsCommand(Name(c), content) && Dispatch(content) != Some(c) {
      AtMostOneMatches(c, Dispatch(content).value, content);
    }
  }

  /** A message that does not start with "!" runs no command. */
  lemma NoPrefixNoCommand(content: string)
    requires |content| == 0 || content[0] != '!'
    ensures Dispatch(content) == None
  {
  }

  /** "!submissions 3" reaches the submissions handler, not the submit one. */
  lemma DispatchSubmissionsExample()
    ensures Dispatch("!submissions 3") == Some(Submissions)
  {
    assert "!submissions 3"[1..12] == "submissions";
    DispatchIsOrderIndependent("!submissions 3", Submissions);
  }

  /** "!submit 3 url" reaches the submit handler. */
  lemma DispatchSubmitExample()
    ensures Dispatch("!submit 3 https://example.com") == Some(Submit)
  {
    var msg := "!submit 3 https://example.com";
    assert msg[1..7] == "submit" by {
      assert msg[1] == 's' && msg[2] == 'u' && msg[3] == 'b' && msg[4] == 'm' && msg[5] == 'i' && msg[6] == 't';
    }
    DispatchIsOrderIndependent(msg, Submit);
  }

  /** A longer word that starts with a name, such as "!dailyx", still runs that command. */
  lemma DispatchLongerWordExample()
    ensures Dispatch("!dailyx") == Some(Daily)
  {
    assert "!dailyx"[1..6] == "daily";
  }
}
