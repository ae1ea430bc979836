/**
 * `bst speak`: the utterance is assembled from the command's leading string arguments, and a
 * failure of the speak call is either the missing-token case (guidance, exit status 0) or rethrown.
 */
module BstSpeak {

  const TokenRequired := "Token Required"

  /** One entry of the parsed arguments: a string, or anything else (the command object
      that the argument parser passes after the positional strings). */
  datatype Arg = Str(value: string) | NonString

  /** The strings before the first non-string argument. */
  function LeadingStrings(args: seq<Arg>): (r: seq<string>)
    ensures |r| <= |args|
    ensures forall i :: 0 <= i < |r| ==> args[i] == Str(r[i])
    ensures |r| < |args| ==> args[|r|].NonString?
  {
    if |args| == 0 || args[0].NonString? then []
    else [args[0].value] + LeadingStrings(args[1..])
  }

  /** One turn of the loop: a space first, only when something has already been collected. */
  function Append(utterance: string, arg: string): string
  {
    if |utterance| > 0 then utterance + " " + arg else utterance + arg
  }

  /** The utterance the loop accumulates from `words`, left to right. */
  function Utterance(words: seq<string>): string
  {
    if words == [] then "" else Append(Utterance(words[..|words| - 1]), words[|words| - 1])
  }

  /** Reference definition: the words joined with one space between neighbours. */
  function Join(words: seq<string>): string
  {
    if |words| == 0 then ""
    else if |words| == 1 then words[0]
    else Join(words[..|words| - 1]) + " " + words[|words| - 1]
  }

  /** The words with their leading empty strings removed. */
  function DropLeadingEmpty(words: seq<string>): (r: seq<string>)
    ensures r == [] || r[0] != ""
  {
    if words == [] then []
    else if words[0] == "" then DropLeadingEmpty(words[1..])
    else words
  }

  /** The values of arguments that are all strings, in order. */
  function Values(args: seq<Arg>): (r: seq<string>)
    requires forall j :: 0 <= j < |args| ==> args[j].Str?
    ensures |r| == |args|
    ensures forall j :: 0 <= j < |args| ==> r[j] == args[j].value
  {
    if args == [] then [] else Values(args[..|args| - 1]) + [args[|args| - 1].value]
  }

  /**
   * The action handler's loop: walk the arguments, stop at the first non-string, and append
   * each string with a separating space when the utterance so far is non-empty.
   */
  method BuildUtterance(args: seq<Arg>) returns (utterance: string)
    ensures utterance == Utterance(LeadingStrings(args))
    ensures utterance == Join(DropLeadingEmpty(LeadingStrings(args)))
  {
    utterance := "";
    var i := 0;
    while i < |args|
      invariant 0 <= i <= |args|
      invariant forall j :: 0 <= j < i ==> args[j].Str?
      invariant utterance == Utterance(Values(args[..i]))
    {
      var arg := args[i];
      if arg.NonString? {
        break;
      }
      var done := Values(args[..i]);
      assert args[..i + 1][..i] == args[..i];
      assert Values(args[..i + 1]) == done + [arg.value];
      assert (done + [arg.value])[..|done|] == done;
      utterance := Append(utterance, arg.value);
      i := i + 1;
    }
    LeadingStringsStop(args, i);
    UtteranceIsJoin(LeadingStrings(args));
  }

  /** Where the loop stops, the leading strings are the values read so far. */
  lemma LeadingStringsStop(args: seq<Arg>, i: nat)
    requires i <= |args|
    requires forall j :: 0 <= j < i ==> args[j].Str?
    requires i == |args| || args[i].NonString?
    ensures LeadingStrings(args) == Values(args[..i])
  {
    assert |LeadingStrings(args)| == i;
  }

  /** The joined text is at least as long as the first word. */
  lemma {:induction false} JoinCoversFirst(words: seq<string>)
    requires |words| >= 1
    ensures |Join(words)| >= |words[0]|
  {
    if |words| > 1 {
      JoinCoversFirst(words[..|words| - 1]);
    }
  }

  /** Dropping leading empties distributes over appending one more word. */
  lemma {:induction false} DropLeadingEmptySnoc(words: seq<string>, w: string)
    ensures DropLeadingEmpty(words + [w]) ==
      if DropLeadingEmpty(words) == [] then (if w == "" then [] else [w])
      else DropLeadingEmpty(words) + [w]
  {
    if words != [] {
      assert (words + [w])[1..] == words[1..] + [w];
      if words[0] == "" {
        DropLeadingEmptySnoc(words[1..], w);
      }
    } else {
      assert words + [w] == [w];
      if w == "" { assert [w][1..] == []; }
    }
  }

  /**
   * The separator rule: the loop's result is the plain single-space join of the words once
   * leading empty strings are removed (a leading "" adds no separator, a later one does).
   */
  lemma {:induction false} UtteranceIsJoin(words: seq<string>)
    ensures Utterance(words) == Join(DropLeadingEmpty(words))
    ensures Utterance(words) == "" <==> DropLeadingEmpty(words) == []
  {
    if words != [] {
      var init, w := words[..|words| - 1], words[|words| - 1];
      assert words == init + [w];
      UtteranceIsJoin(init);
      DropLeadingEmptySnoc(init, w);
      var d := DropLeadingEmpty(init);
      if d != [] {
        JoinCoversFirst(d);
        JoinCoversFirst(d + [w]);
        assert (d + [w])[..|d + [w]| - 1] == d;
      }
    }
  }

  /** When no argument is empty, the utterance is exactly the single-space join. */
  lemma UtteranceOfNonEmptyWords(words: seq<string>)
    requires forall i :: 0 <= i < |words| ==> words[i] != ""
    ensures Utterance(words) == Join(words)
  {
    UtteranceIsJoin(words);
  }

  /** What the catch block does with an error from the speak call. */
  datatype ErrorAction = GuideAndExit(status: int) | Rethrow(message: string)

  /** Only the exact message "Token Required" prints guidance and exits with status 0;
      every other error is rethrown unchanged. */
  function ClassifySpeakError(message: string): (r: ErrorAction)
    ensures r.GuideAndExit? <==> message == TokenRequired
    ensures r.GuideAndExit? ==> r.status == 0
    ensures r.Rethrow? ==> r.message == message
  {
    if message == TokenRequired then GuideAndExit(0) else Rethrow(message)
  }
}
