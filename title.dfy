/** `formatPromptAsTitle`: the gallery card title made from a prompt by keeping its
    first few space-separated words. */
module Title {
  import opened JsString

  /** How many pieces of `prompt.split(' ')` a title keeps. */
  const TitleWordLimit := 5
  /** What marks a title that was cut short. */
  const Ellipsis := "..."

  function FormatPromptAsTitle(prompt: string): string {
    var words := Split(prompt);
    if |words| <= TitleWordLimit then prompt else Join(words[..TitleWordLimit]) + Ellipsis
  }

  /** The first `n` words of a split, joined again, are the prompt up to (and not
      including) its `n`-th space. */
  lemma WordsPrefixEndsAtSpace(prompt: string, n: nat)
    requires 1 <= n < |Split(prompt)|
    ensures var head := Join(Split(prompt)[..n]);
      |head| < |prompt| && prompt[..|head|] == head && prompt[|head|] == ' '
  {
    var words := Split(prompt);
    var head := Join(words[..n]);
    JoinAppend(words, n);
    JoinSplit(prompt);
    assert prompt == head + " " + Join(words[n..]);
  }

  /** The first `n` words of a split, joined again, hold `n - 1` spaces. */
  lemma WordsPrefixSpaces(prompt: string, n: nat)
    requires 1 <= n <= |Split(prompt)|
    ensures SpaceCount(Join(Split(prompt)[..n])) == n - 1
  {
    var words := Split(prompt);
    SplitHasNoSpaces(prompt);
    assert NoSpaces(words[..n]);
    SplitJoin(words[..n]);
  }

  /** A prompt with more than four spaces is cut just before its fifth space: the title
      is the prefix of the prompt holding exactly four spaces, followed by "...". */
  lemma TitleOfLongPrompt(prompt: string)
    requires SpaceCount(prompt) > TitleWordLimit - 1
    ensures exists k ::
      && 0 <= k < |prompt|
      && prompt[k] == ' '
      && SpaceCount(prompt[..k]) == TitleWordLimit - 1
      && FormatPromptAsTitle(prompt) == prompt[..k] + Ellipsis
  {
    var head := Join(Split(prompt)[..TitleWordLimit]);
    WordsPrefixEndsAtSpace(prompt, TitleWordLimit);
    WordsPrefixSpaces(prompt, TitleWordLimit);
    var k := |head|;
    assert prompt[..k] == head;
  }

  /** The title is the prompt itself exactly when the prompt has at most four spaces,
      that is at most five words. */
  lemma TitleUnchangedIffShort(prompt: string)
    ensures FormatPromptAsTitle(prompt) == prompt <==> SpaceCount(prompt) <= TitleWordLimit - 1
  {
    if SpaceCount(prompt) > TitleWordLimit - 1 {
      TitleOfLongPrompt(prompt);
      var k :| 0 <= k < |prompt| && prompt[k] == ' ' && FormatPromptAsTitle(prompt) == prompt[..k] + Ellipsis;
      assert (prompt[..k] + Ellipsis)[k] == '.';
    }
  }

  /** A title never has more than five words. */
  lemma TitleHasAtMostFiveWords(prompt: string)
    ensures SpaceCount(FormatPromptAsTitle(prompt)) <= TitleWordLimit - 1
  {
    if SpaceCount(prompt) > TitleWordLimit - 1 {
      TitleOfLongPrompt(prompt);
      var k :| 0 <= k < |prompt| && SpaceCount(prompt[..k]) == TitleWordLimit - 1 &&
        FormatPromptAsTitle(prompt) == prompt[..k] + Ellipsis;
      SpaceCountAppend(prompt[..k], Ellipsis);
    }
  }

  /** Formatting a title again leaves it as it is. */
  lemma TitleIdempotent(prompt: string)
    ensures FormatPromptAsTitle(FormatPromptAsTitle(prompt)) == FormatPromptAsTitle(prompt)
  {
    TitleHasAtMostFiveWords(prompt);
    TitleUnchangedIffShort(FormatPromptAsTitle(prompt));
  }
}
