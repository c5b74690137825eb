/** `TooltipText`: optional truncation of a text after `maxChars` characters,
    and whether the full text goes into a tooltip or into the `title`
    attribute. The overflow measurement of the rendered element is an input. */
module ToolTip {
  import opened Common

  /** `s.slice(0, end)`: a negative end counts from the end of the string. */
  function SliceTo(s: string, end: int): (r: string)
    ensures |r| <= |s|
    ensures r == s[..|r|]
  {
    if end >= 0 then (if end <= |s| then s[..end] else s)
    else if |s| + end >= 0 then s[..|s| + end] else ""
  }

  /** `isJsTruncated = maxChars && text.length > maxChars` (0 and absent are falsy). */
  predicate IsJsTruncated(text: string, maxChars: Option<int>)
  {
    maxChars.Some? && maxChars.value != 0 && |text| > maxChars.value
  }

  /** `displayText`. */
  function DisplayText(text: string, maxChars: Option<int>): string
  {
    if IsJsTruncated(text, maxChars) then SliceTo(text, maxChars.value) + "..." else text
  }

  /** `shouldShowTooltip = isJsTruncated || (truncate && isOverflowed)`. */
  predicate ShouldShowTooltip(text: string, maxChars: Option<int>, truncate: bool, isOverflowed: bool)
  {
    IsJsTruncated(text, maxChars) || (truncate && isOverflowed)
  }

  /** The `title` attribute of the text element: the full text when no
      tooltip is shown. */
  function FallbackTitle(text: string, maxChars: Option<int>, truncate: bool, isOverflowed: bool): Option<string>
  {
    if !ShouldShowTooltip(text, maxChars, truncate, isOverflowed) then Some(text) else None
  }

  /** What the tooltip shows, when there is one. */
  function TooltipContent(text: string, maxChars: Option<int>, truncate: bool, isOverflowed: bool): Option<string>
  {
    if ShouldShowTooltip(text, maxChars, truncate, isOverflowed) then Some(text) else None
  }

  /** A positive limit below the length keeps exactly `maxChars` characters of
      the text and appends "..."; otherwise the text is shown unchanged. */
  lemma DisplayTextPositive(text: string, maxChars: int)
    requires maxChars > 0
    ensures |text| > maxChars ==>
      DisplayText(text, Some(maxChars)) == text[..maxChars] + "..."
      && |DisplayText(text, Some(maxChars))| == maxChars + 3
    ensures |text| <= maxChars ==> DisplayText(text, Some(maxChars)) == text
  {
  }

  /** With no limit, or a limit of 0, the text is shown unchanged. */
  lemma NoLimitNoTruncation(text: string, truncate: bool, isOverflowed: bool)
    ensures DisplayText(text, None) == text && DisplayText(text, Some(0)) == text
    ensures ShouldShowTooltip(text, None, truncate, isOverflowed) <==> truncate && isOverflowed
  {
  }

  /** Whatever is displayed is either the text or a prefix of it followed by
      "..."; it is never longer than the text plus the ellipsis. */
  lemma DisplayIsPrefixOrText(text: string, maxChars: Option<int>)
    ensures var d := DisplayText(text, maxChars);
      d == text
      || (|d| >= 3 && d[|d| - 3..] == "..." && d[..|d| - 3] == text[..|d| - 3])
    ensures |DisplayText(text, maxChars)| <= |text| + 3
  {
    if IsJsTruncated(text, maxChars) {
      var p := SliceTo(text, maxChars.value);
      var d := p + "...";
      assert d[|d| - 3..] == "...";
      assert d[..|d| - 3] == p;
    }
  }

  /** Exactly one of the tooltip content and the fallback title is present, and
      it is always the full, untruncated text. */
  lemma FullTextAlwaysReachable(text: string, maxChars: Option<int>, truncate: bool, isOverflowed: bool)
    ensures FallbackTitle(text, maxChars, truncate, isOverflowed).Some?
            != TooltipContent(text, maxChars, truncate, isOverflowed).Some?
    ensures FallbackTitle(text, maxChars, truncate, isOverflowed) == Some(text)
            || TooltipContent(text, maxChars, truncate, isOverflowed) == Some(text)
  {
  }

  /** If no tooltip is shown, the displayed text is the whole text. */
  lemma NoTooltipMeansWholeText(text: string, maxChars: Option<int>, truncate: bool, isOverflowed: bool)
    requires !ShouldShowTooltip(text, maxChars, truncate, isOverflowed)
    ensures DisplayText(text, maxChars) == text
  {
  }

  /** The converse fails: a truncated text can display as itself (a text
      ending in "..." cut three characters early), yet the tooltip is shown. */
  lemma TruncatedCanLookWhole()
    ensures IsJsTruncated("ab...", Some(2))
    ensures DisplayText("ab...", Some(2)) == "ab..."
  {
    assert SliceTo("ab...", 2) == "ab";
  }

  /** A negative limit is truthy and longer texts lose that many characters
      from the end before the ellipsis, as `slice` does. */
  lemma NegativeLimit(text: string, k: int)
    requires 0 < k <= |text|
    ensures DisplayText(text, Some(-k)) == text[..|text| - k] + "..."
  {
  }
}
