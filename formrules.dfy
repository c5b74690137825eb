/** The field rules that the Mantra and Story form schemas share: text lengths,
    the comma-separated tag list, and the MIME-type checks on chosen files.
    Lengths are counted on the value as typed (the schemas check `min`/`max`
    before their `trim`). */
module FormRules {
  import opened Common

  /** The characters `String.prototype.trim` removes: white space and line
      terminators. */
  predicate IsWhitespace(c: char)
  {
    c in {'\U{9}', '\U{A}', '\U{B}', '\U{C}', '\U{D}', '\U{20}', '\U{A0}', '\U{1680}',
          '\U{2000}', '\U{2001}', '\U{2002}', '\U{2003}', '\U{2004}', '\U{2005}', '\U{2006}', '\U{2007}',
          '\U{2008}', '\U{2009}', '\U{200A}', '\U{2028}', '\U{2029}', '\U{202F}', '\U{205F}', '\U{3000}',
          '\U{FEFF}'}
  }

  function TrimStart(s: string): (r: string)
    ensures |r| <= |s| && r == s[|s| - |r|..]
    ensures r != [] ==> !IsWhitespace(r[0])
    ensures forall i :: 0 <= i < |s| - |r| ==> IsWhitespace(s[i])
  {
    if s != [] && IsWhitespace(s[0]) then TrimStart(s[1..]) else s
  }

  function TrimEnd(s: string): (r: string)
    ensures |r| <= |s| && r == s[..|r|]
    ensures r != [] ==> !IsWhitespace(r[|r| - 1])
    ensures forall i :: |r| <= i < |s| ==> IsWhitespace(s[i])
  {
    if s != [] && IsWhitespace(s[|s| - 1]) then TrimEnd(s[..|s| - 1]) else s
  }

  /** `t` is the run of `s` from index `i` on, everything of `s` before and
      after it is white space, and `t` itself neither starts nor ends with
      white space. */
  predicate TrimmedAt(t: string, s: string, i: nat)
  {
    && i + |t| <= |s| && t == s[i..i + |t|]
    && (forall k :: 0 <= k < i ==> IsWhitespace(s[k]))
    && (forall k :: i + |t| <= k < |s| ==> IsWhitespace(s[k]))
    && (t != [] ==> !IsWhitespace(t[0]) && !IsWhitespace(t[|t| - 1]))
  }

  /** `t` is `s` with white space, and only white space, taken off both ends. */
  predicate TrimmedFrom(t: string, s: string)
  {
    exists i :: 0 <= i <= |s| && TrimmedAt(t, s, i)
  }

  /** `s.trim()`. */
  function Trim(s: string): (t: string)
    ensures TrimmedFrom(t, s)
  {
    var u := TrimStart(s);
    var t := TrimEnd(u);
    TrimmedOfEnds(s, u, t);
    t
  }

  /** A suffix `u` of `s` with only white space cut off its front, and a
      prefix `t` of `u` with only white space cut off its back, is the run of
      `s` that starts where `u` does. */
  lemma TrimmedOfEnds(s: string, u: string, t: string)
    requires |u| <= |s| && u == s[|s| - |u|..]
    requires u != [] ==> !IsWhitespace(u[0])
    requires forall k :: 0 <= k < |s| - |u| ==> IsWhitespace(s[k])
    requires |t| <= |u| && t == u[..|t|]
    requires t != [] ==> !IsWhitespace(t[|t| - 1])
    requires forall k :: |t| <= k < |u| ==> IsWhitespace(u[k])
    ensures TrimmedAt(t, s, |s| - |u|)
  {
    var i := |s| - |u|;
    assert t == s[i..i + |t|] by {
      assert s[i..][..|t|] == s[i..i + |t|];
    }
    if t != [] {
      assert t[0] == u[0];
    }
    forall k | i + |t| <= k < |s| ensures IsWhitespace(s[k]) {
      assert s[k] == u[k - i];
    }
  }

  /** A trimmed run is empty exactly when `s` has nothing but white space. */
  lemma TrimmedAtContent(t: string, s: string, i: nat)
    requires TrimmedAt(t, s, i)
    ensures t != [] <==> HasContent(s)
  {
    if t != [] {
      assert s[i] == t[0];
    }
    if HasContent(s) {
      var k :| 0 <= k < |s| && !IsWhitespace(s[k]);
      assert i <= k < i + |t|;
    }
  }

  /** Two runs trimmed from the same string are the same run. */
  lemma TrimmedAtUnique(t: string, u: string, s: string, i: nat, j: nat)
    requires TrimmedAt(t, s, i) && TrimmedAt(u, s, j)
    ensures t == u
  {
    TrimmedAtContent(t, s, i);
    TrimmedAtContent(u, s, j);
    if t != [] {
      assert s[i] == t[0] && s[j] == u[0];
      assert i == j;
      assert s[i + |t| - 1] == t[|t| - 1] && s[j + |u| - 1] == u[|u| - 1];
      assert |t| == |u|;
    }
  }

  /** `Trim` is the only string trimmed from `s`: any run of `s` with only
      white space around it and none at its own ends is `s.trim()`. */
  lemma TrimmedFromUnique(t: string, s: string)
    requires TrimmedFrom(t, s)
    ensures t == Trim(s)
  {
    var i :| 0 <= i <= |s| && TrimmedAt(t, s, i);
    var u := Trim(s);
    var j :| 0 <= j <= |s| && TrimmedAt(u, s, j);
    TrimmedAtUnique(t, u, s, i, j);
  }

  /** A segment survives trimming exactly when it holds a character that is
      not white space. */
  lemma TrimEmptyIff(s: string)
    ensures |Trim(s)| > 0 <==> HasContent(s)
  {
    var i :| 0 <= i <= |s| && TrimmedAt(Trim(s), s, i);
    TrimmedAtContent(Trim(s), s, i);
  }

  /** `s.split(sep)` for a one-character separator: never empty, and "" splits
      into [""]. */
  function Split(s: string, sep: char): (parts: seq<string>)
    ensures |parts| >= 1
    ensures forall p :: p in parts ==> sep !in p
  {
    if s == [] then [""]
    else if s[0] == sep then [""] + Split(s[1..], sep)
    else
      var rest := Split(s[1..], sep);
      [[s[0]] + rest[0]] + rest[1..]
  }

  /** `parts.join(sep)`. */
  function Join(parts: seq<string>, sep: char): string
    requires |parts| >= 1
  {
    if |parts| == 1 then parts[0] else parts[0] + [sep] + Join(parts[1..], sep)
  }

  /** Splitting loses nothing: joining the segments back gives the input. */
  lemma {:induction false} SplitJoin(s: string, sep: char)
    ensures Join(Split(s, sep), sep) == s
  {
    if s == [] {
    } else if s[0] == sep {
      SplitJoin(s[1..], sep);
      assert Split(s, sep)[1..] == Split(s[1..], sep);
    } else {
      var rest := Split(s[1..], sep);
      SplitJoin(s[1..], sep);
      var parts := Split(s, sep);
      assert parts[0] == [s[0]] + rest[0];
      if |rest| == 1 {
        assert parts == [[s[0]] + rest[0]];
      } else {
        assert parts[1..] == rest[1..];
        assert Join(rest, sep) == rest[0] + [sep] + Join(rest[1..], sep);
      }
    }
  }

  /** The tags refinement: every comma-separated segment is non-empty after
      trimming. */
  predicate TagSegmentsNonEmpty(tags: string)
  {
    forall seg :: seg in Split(tags, ',') ==> |Trim(seg)| > 0
  }

  predicate TitleOk(title: string)
  {
    3 <= |title| <= 100
  }

  predicate DescriptionOk(description: string)
  {
    10 <= |description| <= 500
  }

  /** The length limits apply to the value as typed; the segment rule, placed
      after `.trim()`, sees the trimmed value. */
  predicate TagsOk(tags: string)
  {
    1 <= |tags| <= 200 && TagSegmentsNonEmpty(Trim(tags))
  }

  /** The text part every Mantra and Story schema requires. */
  predicate TextFieldsOk(title: string, description: string, tags: string)
  {
    TitleOk(title) && DescriptionOk(description) && TagsOk(tags)
  }

  /** Splitting at a separator splits the two sides independently. */
  lemma {:induction false} SplitAtSeparator(a: string, b: string, sep: char)
    ensures Split(a + [sep] + b, sep) == Split(a, sep) + Split(b, sep)
  {
    if a == [] {
      assert a + [sep] + b == [sep] + b;
      assert ([sep] + b)[1..] == b;
    } else {
      assert (a + [sep] + b)[1..] == a[1..] + [sep] + b;
      SplitAtSeparator(a[1..], b, sep);
    }
  }

  /** A character in front that is not the separator joins the first segment. */
  lemma SplitCons(c: char, s: string, sep: char)
    requires c != sep
    ensures Split([c] + s, sep) == [[c] + Split(s, sep)[0]] + Split(s, sep)[1..]
  {
    assert ([c] + s)[1..] == s;
  }

  /** Appending to the last segment commutes with putting a segment in front. */
  lemma ExtendLastAfterFront(x: string, q: seq<string>, c: char)
    requires |q| >= 1
    ensures var r := [x] + q;
      r[..|r| - 1] + [r[|r| - 1] + [c]] == [x] + (q[..|q| - 1] + [q[|q| - 1] + [c]])
  {
    var r := [x] + q;
    assert r[..|r| - 1] == [x] + q[..|q| - 1];
  }

  /** Appending to the last segment commutes with growing the first one at
      the front. */
  lemma ExtendLastAfterHead(h: string, q: seq<string>, c: char)
    requires |q| >= 1
    ensures var r := [h + q[0]] + q[1..];
      var q' := q[..|q| - 1] + [q[|q| - 1] + [c]];
      [h + q'[0]] + q'[1..] == r[..|r| - 1] + [r[|r| - 1] + [c]]
  {
    var q' := q[..|q| - 1] + [q[|q| - 1] + [c]];
    if |q| == 1 {
      assert q' == [q[0] + [c]];
      assert h + (q[0] + [c]) == (h + q[0]) + [c];
    } else {
      assert q'[0] == q[0] && q'[1..] == q[1..|q| - 1] + [q[|q| - 1] + [c]];
    }
  }

  /** A character at the end that is not the separator joins the last segment. */
  lemma {:induction false} SplitSnoc(s: string, c: char, sep: char)
    requires c != sep
    ensures var r := Split(s, sep);
      Split(s + [c], sep) == r[..|r| - 1] + [r[|r| - 1] + [c]]
  {
    if s == [] {
      assert s + [c] == [c] + [];
      SplitCons(c, [], sep);
    } else {
      assert (s + [c])[1..] == s[1..] + [c];
      SplitSnoc(s[1..], c, sep);
      var q := Split(s[1..], sep);
      if s[0] == sep {
        ExtendLastAfterFront("", q, c);
      } else {
        ExtendLastAfterHead([s[0]], q, c);
      }
    }
  }

  /** The segment holds a character that is not white space. */
  predicate HasContent(x: string)
  {
    exists i :: 0 <= i < |x| && !IsWhitespace(x[i])
  }

  /** White space added at either end of a segment does not give it content. */
  lemma ContentPadding(c: char, x: string)
    requires IsWhitespace(c)
    ensures HasContent([c] + x) <==> HasContent(x)
    ensures HasContent(x + [c]) <==> HasContent(x)
  {
    if HasContent(x) {
      var i :| 0 <= i < |x| && !IsWhitespace(x[i]);
      assert ([c] + x)[i + 1] == x[i];
      assert (x + [c])[i] == x[i];
    }
    if HasContent([c] + x) {
      var i :| 0 <= i < |[c] + x| && !IsWhitespace(([c] + x)[i]);
      assert x[i - 1] == ([c] + x)[i];
    }
    if HasContent(x + [c]) {
      var i :| 0 <= i < |x + [c]| && !IsWhitespace((x + [c])[i]);
      assert x[i] == (x + [c])[i];
    }
  }

  /** The tags rule, segment by segment. */
  predicate AllHaveContent(parts: seq<string>)
  {
    forall i :: 0 <= i < |parts| ==> HasContent(parts[i])
  }

  lemma TagRuleByIndex(s: string)
    ensures TagSegmentsNonEmpty(s) <==> AllHaveContent(Split(s, ','))
  {
    var r := Split(s, ',');
    forall seg | seg in r ensures |Trim(seg)| > 0 <==> HasContent(seg) {
      TrimEmptyIff(seg);
    }
    if AllHaveContent(r) {
      forall seg | seg in r ensures HasContent(seg) {
        var i :| 0 <= i < |r| && r[i] == seg;
      }
    }
    if TagSegmentsNonEmpty(s) {
      forall i | 0 <= i < |r| ensures HasContent(r[i]) {
        assert r[i] in r;
      }
    }
  }

  lemma CommaIsNotWhitespace()
    ensures !IsWhitespace(',')
  {
  }

  /** The tags rule ignores white space before the first segment. */
  lemma TagsPaddedFront(c: char, s: string)
    requires IsWhitespace(c)
    ensures AllHaveContent(Split([c] + s, ',')) <==> AllHaveContent(Split(s, ','))
  {
    CommaIsNotWhitespace();
    SplitCons(c, s, ',');
    var r := Split(s, ',');
    var r' := Split([c] + s, ',');
    assert |r'| == |r|;
    ContentPadding(c, r[0]);
    assert r'[0] == [c] + r[0];
    if AllHaveContent(r) {
      forall i | 0 <= i < |r'| ensures HasContent(r'[i]) {
        if i > 0 {
          assert r'[i] == r[i];
        }
      }
    }
    if AllHaveContent(r') {
      forall i | 0 <= i < |r| ensures HasContent(r[i]) {
        if i > 0 {
          assert r'[i] == r[i];
        } else {
          assert HasContent(r'[0]);
        }
      }
    }
  }

  /** The tags rule ignores white space after the last segment. */
  lemma TagsPaddedBack(s: string, c: char)
    requires IsWhitespace(c)
    ensures AllHaveContent(Split(s + [c], ',')) <==> AllHaveContent(Split(s, ','))
  {
    CommaIsNotWhitespace();
    SplitSnoc(s, c, ',');
    var r := Split(s, ',');
    var r' := Split(s + [c], ',');
    var n := |r| - 1;
    assert |r'| == |r|;
    ContentPadding(c, r[n]);
    assert r'[n] == r[n] + [c];
    if AllHaveContent(r) {
      forall i | 0 <= i < |r'| ensures HasContent(r'[i]) {
        if i < n {
          assert r'[i] == r[i];
        }
      }
    }
    if AllHaveContent(r') {
      forall i | 0 <= i < |r| ensures HasContent(r[i]) {
        if i < n {
          assert r'[i] == r[i];
        } else {
          assert HasContent(r'[n]);
        }
      }
    }
  }

  lemma {:induction false} TagsTrimStart(s: string)
    ensures AllHaveContent(Split(TrimStart(s), ',')) <==> AllHaveContent(Split(s, ','))
  {
    if s != [] && IsWhitespace(s[0]) {
      TagsTrimStart(s[1..]);
      assert s == [s[0]] + s[1..];
      TagsPaddedFront(s[0], s[1..]);
    }
  }

  lemma {:induction false} TagsTrimEnd(s: string)
    ensures AllHaveContent(Split(TrimEnd(s), ',')) <==> AllHaveContent(Split(s, ','))
  {
    if s != [] && IsWhitespace(s[|s| - 1]) {
      TagsTrimEnd(s[..|s| - 1]);
      assert s == s[..|s| - 1] + [s[|s| - 1]];
      TagsPaddedBack(s[..|s| - 1], s[|s| - 1]);
    }
  }

  /** Trimming first does not change the segment rule: the refinement
      accepts the trimmed value exactly when it accepts the value as typed. */
  lemma TrimKeepsTagSegments(s: string)
    ensures TagSegmentsNonEmpty(Trim(s)) <==> TagSegmentsNonEmpty(s)
  {
    TagsTrimStart(s);
    TagsTrimEnd(TrimStart(s));
    TagRuleByIndex(s);
    TagRuleByIndex(Trim(s));
  }

  /** The length limits are checked before trimming, so the value passed on
      can be shorter than the minimum. */
  lemma TrimmedTitleCanBeShort()
    ensures TitleOk("   a") && Trim("   a") == "a"
  {
    assert !IsWhitespace('a') && IsWhitespace(' ');
    assert "   a"[1..] == "  a" && "  a"[1..] == " a" && " a"[1..] == "a";
    assert TrimStart("a") == "a";
    assert TrimStart("   a") == "a";
    assert TrimEnd("a") == "a";
  }

  /** Two commas in a row leave an empty segment, which the tags rule rejects. */
  lemma AdjacentCommasRejected(a: string, b: string)
    ensures !TagSegmentsNonEmpty(a + ",," + b)
  {
    assert a + ",," + b == a + [','] + ([','] + b);
    SplitAtSeparator(a, [','] + b, ',');
    assert [','] + b == [] + [','] + b;
    SplitAtSeparator([], b, ',');
    assert "" in Split(a + ",," + b, ',');
    assert Trim("") == "";
  }

  /** The error both dialogs set when the chosen gallery files and the kept
      ones would exceed ten; it names the number of kept photos. */
  const PhotoLimitLead := "You can upload up to 10 photos total. You have "
  const PhotoLimitTail := " existing photos."

  function PhotoLimitError(existing: nat): string
  {
    PhotoLimitLead + NatToString(existing) + PhotoLimitTail
  }

  /** The message reads back the number of kept photos: between its fixed
      lead and tail stand exactly the digits of `existing`. */
  lemma PhotoLimitErrorNamesCount(existing: nat)
    ensures var m := PhotoLimitError(existing);
      && |PhotoLimitLead| + |PhotoLimitTail| < |m|
      && m[..|PhotoLimitLead|] == PhotoLimitLead
      && m[|m| - |PhotoLimitTail|..] == PhotoLimitTail
      && AllDigits(m[|PhotoLimitLead|..|m| - |PhotoLimitTail|])
      && DecimalValue(m[|PhotoLimitLead|..|m| - |PhotoLimitTail|]) == existing
  {
    var d := NatToString(existing);
    var m := PhotoLimitError(existing);
    assert m == PhotoLimitLead + (d + PhotoLimitTail);
    assert m[..|PhotoLimitLead|] == PhotoLimitLead;
    assert m[|PhotoLimitLead|..] == d + PhotoLimitTail;
    assert m[|PhotoLimitLead|..|m| - |PhotoLimitTail|] == (d + PhotoLimitTail)[..|d|] == d;
    assert m[|m| - |PhotoLimitTail|..] == (d + PhotoLimitTail)[|d|..] == PhotoLimitTail;
  }

  /** `file.type.startsWith("image/")`. */
  predicate IsImageFile(f: File)
  {
    StartsWith(f.mimeType, "image/")
  }

  /** `file.type.startsWith("audio/") || file.type === "audio/mp3"`. */
  predicate IsAudioFile(f: File)
  {
    StartsWith(f.mimeType, "audio/") || f.mimeType == "audio/mp3"
  }

  /** The `=== "audio/mp3"` alternative adds nothing: "audio/mp3" already
      starts with "audio/", so the handlers' plain prefix test agrees with
      the schemas. */
  lemma AudioRuleIsPrefixRule(f: File)
    ensures IsAudioFile(f) <==> StartsWith(f.mimeType, "audio/")
  {
    if f.mimeType == "audio/mp3" {
      assert f.mimeType[..6] == "audio/";
    }
  }

  /** `file.type.startsWith("video/")`. */
  predicate IsVideoFile(f: File)
  {
    StartsWith(f.mimeType, "video/")
  }
}
