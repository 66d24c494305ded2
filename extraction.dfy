/** How `text_to_sql` turns a language-model response into one SQL statement
    (app/agent/base_snowflake.py, lines 72-78): the contents of the first
    "```sql" + newline ... "```" block, stripped, or else the whole response, stripped. */
module Extraction {
  import opened Text

  /** The opening fence the pattern r"```sql\n(.*?)```" requires: lower-case tag, then a newline. */
  const Opener: string := "```sql\n"
  /** The closing fence. */
  const Fence: string := "```"

  /** The SQL statement `text_to_sql` returns for the model's `response`. */
  function ExtractSql(response: string): string {
    match FindFrom(response, Opener, 0)
    case None => Strip(response)
    case Some(i) =>
      match FindFrom(response, Fence, i + |Opener|)
      case None => Strip(response)
      case Some(j) => Strip(response[i + |Opener|..j])
  }

  /** The pattern, with DOTALL and a lazy group, can match `s` with its opener at `i` and its
      closing fence at `j`: the group is everything in between and holds no earlier fence. */
  ghost predicate FenceMatch(s: string, i: int, j: int) {
    && Occurs(s, Opener, i)
    && i + |Opener| <= j
    && Occurs(s, Fence, j)
    && forall k :: i + |Opener| <= k < j ==> !Occurs(s, Fence, k)
  }

  /** The match `re.search` reports: the one whose opener is leftmost. */
  ghost predicate FirstMatch(s: string, i: int, j: int) {
    FenceMatch(s, i, j) && forall i2, j2 :: FenceMatch(s, i2, j2) ==> i <= i2
  }

  /** When the search matches, the result is the stripped group of the leftmost match. */
  lemma ExtractFenced(s: string, i: int, j: int)
    requires FirstMatch(s, i, j)
    ensures ExtractSql(s) == Strip(s[i + |Opener|..j])
  {
    var first := FindFrom(s, Opener, 0);
    assert first.Some?;
    var i0 := first.value;
    assert i0 <= i;
    var f := FindFrom(s, Fence, i0 + |Opener|);
    assert f.Some? && f.value <= j;
    var j0 := f.value;
    assert FenceMatch(s, i0, j0);
    assert i <= i0;
    assert j0 == j;
  }

  /** When no opener is followed by a closing fence the search fails, and the whole
      response, stripped, is used. */
  lemma ExtractFallback(s: string)
    requires forall i, j :: Occurs(s, Opener, i) && i + |Opener| <= j ==> !Occurs(s, Fence, j)
    ensures ExtractSql(s) == Strip(s)
  {
    match FindFrom(s, Opener, 0)
    case None =>
    case Some(i) =>
      assert FindFrom(s, Fence, i + |Opener|).None?;
  }

  /** The two cases are exhaustive: some match exists exactly when some opener is
      followed by a fence, and then a leftmost one exists. */
  lemma SearchDichotomy(s: string)
    ensures (exists i, j :: FirstMatch(s, i, j))
         || (forall i, j :: Occurs(s, Opener, i) && i + |Opener| <= j ==> !Occurs(s, Fence, j))
  {
    match FindFrom(s, Opener, 0)
    case None =>
    case Some(i) =>
      match FindFrom(s, Fence, i + |Opener|)
      case None =>
        forall i2, j2 | Occurs(s, Opener, i2) && i2 + |Opener| <= j2
          ensures !Occurs(s, Fence, j2)
        {
          assert i <= i2;
        }
      case Some(j) =>
        forall i2, j2 | FenceMatch(s, i2, j2) ensures i <= i2 { }
        assert FirstMatch(s, i, j);
  }

  lemma NotOccursAtOtherChar(s: string, pat: string, i: int)
    requires 0 <= i < |s| && |pat| > 0 && s[i] != pat[0]
    ensures !Occurs(s, pat, i)
  {
    if i + |pat| <= |s| {
      assert s[i..i + |pat|][0] == s[i];
    }
  }

  /** Prose around a single fenced block is ignored: with no backquote before the block
      and none inside it, the result is the stripped block, whatever follows it. */
  lemma ExtractIgnoresProse(before: string, body: string, after: string)
    requires forall k :: 0 <= k < |before| ==> before[k] != '`'
    requires forall k :: 0 <= k < |body| ==> body[k] != '`'
    ensures ExtractSql(before + Opener + body + Fence + after) == Strip(body)
  {
    var s := before + Opener + body + Fence + after;
    var i := |before|;
    var j := |before| + |Opener| + |body|;
    assert s[i..i + |Opener|] == Opener;
    assert s[j..j + |Fence|] == Fence;
    forall k | i + |Opener| <= k < j ensures !Occurs(s, Fence, k) {
      assert s[k] == body[k - i - |Opener|];
      NotOccursAtOtherChar(s, Fence, k);
    }
    forall i2 | 0 <= i2 < i ensures !Occurs(s, Opener, i2) {
      assert s[i2] == before[i2];
      NotOccursAtOtherChar(s, Opener, i2);
    }
    assert FirstMatch(s, i, j);
    ExtractFenced(s, i, j);
    assert s[i + |Opener|..j] == body;
  }

  /** An upper-case tag is not a fence: this response is used whole, stripped. */
  lemma UpperCaseTagFallsBack()
    ensures ExtractSql("```SQL\nSELECT 1\n```") == Strip("```SQL\nSELECT 1\n```")
  {
    MissingCharNotContained("```SQL\nSELECT 1\n```", Opener, 3);
  }

  /** A space instead of the newline after the tag is not a fence either. */
  lemma SpaceAfterTagFallsBack()
    ensures ExtractSql("```sql SELECT 1```") == Strip("```sql SELECT 1```")
  {
    MissingCharNotContained("```sql SELECT 1```", Opener, 6);
  }

  /** A response with no backquote and no whitespace at either end is used as it is. */
  lemma ExtractPlain(s: string)
    requires forall k :: 0 <= k < |s| ==> s[k] != '`'
    requires s != [] ==> !IsSpace(s[0]) && !IsSpace(s[|s| - 1])
    ensures ExtractSql(s) == s
  {
    MissingCharNotContained(s, Opener, 0);
    assert LeadingSpace(s) == 0;
    assert s[0..] == s;
    assert TrailingSpace(s) == 0;
  }
}
