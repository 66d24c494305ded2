/** The DDL/DML guard of `execute_query` (app/agent/base_snowflake.py, lines 89-102): a
    statement is refused when its upper-cased text contains one of seven keywords, each
    followed by one space character. It is a plain substring test, not a parser. */
module Guard {
  import opened Text

  /** The keywords of lines 90-98, in their order, each with its trailing space. */
  const MutationKeywords: seq<string> :=
    ["CREATE ", "ALTER ", "DROP ", "TRUNCATE ", "INSERT ", "DELETE ", "UPDATE "]

  /** The text of the exception raised for a refused statement (line 100). */
  const GuardMessage: string :=
    "SQL statement is a DDL/DML which may modify database schema, so we will not be executing the statement at this time"

  /** Python's `any(w in text for w in words)`. */
  function AnyContained(text: string, words: seq<string>): (b: bool)
    ensures b <==> exists k :: 0 <= k < |words| && Contains(text, words[k])
  {
    if words == [] then false
    else
      var rest := AnyContained(text, words[1..]);
      assert forall k :: 1 <= k < |words| ==> words[k] == words[1..][k - 1];
      Contains(text, words[0]) || rest
  }

  /** `Contains` is the substring relation. */
  lemma ContainsIff(s: string, pat: string)
    ensures Contains(s, pat) <==> exists i :: Occurs(s, pat, i)
  {
    if !Contains(s, pat) {
      assert forall i :: 0 <= i ==> !Occurs(s, pat, i);
    }
  }

  /** The guard's test (line 99): true exactly when some keyword, trailing space included,
      occurs somewhere in the upper-cased statement. */
  function IsMutation(sql: string): (b: bool)
    ensures b <==> KeywordOccurs(Upper(sql))
  {
    KeywordTestIff(Upper(sql));
    AnyContained(Upper(sql), MutationKeywords)
  }

  /** Some keyword, trailing space included, occurs somewhere in `text`. */
  ghost predicate KeywordOccurs(text: string) {
    exists k, i :: 0 <= k < |MutationKeywords| && Occurs(text, MutationKeywords[k], i)
  }

  lemma KeywordTestIff(upper: string)
    ensures AnyContained(upper, MutationKeywords) <==> KeywordOccurs(upper)
  {
    if AnyContained(upper, MutationKeywords) {
      var k :| 0 <= k < |MutationKeywords| && Contains(upper, MutationKeywords[k]);
      var i := FindFrom(upper, MutationKeywords[k], 0).value;
      assert Occurs(upper, MutationKeywords[k], i);
    }
    if exists k, i :: 0 <= k < |MutationKeywords| && Occurs(upper, MutationKeywords[k], i) {
      var k, i :| 0 <= k < |MutationKeywords| && Occurs(upper, MutationKeywords[k], i);
      ContainsAt(upper, MutationKeywords[k], i);
    }
  }

  /** Only a real space completes a keyword: a statement that contains no space character
      (tabs and newlines between its words, say) is never refused. */
  lemma SpaceFreeNeverRefused(sql: string)
    requires forall k :: 0 <= k < |sql| ==> sql[k] != ' '
    ensures !IsMutation(sql)
  {
    var upper := Upper(sql);
    UpperKeepsSpaceFree(sql);
    forall k | 0 <= k < |MutationKeywords| ensures !Contains(upper, MutationKeywords[k]) {
      var w := MutationKeywords[k];
      assert w[|w| - 1] == ' ';
      MissingCharNotContained(upper, w, |w| - 1);
    }
  }

  /** Tabs do not complete a keyword: a DROP whose words are separated by tabs passes. */
  lemma TabSeparatedDropAllowed(table: string)
    requires forall k :: 0 <= k < |table| ==> table[k] != ' '
    ensures !IsMutation("DROP\tTABLE\t" + table)
  {
    SpaceFreeNeverRefused("DROP\tTABLE\t" + table);
  }

  /** The test ignores case: a lower-case DELETE is refused, whatever follows it. */
  lemma LowerCaseDeleteRefused(rest: string)
    ensures IsMutation("delete " + rest)
  {
    var sql := "delete " + rest;
    UpperAppend("delete ", rest);
    UpperOfAscii("delete ");
    assert Upper("delete ") == "DELETE ";
    assert Upper(sql)[..7] == "DELETE ";
    assert Occurs(Upper(sql), MutationKeywords[5], 0);
  }

  /** The test is a substring test: whatever precedes it, "update " makes the statement
      look like a mutation, so "select last_update from t" is refused. */
  lemma KeywordAfterAnyTextRefused(before: string, rest: string)
    ensures IsMutation(before + "update " + rest)
  {
    var sql := before + "update " + rest;
    assert sql == before + ("update " + rest);
    UpperAppend(before, "update " + rest);
    UpperAppend("update ", rest);
    UpperOfAscii("update ");
    assert Upper("update ") == "UPDATE ";
    var n := |Upper(before)|;
    assert Upper(sql)[n..n + 7] == "UPDATE ";
    assert Occurs(Upper(sql), MutationKeywords[6], n);
  }

  /** A keyword inside a longer word counts too: RECREATE contains CREATE. */
  lemma RecreateRefused(rest: string)
    ensures IsMutation("RECREATE " + rest)
  {
    var sql := "RECREATE " + rest;
    UpperAppend("RECREATE ", rest);
    UpperOfAscii("RECREATE ");
    assert Upper("RECREATE ")[2..] == "CREATE ";
    assert Upper(sql)[2..9] == "CREATE ";
    assert Occurs(Upper(sql), MutationKeywords[0], 2);
  }

  /** Upper-casing is Unicode-aware: a dotless i upper-cases to I, so this INSERT is refused. */
  lemma DotlessIInsertRefused(rest: string)
    ensures IsMutation("\U{131}nsert " + rest)
  {
    var sql := "\U{131}nsert " + rest;
    assert sql == "\U{131}" + ("nsert " + rest);
    UpperAppend("\U{131}", "nsert " + rest);
    UpperAppend("nsert ", rest);
    UpperOfAscii("nsert ");
    assert Upper("\U{131}") == "I";
    assert Upper("nsert ") == "NSERT ";
    assert Upper(sql)[..7] == "INSERT ";
    assert Occurs(Upper(sql), MutationKeywords[4], 0);
  }
}
