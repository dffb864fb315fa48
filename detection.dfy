/** Column detection (app.py lines 23, 42 and 43): the list comprehension
    `[col for col in df.columns if keyword in col.lower()]`, of which the
    script only ever uses the first element. */
module Detection {
  import opened Wrappers
  import opened Strings

  /** The detection keywords, as written in app.py. */
  const DateKeyword: string := "date"
  const DebitKeyword: string := "debit"
  const CreditKeyword: string := "credit"

  /** `keyword in name.lower()` */
  predicate Matches(name: string, keyword: string)
  {
    Contains(LowerCase(name), keyword)
  }

  /** The comprehension itself: the matching names, in source column order. */
  function Matching(columns: seq<string>, keyword: string): (r: seq<string>)
    ensures |r| <= |columns|
    ensures forall c :: c in r ==> c in columns && Matches(c, keyword)
    ensures forall c :: c in columns && Matches(c, keyword) ==> c in r
  {
    if columns == [] then []
    else if Matches(columns[0], keyword) then [columns[0]] + Matching(columns[1..], keyword)
    else Matching(columns[1..], keyword)
  }

  /** The index of the first column in source order whose name matches. */
  function FirstMatch(columns: seq<string>, keyword: string): (r: Option<nat>)
    ensures r.Some? ==> r.value < |columns| && Matches(columns[r.value], keyword)
    ensures r.Some? ==> forall j :: 0 <= j < r.value ==> !Matches(columns[j], keyword)
    ensures r.None? ==> forall j :: 0 <= j < |columns| ==> !Matches(columns[j], keyword)
  {
    if columns == [] then None
    else if Matches(columns[0], keyword) then Some(0)
    else match FirstMatch(columns[1..], keyword)
      case None => None
      case Some(i) => Some(i + 1)
  }

  /** `cols[0]` of the comprehension is the column at the first matching
      index, and the comprehension is empty exactly when nothing matches. */
  lemma {:induction false} DetectedIsFirstMatch(columns: seq<string>, keyword: string)
    ensures Matching(columns, keyword) == [] <==> FirstMatch(columns, keyword).None?
    ensures Matching(columns, keyword) != [] ==>
              Matching(columns, keyword)[0] == columns[FirstMatch(columns, keyword).value]
  {
    if columns != [] && !Matches(columns[0], keyword) {
      DetectedIsFirstMatch(columns[1..], keyword);
    }
  }

  /** Ties are broken by source order alone: when columns `i < j` both match,
      the detected index is at most `i`, and (with distinct names) the
      detected column is never the later one, whatever the names' lengths or
      alphabetical order. */
  lemma EarlierColumnWins(columns: seq<string>, keyword: string, i: nat, j: nat)
    requires i < j < |columns|
    requires Matches(columns[i], keyword) && Matches(columns[j], keyword)
    ensures FirstMatch(columns, keyword).Some? && FirstMatch(columns, keyword).value <= i
    ensures Matching(columns, keyword) != []
    ensures (forall a, b :: 0 <= a < b < |columns| ==> columns[a] != columns[b]) ==>
              Matching(columns, keyword)[0] != columns[j]
  {
    DetectedIsFirstMatch(columns, keyword);
  }

  /** The window of `name` at `i` spells `keyword` up to case. */
  predicate SpelledAt(name: string, keyword: string, i: nat)
  {
    i + |keyword| <= |name| && LowerCase(name[i..i + |keyword|]) == keyword
  }

  /** Matching is case-insensitive: a name matches exactly when some window
      of it spells the keyword in any mix of upper and lower case. */
  lemma CaseInsensitive(name: string, keyword: string)
    ensures Matches(name, keyword) <==>
              exists i: nat :: SpelledAt(name, keyword, i)
  {
    ContainsIff(LowerCase(name), keyword);
    if Matches(name, keyword) {
      var i: nat :| OccursAt(LowerCase(name), keyword, i);
      LowerCaseSlice(name, i, i + |keyword|);
      assert SpelledAt(name, keyword, i);
    }
    forall i: nat | SpelledAt(name, keyword, i)
      ensures Matches(name, keyword)
    {
      LowerCaseSlice(name, i, i + |keyword|);
      assert OccursAt(LowerCase(name), keyword, i);
    }
  }

  /** Two common bank spellings of a date column both match; a name without
      the keyword does not. */
  lemma DateSpellingsMatch()
    ensures Matches("VALUE DATE", DateKeyword)
    ensures Matches("Txn date", DateKeyword)
    ensures !Matches("Amount", DateKeyword)
  {
    CaseInsensitive("VALUE DATE", DateKeyword);
    assert LowerCase("VALUE DATE"[6..10]) == DateKeyword;
    assert SpelledAt("VALUE DATE", DateKeyword, 6);
    CaseInsensitive("Txn date", DateKeyword);
    assert LowerCase("Txn date"[4..8]) == DateKeyword;
    assert SpelledAt("Txn date", DateKeyword, 4);
    var lowered := LowerCase("Amount");
    assert lowered == "amount";
    assert lowered[3..] == "unt" && !Contains("unt", DateKeyword);
    assert lowered[2..] == "ount" && lowered[2..][1..] == "unt";
    assert lowered[2..][..4][0] == 'o' != DateKeyword[0];
    assert !Contains(lowered[2..], DateKeyword);
    assert lowered[1..] == "mount" && lowered[1..][1..] == "ount";
    assert lowered[1..][..4][0] == 'm' != DateKeyword[0];
    assert !Contains(lowered[1..], DateKeyword);
    assert lowered[..4][0] == 'a' != DateKeyword[0];
  }

  /** The comprehension distributes over concatenated column lists. */
  lemma {:induction false} MatchingAppend(a: seq<string>, b: seq<string>, keyword: string)
    ensures Matching(a + b, keyword) == Matching(a, keyword) + Matching(b, keyword)
  {
    if a != [] {
      assert (a + b)[0] == a[0];
      assert (a + b)[1..] == a[1..] + b;
      MatchingAppend(a[1..], b, keyword);
      if Matches(a[0], keyword) {
        assert Matching(a + b, keyword) == [a[0]] + (Matching(a[1..], keyword) + Matching(b, keyword));
      }
    } else {
      assert a + b == b;
    }
  }

  /** Adding the canonical `Date` column (app.py lines 27 and 33) leaves the
      later debit and credit detection (lines 42 and 43) unchanged. */
  lemma DateColumnInvisibleToAmounts(columns: seq<string>)
    ensures Matching(columns + ["Date"], DebitKeyword) == Matching(columns, DebitKeyword)
    ensures Matching(columns + ["Date"], CreditKeyword) == Matching(columns, CreditKeyword)
  {
    MatchingAppend(columns, ["Date"], DebitKeyword);
    MatchingAppend(columns, ["Date"], CreditKeyword);
  }
}
