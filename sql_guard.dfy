/** The checks `execute_sql_query` applies to free-form SQL before it reaches
    the data manager: a case-insensitive substring blocklist of seven
    keywords, then a rewrite that bounds the query with a LIMIT clause. */
module SqlGuard {
  import opened Values

  /** The blocklist, in the order it is searched. */
  const DangerousKeywords: seq<string> :=
    ["DROP", "DELETE", "UPDATE", "INSERT", "CREATE", "ALTER", "TRUNCATE"]

  function UpperChar(c: char): char
  {
    if 'a' <= c <= 'z' then (c as int - 32) as char else c
  }

  /** `s.upper()`, on ASCII letters. */
  function Upper(s: string): string
  {
    seq(|s|, i requires 0 <= i < |s| => UpperChar(s[i]))
  }

  lemma UpperIdempotent(s: string)
    ensures Upper(Upper(s)) == Upper(s)
  {
    assert forall i :: 0 <= i < |s| ==> UpperChar(UpperChar(s[i])) == UpperChar(s[i]);
  }

  ghost predicate OccursAt(text: string, pat: string, i: int)
  {
    0 <= i <= |text| - |pat| && text[i..i + |pat|] == pat
  }

  /** `pat in text`: plain substring search. */
  function Contains(text: string, pat: string): bool
    decreases |text|
  {
    if |pat| > |text| then false
    else if text[..|pat|] == pat then true
    else Contains(text[1..], pat)
  }

  lemma {:induction false} ContainsMeans(text: string, pat: string)
    ensures Contains(text, pat) <==> exists i :: OccursAt(text, pat, i)
    decreases |text|
  {
    if |pat| > |text| {
    } else if text[..|pat|] == pat {
      assert OccursAt(text, pat, 0);
    } else {
      var rest := text[1..];
      ContainsMeans(rest, pat);
      if Contains(rest, pat) {
        var i :| OccursAt(rest, pat, i);
        assert text[i + 1..i + 1 + |pat|] == rest[i..i + |pat|];
        assert OccursAt(text, pat, i + 1);
      } else {
        forall i | OccursAt(text, pat, i) ensures false {
          assert i != 0;
          assert rest[i - 1..i - 1 + |pat|] == text[i..i + |pat|];
          assert OccursAt(rest, pat, i - 1);
        }
      }
    }
  }

  /** A witness position is enough to show containment. */
  lemma ContainsAt(text: string, pat: string, i: nat)
    requires i + |pat| <= |text| && text[i..i + |pat|] == pat
    ensures Contains(text, pat)
  {
    ContainsMeans(text, pat);
    assert OccursAt(text, pat, i);
  }

  /** The first keyword of `keywords`, in list order, that occurs in `upper`. */
  function FirstKeyword(upper: string, keywords: seq<string>): Option<string>
    decreases |keywords|
  {
    if |keywords| == 0 then None
    else if Contains(upper, keywords[0]) then Some(keywords[0])
    else FirstKeyword(upper, keywords[1..])
  }

  /** The keyword `execute_sql_query` reports, if it rejects `query`. */
  function Guard(query: string): Option<string>
  {
    FirstKeyword(Upper(query), DangerousKeywords)
  }

  lemma {:induction false} FirstKeywordNone(upper: string, keywords: seq<string>)
    ensures FirstKeyword(upper, keywords).None? <==>
              forall j :: 0 <= j < |keywords| ==> !Contains(upper, keywords[j])
    decreases |keywords|
  {
    if |keywords| > 0 {
      FirstKeywordNone(upper, keywords[1..]);
      assert forall j :: 1 <= j < |keywords| ==> keywords[j] == keywords[1..][j - 1];
    }
  }

  lemma {:induction false} FirstKeywordAt(upper: string, keywords: seq<string>, i: nat)
    requires i < |keywords| && Contains(upper, keywords[i])
    requires forall j :: 0 <= j < i ==> !Contains(upper, keywords[j])
    ensures FirstKeyword(upper, keywords) == Some(keywords[i])
    decreases i
  {
    if i > 0 {
      assert forall j :: 0 <= j < i - 1 ==> keywords[1..][j] == keywords[j + 1];
      FirstKeywordAt(upper, keywords[1..], i - 1);
    }
  }

  /** A query is rejected iff one of the seven keywords is a substring of its
      upper-cased text; the keyword named is the first of them in list order,
      whatever its position in the text. */
  lemma GuardVerdict(query: string)
    ensures Guard(query).None? <==>
              forall j :: 0 <= j < |DangerousKeywords| ==> !Contains(Upper(query), DangerousKeywords[j])
    ensures forall i :: 0 <= i < |DangerousKeywords| && Contains(Upper(query), DangerousKeywords[i]) &&
                        (forall j :: 0 <= j < i ==> !Contains(Upper(query), DangerousKeywords[j])) ==>
                          Guard(query) == Some(DangerousKeywords[i])
  {
    FirstKeywordNone(Upper(query), DangerousKeywords);
    forall i | 0 <= i < |DangerousKeywords| && Contains(Upper(query), DangerousKeywords[i]) &&
               (forall j :: 0 <= j < i ==> !Contains(Upper(query), DangerousKeywords[j]))
      ensures Guard(query) == Some(DangerousKeywords[i])
    {
      FirstKeywordAt(Upper(query), DangerousKeywords, i);
    }
  }

  /** Matching is on substrings, so a column called `created_at` is refused. */
  lemma CreatedAtIsRejected()
    ensures Guard("SELECT created_at FROM t").Some?
  {
    var q := "SELECT created_at FROM t";
    var u := Upper(q);
    assert q[7..13] == "create";
    assert u[7..13] == "CREATE";
    ContainsAt(u, "CREATE", 7);
    FirstKeywordNone(u, DangerousKeywords);
    assert DangerousKeywords[4] == "CREATE";
  }

  /** With several keywords present, the one named is first in the list, not
      first in the text. */
  lemma ListOrderWins()
    ensures Guard("delete from t; drop table t") == Some("DROP")
  {
    var u := Upper("delete from t; drop table t");
    assert u[15..19] == "DROP";
    ContainsAt(u, "DROP", 15);
  }

  /** `s.rstrip(c)` */
  function StripTrailing(s: string, c: char): (r: string)
    ensures r <= s
    ensures forall i :: |r| <= i < |s| ==> s[i] == c
    ensures |r| == 0 || r[|r| - 1] != c
    decreases |s|
  {
    if |s| > 0 && s[|s| - 1] == c then StripTrailing(s[..|s| - 1], c) else s
  }

  /** The three properties of `StripTrailing` determine it: any split of `s`
      into a head not ending in `c` and a tail made of `c` has that head. */
  lemma StripTrailingUnique(s: string, c: char, head: string, tail: string)
    requires s == head + tail
    requires forall i :: 0 <= i < |tail| ==> tail[i] == c
    requires |head| == 0 || head[|head| - 1] != c
    ensures StripTrailing(s, c) == head
  {
    var r := StripTrailing(s, c);
    assert r == s[..|r|] && head == s[..|head|];
  }

  /** The text `execute_sql_query` sends when it does not reject: unchanged
      when it already mentions LIMIT or `limit` is 0, otherwise with trailing
      semicolons removed and ` LIMIT <limit>` appended. */
  function Limited(query: string, limit: int): string
  {
    if Contains(Upper(query), "LIMIT") || limit == 0 then query
    else StripTrailing(query, ';') + " LIMIT " + Decimal(limit)
  }

  /** A query that already mentions LIMIT (in any case, anywhere), or a
      `limit` of 0, leaves the text exactly as given. */
  lemma LimitedUnchanged(query: string, limit: int)
    requires Contains(Upper(query), "LIMIT") || limit == 0
    ensures Limited(query, limit) == query
  {
  }

  /** Otherwise the sent text is the query's own text, casing included, up to
      its trailing semicolons, then ` LIMIT ` and the decimal text of `limit`. */
  lemma LimitedRewrite(query: string, limit: int, head: string, semicolons: string)
    requires !Contains(Upper(query), "LIMIT") && limit != 0
    requires query == head + semicolons
    requires forall i :: 0 <= i < |semicolons| ==> semicolons[i] == ';'
    requires |head| == 0 || head[|head| - 1] != ';'
    ensures Limited(query, limit) == head + " LIMIT " + Decimal(limit)
  {
    StripTrailingUnique(query, ';', head, semicolons);
  }

  /** Only semicolons are stripped: a query ending in a blank keeps it, and
      the clause is appended after it. */
  lemma TrailingBlankKept(query: string, limit: int)
    requires !Contains(Upper(query), "LIMIT") && limit != 0
    requires |query| > 0 && query[|query| - 1] == ' '
    ensures Limited(query, limit) == query + " LIMIT " + Decimal(limit)
  {
    LimitedRewrite(query, limit, query, "");
  }

  /** With a nonzero `limit`, the text sent always mentions LIMIT. */
  lemma LimitedMentionsLimit(query: string, limit: int)
    requires limit != 0
    ensures Contains(Upper(Limited(query, limit)), "LIMIT")
  {
    if !Contains(Upper(query), "LIMIT") {
      var head := StripTrailing(query, ';');
      var sent := head + " LIMIT " + Decimal(limit);
      var at := |head| + 1;
      assert Upper(sent)[at..at + 5] == "LIMIT" by {
        forall k | 0 <= k < 5 ensures Upper(sent)[at + k] == "LIMIT"[k] {
          assert sent[at + k] == " LIMIT "[k + 1];
        }
      }
      ContainsAt(Upper(sent), "LIMIT", at);
    }
  }

  /** Rewriting is idempotent: a rewritten query is sent as it is. */
  lemma LimitedIdempotent(query: string, limit: int)
    ensures Limited(Limited(query, limit), limit) == Limited(query, limit)
  {
    if limit != 0 {
      LimitedMentionsLimit(query, limit);
    }
  }

  /** What `execute_sql_query` does with the text before any engine call. */
  datatype Plan = Reject(keyword: string) | Run(query: string)

  function PlanQuery(query: string, limit: int): (p: Plan)
    ensures p.Reject? ==> p.keyword in DangerousKeywords && Contains(Upper(query), p.keyword)
    ensures p.Reject? <==> exists j :: 0 <= j < |DangerousKeywords| &&
                                       Contains(Upper(query), DangerousKeywords[j])
    ensures p.Reject? ==> Guard(query) == Some(p.keyword)
    ensures p.Run? ==> p.query == Limited(query, limit)
  {
    GuardVerdict(query);
    GuardNamesContained(Upper(query), DangerousKeywords);
    match Guard(query)
    case Some(k) => Reject(k)
    case None => Run(Limited(query, limit))
  }

  lemma {:induction false} GuardNamesContained(upper: string, keywords: seq<string>)
    ensures FirstKeyword(upper, keywords).Some? ==>
              FirstKeyword(upper, keywords).value in keywords &&
              Contains(upper, FirstKeyword(upper, keywords).value)
    decreases |keywords|
  {
    if |keywords| > 0 {
      GuardNamesContained(upper, keywords[1..]);
    }
  }

  /** The verdict ignores case: two queries with the same upper-cased text
      are refused alike, with the same keyword. */
  lemma PlanIgnoresCase(q1: string, q2: string, limit: int)
    requires Upper(q1) == Upper(q2)
    ensures PlanQuery(q1, limit).Reject? == PlanQuery(q2, limit).Reject?
    ensures PlanQuery(q1, limit).Reject? ==> PlanQuery(q1, limit).keyword == PlanQuery(q2, limit).keyword
  {
  }

  /** A query and its upper-cased form are refused alike. */
  lemma VerdictOfUpperCase(query: string, limit: int)
    ensures PlanQuery(query, limit).Reject? == PlanQuery(Upper(query), limit).Reject?
    ensures PlanQuery(query, limit).Reject? ==>
              PlanQuery(query, limit).keyword == PlanQuery(Upper(query), limit).keyword
  {
    UpperIdempotent(query);
    PlanIgnoresCase(query, Upper(query), limit);
  }
}
