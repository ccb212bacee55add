/** Code-fence normalisation of a synthesised query (llm.py:91): the oracle's
    reply has every "```sql" removed, then every "```".  `RemoveAll` is
    Python's `str.replace(pat, "")` for a non-empty pattern. */
module Fences {

  const FENCE: string := "```"
  const SQL_FENCE: string := "```sql"

  /** `pat` starts at position `i` of `s`. */
  predicate OccursAt(s: string, pat: string, i: nat)
    requires i <= |s|
  {
    pat <= s[i..]
  }

  /** `pat in s`, Python's substring test. */
  predicate Contains(s: string, pat: string) {
    exists i: nat :: i <= |s| && OccursAt(s, pat, i)
  }

  /** The scan of `s.replace(pat, "")` from index `k`: an occurrence of `pat`
      is dropped and the scan resumes after it; any other character is kept. */
  function RemoveFrom(s: string, pat: string, k: nat): (r: string)
    requires pat != [] && k <= |s|
    ensures |r| <= |s| - k
    decreases |s| - k
  {
    if k == |s| then []
    else if OccursAt(s, pat, k) then RemoveFrom(s, pat, k + |pat|)
    else [s[k]] + RemoveFrom(s, pat, k + 1)
  }

  /** `s.replace(pat, "")`: never longer than `s`, and without an occurrence of
      `pat` it changes nothing. */
  function RemoveAll(s: string, pat: string): (r: string)
    requires pat != []
    ensures |r| <= |s|
    ensures !Contains(s, pat) ==> r == s
  {
    if Contains(s, pat) then RemoveFrom(s, pat, 0)
    else
      RemoveNone(s, pat, 0);
      assert s[0..] == s;
      RemoveFrom(s, pat, 0)
  }

  /** `reply.replace("```sql", "").replace("```", "")`. */
  function StripFences(reply: string): (sql: string)
    ensures |sql| <= |reply|
    ensures !Contains(sql, FENCE)
  {
    var once := RemoveAll(reply, SQL_FENCE);
    RemoveFenceLeavesNone(once, 0);
    RemoveAll(once, FENCE)
  }

  // ---------------------------------------------------------------------------
  // Python's own definition of `str.replace`: find the leftmost occurrence,
  // keep what precedes it, and go on after it.

  /** `s.find(pat, k)`: the leftmost index from `k` on where `pat` occurs, or -1. */
  function Find(s: string, pat: string, k: nat): (i: int)
    requires k <= |s|
    ensures i == -1 || (k <= i <= |s| && i + |pat| <= |s|)
    decreases |s| - k
  {
    if OccursAt(s, pat, k) then k
    else if k == |s| then -1
    else Find(s, pat, k + 1)
  }

  /** `s[k..].replace(pat, "")` by repeated `find`. */
  function ReplaceFrom(s: string, pat: string, k: nat): string
    requires pat != [] && k <= |s|
    decreases |s| - k
  {
    var i := Find(s, pat, k);
    if i == -1 then s[k..] else s[k..i] + ReplaceFrom(s, pat, i + |pat|)
  }

  /** `Find` gives the leftmost occurrence from `k` on, and -1 exactly when
      there is none. */
  lemma {:induction false} FindIsLeftmost(s: string, pat: string, k: nat)
    requires k <= |s|
    ensures Find(s, pat, k) >= 0 ==> OccursAt(s, pat, Find(s, pat, k))
    ensures Find(s, pat, k) == -1 ==> forall j: nat :: k <= j <= |s| ==> !OccursAt(s, pat, j)
    ensures forall j: nat :: k <= j < Find(s, pat, k) ==> !OccursAt(s, pat, j)
    decreases |s| - k
  {
    if !OccursAt(s, pat, k) && k < |s| {
      FindIsLeftmost(s, pat, k + 1);
    }
  }

  /** Putting `s[k]` back in front of `s[k + 1..i]`. */
  lemma PrependSlice(s: string, k: nat, i: nat, rest: string)
    requires k < i <= |s|
    ensures [s[k]] + (s[k + 1..i] + rest) == s[k..i] + rest
  {
    assert s[k..i] == [s[k]] + s[k + 1..i];
  }

  /** One step of `str.replace`: the scan keeps what precedes the leftmost
      occurrence `i` from `k` on and resumes after it. */
  lemma {:induction false} RemoveUpToFound(s: string, pat: string, k: nat, i: nat)
    requires pat != [] && k <= |s| && Find(s, pat, k) == i
    ensures i + |pat| <= |s|
    ensures RemoveFrom(s, pat, k) == s[k..i] + RemoveFrom(s, pat, i + |pat|)
    decreases |s| - k
  {
    if OccursAt(s, pat, k) {
      assert s[k..k] == [];
    } else {
      assert k < |s| && Find(s, pat, k + 1) == i;
      RemoveUpToFound(s, pat, k + 1, i);
      var rest := RemoveFrom(s, pat, i + |pat|);
      assert RemoveFrom(s, pat, k) == [s[k]] + (s[k + 1..i] + rest);
      PrependSlice(s, k, i, rest);
    }
  }

  /** Unfolds `ReplaceFrom` once at a found occurrence. */
  lemma ReplaceFromStep(s: string, pat: string, k: nat, i: nat)
    requires pat != [] && k <= |s| && Find(s, pat, k) == i
    ensures ReplaceFrom(s, pat, k) == s[k..i] + ReplaceFrom(s, pat, i + |pat|)
  {
  }

  /** The scan agrees with the definition of `str.replace` by `find`, from any
      starting index. */
  lemma {:induction false} RemoveFromIsReplaceFrom(s: string, pat: string, k: nat)
    requires pat != [] && k <= |s|
    ensures RemoveFrom(s, pat, k) == ReplaceFrom(s, pat, k)
    decreases |s| - k
  {
    var i := Find(s, pat, k);
    if i == -1 {
      assert RemoveFrom(s, pat, k) == s[k..] by {
        FindIsLeftmost(s, pat, k);
        RemoveNone(s, pat, k);
      }
    } else {
      RemoveUpToFound(s, pat, k, i);
      RemoveFromIsReplaceFrom(s, pat, i + |pat|);
      assert ReplaceFrom(s, pat, k) == s[k..i] + ReplaceFrom(s, pat, i + |pat|) by {
        ReplaceFromStep(s, pat, k, i);
      }
    }
  }

  /** Without an occurrence of `pat` from `k` on, the scan keeps everything. */
  lemma {:induction false} RemoveNone(s: string, pat: string, k: nat)
    requires pat != [] && k <= |s|
    requires forall j: nat :: k <= j <= |s| ==> !OccursAt(s, pat, j)
    ensures RemoveFrom(s, pat, k) == s[k..]
    decreases |s| - k
  {
    if k < |s| {
      assert !OccursAt(s, pat, k);
      RemoveNone(s, pat, k + 1);
      assert s[k..] == [s[k]] + s[k + 1..];
    }
  }

  /** `RemoveAll` is Python's `str.replace(pat, "")`. */
  lemma RemoveAllIsReplace(s: string, pat: string)
    requires pat != []
    ensures RemoveAll(s, pat) == ReplaceFrom(s, pat, 0)
  {
    RemoveFromIsReplaceFrom(s, pat, 0);
  }

  // ---------------------------------------------------------------------------
  // No fence survives.

  /** A character other than a backtick is kept at the head of the scan. */
  lemma KeepsHead(s: string, k: nat)
    requires k < |s| && s[k] != '`'
    ensures RemoveFrom(s, FENCE, k) == [s[k]] + RemoveFrom(s, FENCE, k + 1)
  {
    assert s[k..][0] == s[k];
  }

  /** The character kept at `k` cannot start a fence together with what the
      scan keeps after it. */
  lemma HeadWindow(s: string, k: nat)
    requires k < |s| && !OccursAt(s, FENCE, k)
    ensures !(FENCE <= [s[k]] + RemoveFrom(s, FENCE, k + 1))
  {
    var rest := RemoveFrom(s, FENCE, k + 1);
    if s[k] == '`' && k + 1 < |s| {
      if s[k + 1] != '`' {
        KeepsHead(s, k + 1);
      } else if k + 2 == |s| {
        assert !OccursAt(s, FENCE, k + 1);
        assert rest == [s[k + 1]];
      } else {
        assert s[k..][..3] == [s[k], s[k + 1], s[k + 2]];
        assert s[k + 2] != '`';
        assert s[k + 1..][1] == s[k + 2];
        assert !OccursAt(s, FENCE, k + 1);
        KeepsHead(s, k + 2);
        assert rest == [s[k + 1]] + RemoveFrom(s, FENCE, k + 2);
        assert rest[1] == s[k + 2];
      }
    }
  }

  /** After removing every "```", no "```" is left: a removal never joins
      backticks kept on its left with backticks on its right. */
  lemma {:induction false} RemoveFenceLeavesNone(s: string, k: nat)
    requires k <= |s|
    ensures !Contains(RemoveFrom(s, FENCE, k), FENCE)
    decreases |s| - k
  {
    if k == |s| {
    } else if OccursAt(s, FENCE, k) {
      RemoveFenceLeavesNone(s, k + |FENCE|);
    } else {
      var rest := RemoveFrom(s, FENCE, k + 1);
      RemoveFenceLeavesNone(s, k + 1);
      HeadWindow(s, k);
      var r := [s[k]] + rest;
      forall i: nat | i <= |r|
        ensures !OccursAt(r, FENCE, i)
      {
        if i > 0 {
          assert r[i..] == rest[i - 1..];
          assert !OccursAt(rest, FENCE, i - 1);
        } else {
          assert r[0..] == r;
        }
      }
    }
  }

  /** An occurrence of a pattern is an occurrence of each of its prefixes. */
  lemma ContainsPrefix(s: string, pat: string, pre: string)
    requires pre <= pat && Contains(s, pat)
    ensures Contains(s, pre)
  {
    var i: nat :| i <= |s| && OccursAt(s, pat, i);
    assert OccursAt(s, pre, i);
  }

  /** A string without a backtick contains no fence. */
  lemma NoBacktickNoFence(s: string)
    requires '`' !in s
    ensures !Contains(s, FENCE) && !Contains(s, SQL_FENCE)
  {
    forall i: nat | i <= |s|
      ensures !OccursAt(s, FENCE, i)
    {
      if i < |s| {
        assert s[i..][0] == s[i] && s[i] in s;
      }
    }
    if Contains(s, SQL_FENCE) {
      ContainsPrefix(s, SQL_FENCE, FENCE);
    }
  }

  // ---------------------------------------------------------------------------
  // Consequences for the stripped query.

  /** Stripping twice is stripping once. */
  lemma StripFencesIdempotent(reply: string)
    ensures StripFences(StripFences(reply)) == StripFences(reply)
  {
    var sql := StripFences(reply);
    if Contains(sql, SQL_FENCE) {
      ContainsPrefix(sql, SQL_FENCE, FENCE);
    }
  }

  /** A reply without any backtick is returned unchanged. */
  lemma StripFencesNoBacktick(reply: string)
    requires '`' !in reply
    ensures StripFences(reply) == reply
  {
    NoBacktickNoFence(reply);
  }

  /** Scanning a query followed by a closing fence keeps the query. */
  lemma {:induction false} RemoveClosingFence(q: string, k: nat)
    requires '`' !in q && k <= |q|
    ensures RemoveFrom(q + FENCE, FENCE, k) == q[k..]
    decreases |q| - k
  {
    var t := q + FENCE;
    if k == |q| {
      assert t[k..] == FENCE;
    } else {
      assert t[k] == q[k] && q[k] in q;
      KeepsHead(t, k);
      RemoveClosingFence(q, k + 1);
      assert q[k..] == [q[k]] + q[k + 1..];
    }
  }

  /** The reply the query prompt asks for, "```sql" + query + "```", comes out
      as the bare query. */
  lemma StripFencesWrapped(query: string)
    requires '`' !in query
    ensures StripFences(SQL_FENCE + query + FENCE) == query
  {
    var reply := SQL_FENCE + query + FENCE;
    var n := |SQL_FENCE|;
    assert reply[0..] == reply;
    assert OccursAt(reply, SQL_FENCE, 0);
    forall j: nat | n <= j <= |reply|
      ensures !OccursAt(reply, SQL_FENCE, j)
    {
      if j < n + |query| {
        assert reply[j..][0] == query[j - n] && query[j - n] in query;
      }
    }
    RemoveNone(reply, SQL_FENCE, n);
    assert reply[n..] == query + FENCE;
    RemoveClosingFence(query, 0);
    assert query[0..] == query;
  }
}
