/** The path test of the collector: `path.includes(`donations/${ngoId}/${currentYear}`)`. */
module Paths {

  /** `sub` occurs in `s` starting at position `i`. */
  predicate OccursAt(s: string, sub: string, i: nat)
  {
    i + |sub| <= |s| && s[i..i + |sub|] == sub
  }

  /** `String.prototype.includes`: try each start position of `s` from the left. */
  predicate Includes(s: string, sub: string)
    decreases |s|
  {
    (|sub| <= |s| && s[..|sub|] == sub) || (|s| > 0 && Includes(s[1..], sub))
  }

  /** The substring every kept document's path must contain; it has no channel segment. */
  function Scope(ngoId: string, year: string): string
  {
    "donations/" + ngoId + "/" + year
  }

  /** `Includes` holds exactly when `sub` occurs somewhere in `s`. */
  lemma IncludesIff(s: string, sub: string)
    ensures Includes(s, sub) <==> exists i: nat :: OccursAt(s, sub, i)
  {
    if Includes(s, sub) {
      IncludesOccurs(s, sub);
    }
    if exists i: nat :: OccursAt(s, sub, i) {
      var i: nat :| OccursAt(s, sub, i);
      OccursIncludes(s, sub, i);
    }
  }

  /** A successful test found an occurrence. */
  lemma {:induction false} IncludesOccurs(s: string, sub: string)
    requires Includes(s, sub)
    ensures exists i: nat :: OccursAt(s, sub, i)
    decreases |s|
  {
    if |sub| <= |s| && s[..|sub|] == sub {
      assert OccursAt(s, sub, 0);
    } else {
      IncludesOccurs(s[1..], sub);
      var i: nat :| OccursAt(s[1..], sub, i);
      assert s[i + 1..i + 1 + |sub|] == s[1..][i..i + |sub|];
      assert OccursAt(s, sub, i + 1);
    }
  }

  /** The test finds every occurrence. */
  lemma {:induction false} OccursIncludes(s: string, sub: string, i: nat)
    requires OccursAt(s, sub, i)
    ensures Includes(s, sub)
    decreases i
  {
    if i > 0 {
      assert s[1..][i - 1..i - 1 + |sub|] == s[i..i + |sub|];
      OccursIncludes(s[1..], sub, i - 1);
    } else {
      assert s[..|sub|] == s[i..i + |sub|];
    }
  }

  /**
   * A path holding the scope anywhere passes the test, whatever precedes it
   * and whatever follows it (another channel's segment included).
   */
  lemma IncludesInfix(before: string, sub: string, after: string)
    ensures Includes(before + sub + after, sub)
  {
    var s := before + sub + after;
    assert s[|before|..|before| + |sub|] == sub;
    assert OccursAt(s, sub, |before|);
    IncludesIff(s, sub);
  }

  /** A string that lacks the first character of `sub` does not include `sub`. */
  lemma MissingFirstChar(s: string, sub: string)
    requires |sub| > 0 && sub[0] !in s
    ensures !Includes(s, sub)
  {
    IncludesIff(s, sub);
  }

  /**
   * In a path `donations/<tail>` whose tail holds no further `donations/`,
   * a scope (which itself starts with `donations/`) can only occur at the
   * very start.
   */
  lemma OnlyAtStart(s: string, scope: string, i: nat)
    requires |scope| >= 10 && scope[..10] == "donations/"
    requires |s| >= 10 && s[..10] == "donations/"
    requires !Includes(s[10..], "donations/")
    requires OccursAt(s, scope, i)
    ensures i == 0
  {
    if i >= 10 {
      LaterScope(s, scope, i);
    } else if i > 0 {
      StartsWithD(s, scope, i);
      NoSecondD(s, i);
    }
  }

  /** A scope occurring past the leading `donations/` puts another `donations/` in the tail. */
  lemma LaterScope(s: string, scope: string, i: nat)
    requires |scope| >= 10 && scope[..10] == "donations/"
    requires |s| >= 10 && i >= 10
    requires OccursAt(s, scope, i)
    ensures Includes(s[10..], "donations/")
  {
    var t := s[10..];
    assert t[i - 10..i - 10 + 10] == s[i..i + 10] == scope[..10];
    assert OccursAt(t, "donations/", i - 10);
    IncludesIff(t, "donations/");
  }

  /** Where a scope occurs, the path holds the scope's leading `d`. */
  lemma StartsWithD(s: string, scope: string, i: nat)
    requires |scope| >= 10 && scope[..10] == "donations/"
    requires OccursAt(s, scope, i)
    ensures s[i] == 'd'
  {
    assert s[i] == s[i..i + |scope|][0] == scope[..10][0];
  }

  /** `donations/` holds no `d` after its first character. */
  lemma NoSecondD(s: string, i: nat)
    requires |s| >= 10 && s[..10] == "donations/"
    requires 0 < i < 10
    ensures s[i] != 'd'
  {
    assert s[i] == s[..10][i];
  }

  /**
   * Another organization's document is dropped: for organization ids without
   * `/`, a path under the scope of `m` does not include the scope of `n` when
   * `m != n`, whatever the two years and whatever follows.
   */
  lemma OtherOrgExcluded(n: string, year: string, m: string, otherYear: string, rest: string)
    requires '/' !in n && '/' !in m && n != m
    requires !Includes(m + "/" + otherYear + rest, "donations/")
    ensures !Includes(Scope(m, otherYear) + rest, Scope(n, year))
  {
    var s, scope := Scope(m, otherYear) + rest, Scope(n, year);
    assert s[..10] == "donations/" && s[10..] == m + "/" + otherYear + rest;
    assert scope[..10] == "donations/";
    IncludesIff(s, scope);
    if exists i: nat :: OccursAt(s, scope, i) {
      var i: nat :| OccursAt(s, scope, i);
      OnlyAtStart(s, scope, i);
      OrgAtStart(n, year, m, otherYear, rest);
    }
  }

  /** A scope at the start of a path under the scope of `m` names `m`, or one of the two ids holds a `/`. */
  lemma OrgAtStart(n: string, year: string, m: string, otherYear: string, rest: string)
    requires OccursAt(Scope(m, otherYear) + rest, Scope(n, year), 0)
    ensures n == m || '/' in n || '/' in m
  {
    var s, scope := Scope(m, otherYear) + rest, Scope(n, year);
    assert s[..|scope|] == scope;
    if |n| < |m| {
      assert s[10 + |n|] == s[..|scope|][10 + |n|];
      assert m[|n|] == '/';
    } else if |n| > |m| {
      assert s[10 + |m|] == s[..|scope|][10 + |m|];
      assert n[|m|] == '/';
    } else {
      assert s[10..10 + |m|] == m && scope[10..10 + |n|] == n;
      assert s[..|scope|][10..10 + |n|] == s[10..10 + |m|];
    }
  }

  /**
   * A document of the same organization and another year of the same length
   * is dropped. (A longer year that starts with the scope's year, such as
   * `245` for `24`, is kept: see `IncludesInfix`.)
   */
  lemma OtherYearExcluded(n: string, year: string, other: string, rest: string)
    requires |other| == |year| && other != year
    requires !Includes(n + "/" + other + rest, "donations/")
    ensures !Includes(Scope(n, other) + rest, Scope(n, year))
  {
    var s, scope := Scope(n, other) + rest, Scope(n, year);
    assert s[..10] == "donations/" && s[10..] == n + "/" + other + rest;
    assert scope[..10] == "donations/";
    IncludesIff(s, scope);
    if exists i: nat :: OccursAt(s, scope, i) {
      var i: nat :| OccursAt(s, scope, i);
      OnlyAtStart(s, scope, i);
      YearAtStart(n, year, other, rest);
    }
  }

  /** A scope at the start of a path under the scope of `n` for a year as long as `other` names `other`. */
  lemma YearAtStart(n: string, year: string, other: string, rest: string)
    requires |other| == |year|
    requires OccursAt(Scope(n, other) + rest, Scope(n, year), 0)
    ensures other == year
  {
    var s, scope := Scope(n, other) + rest, Scope(n, year);
    var k := 11 + |n|;
    assert s[..|scope|] == scope;
    assert other == s[k..k + |other|] == scope[k..] == year;
  }
}
