/**
 * The few java.lang.String operations the payment core relies on, with their
 * Java meaning: `trim`, `endsWith`, `contains`, `replace` (removal form),
 * string concatenation of a possibly-null reference, and the stream reduction
 * that joins items with a separator.
 */
module JavaStrings {
  import opened Wrappers

  /** `String.trim` removes every leading and trailing char whose code is at most U+0020. */
  predicate IsTrimmable(c: char) {
    c <= ' '
  }

  function TrimStart(s: string): (r: string)
    ensures |r| <= |s|
    ensures r == s[|s| - |r|..]
    ensures |r| > 0 ==> !IsTrimmable(r[0])
  {
    if |s| > 0 && IsTrimmable(s[0]) then TrimStart(s[1..]) else s
  }

  function TrimEnd(s: string): (r: string)
    ensures |r| <= |s|
    ensures r == s[..|r|]
    ensures |r| > 0 ==> !IsTrimmable(r[|r| - 1])
  {
    if |s| > 0 && IsTrimmable(s[|s| - 1]) then TrimEnd(s[..|s| - 1]) else s
  }

  function Trim(s: string): (r: string) {
    TrimEnd(TrimStart(s))
  }

  /** `s.trim().isEmpty()`: the test used both by the issuer and by @NotBlank. */
  predicate IsBlank(s: string) {
    |Trim(s)| == 0
  }

  /** Every char of `s` is one that `trim` would strip. */
  ghost predicate AllTrimmable(s: string) {
    forall i :: 0 <= i < |s| ==> IsTrimmable(s[i])
  }

  lemma {:induction false} TrimStartEmpty(s: string)
    ensures |TrimStart(s)| == 0 <==> AllTrimmable(s)
    decreases |s|
  {
    if |s| == 0 {
      assert TrimStart(s) == s;
    } else if !IsTrimmable(s[0]) {
      assert TrimStart(s) == s;
      assert !AllTrimmable(s);
    } else {
      assert TrimStart(s) == TrimStart(s[1..]);
      TrimStartEmpty(s[1..]);
      assert AllTrimmable(s[1..]) ==> AllTrimmable(s) by {
        if AllTrimmable(s[1..]) {
          forall i | 0 <= i < |s| ensures IsTrimmable(s[i]) {
            if i > 0 { assert s[i] == s[1..][i - 1]; }
          }
        }
      }
      assert AllTrimmable(s) ==> AllTrimmable(s[1..]) by {
        if AllTrimmable(s) {
          forall i | 0 <= i < |s[1..]| ensures IsTrimmable(s[1..][i]) {
            assert s[1..][i] == s[i + 1];
          }
        }
      }
    }
  }

  /** A string is blank exactly when it consists only of chars at or below U+0020. */
  lemma BlankIffAllTrimmable(s: string)
    ensures IsBlank(s) <==> AllTrimmable(s)
  {
    TrimStartEmpty(s);
    var t := TrimStart(s);
    if |t| > 0 {
      assert !IsTrimmable(t[0]);
      assert |TrimEnd(t)| > 0 by {
        if |TrimEnd(t)| == 0 {
          TrimEndKeepsLast(t);
        }
      }
    }
  }

  /** TrimEnd never strips a non-trimmable char. */
  lemma {:induction false} TrimEndKeepsLast(s: string)
    requires |s| > 0 && !IsTrimmable(s[0])
    ensures |TrimEnd(s)| > 0
    decreases |s|
  {
    if IsTrimmable(s[|s| - 1]) {
      TrimEndKeepsLast(s[..|s| - 1]);
    }
  }

  /** `s.endsWith(suffix)` */
  predicate EndsWith(s: string, suffix: string) {
    |suffix| <= |s| && s[|s| - |suffix|..] == suffix
  }

  /** `pattern` occurs in `s` starting at index `i`. */
  predicate OccursAt(s: string, pattern: string, i: nat) {
    i + |pattern| <= |s| && s[i..i + |pattern|] == pattern
  }

  /** `s.contains(pattern)` */
  predicate Contains(s: string, pattern: string) {
    exists i: nat :: i <= |s| && OccursAt(s, pattern, i)
  }

  /**
   * `s.replace(pattern, "")`: scans left to right and deletes every
   * non-overlapping occurrence of a non-empty `pattern`.
   */
  function RemoveAll(s: string, pattern: string): (r: string)
    requires |pattern| > 0
    decreases |s|
  {
    if |s| == 0 then s
    else if OccursAt(s, pattern, 0) then RemoveAll(s[|pattern|..], pattern)
    else [s[0]] + RemoveAll(s[1..], pattern)
  }

  lemma {:induction false} RemoveAllShortens(s: string, pattern: string)
    requires |pattern| > 0
    ensures |RemoveAll(s, pattern)| <= |s|
    ensures Contains(s, pattern) ==> |RemoveAll(s, pattern)| < |s|
    decreases |s|
  {
    if |s| == 0 {
    } else if OccursAt(s, pattern, 0) {
      RemoveAllShortens(s[|pattern|..], pattern);
    } else {
      RemoveAllShortens(s[1..], pattern);
      if Contains(s, pattern) {
        var i: nat :| i <= |s| && OccursAt(s, pattern, i);
        assert i > 0;
        assert s[1..][i - 1..i - 1 + |pattern|] == s[i..i + |pattern|];
        assert OccursAt(s[1..], pattern, i - 1);
      }
    }
  }

  /** Removing a pattern leaves the string unchanged exactly when the pattern does not occur. */
  lemma {:induction false} RemoveAllIdentity(s: string, pattern: string)
    requires |pattern| > 0
    ensures RemoveAll(s, pattern) == s <==> !Contains(s, pattern)
    decreases |s|
  {
    RemoveAllShortens(s, pattern);
    if !Contains(s, pattern) && |s| > 0 {
      assert !OccursAt(s, pattern, 0);
      assert !Contains(s[1..], pattern) by {
        if Contains(s[1..], pattern) {
          var i: nat :| i <= |s[1..]| && OccursAt(s[1..], pattern, i);
          assert s[i + 1..i + 1 + |pattern|] == s[1..][i..i + |pattern|];
          assert OccursAt(s, pattern, i + 1);
        }
      }
      RemoveAllIdentity(s[1..], pattern);
      assert s == [s[0]] + s[1..];
    }
  }

  /** A leading occurrence is removed and the rest is kept when nothing else matches. */
  lemma RemoveLeading(pattern: string, rest: string)
    requires |pattern| > 0
    requires !Contains(rest, pattern)
    ensures RemoveAll(pattern + rest, pattern) == rest
  {
    var s := pattern + rest;
    assert OccursAt(s, pattern, 0);
    assert s[|pattern|..] == rest;
    RemoveAllIdentity(rest, pattern);
  }

  /** Java's `"..." + ref` renders a null reference as "null". */
  function Render(s: Option<string>): (r: string)
    ensures s.Some? ==> r == s.value
    ensures s.None? ==> r == "null"
  {
    match s
    case Some(v) => v
    case None => "null"
  }

  /** One step of `reduce((a, b) -> a + sep + b)`, folding from the left. */
  function FoldJoin(acc: string, rest: seq<string>, sep: string): (r: string)
    decreases |rest|
  {
    if |rest| == 0 then acc else FoldJoin(acc + sep + rest[0], rest[1..], sep)
  }

  /** `items.stream().reduce((a, b) -> a + sep + b)`: empty when there are no items. */
  function Reduce(items: seq<string>, sep: string): (r: Option<string>) {
    if |items| == 0 then None else Some(FoldJoin(items[0], items[1..], sep))
  }

  /** Reference definition of joining a non-empty list, recursing from the right. */
  function Join(items: seq<string>, sep: string): (r: string)
    requires |items| > 0
    decreases |items|
  {
    if |items| == 1 then items[0] else items[0] + sep + Join(items[1..], sep)
  }

  lemma {:induction false} FoldJoinIsJoin(acc: string, rest: seq<string>, sep: string)
    requires |rest| > 0
    ensures FoldJoin(acc, rest, sep) == acc + sep + Join(rest, sep)
    decreases |rest|
  {
    if |rest| > 1 {
      FoldJoinIsJoin(acc + sep + rest[0], rest[1..], sep);
      assert (acc + sep + rest[0]) + sep + Join(rest[1..], sep)
          == acc + sep + (rest[0] + sep + Join(rest[1..], sep));
    }
  }

  /** The left-folding stream reduction agrees with the right-recursive join. */
  lemma ReduceIsJoin(items: seq<string>, sep: string)
    ensures Reduce(items, sep).None? <==> |items| == 0
    ensures |items| > 0 ==> Reduce(items, sep) == Some(Join(items, sep))
  {
    if |items| > 1 {
      FoldJoinIsJoin(items[0], items[1..], sep);
    }
  }
}
