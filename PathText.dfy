/**
 * The string operations the staging widgets build paths with: JavaScript's
 * `split('/')` and `join('/')`, the `startsWith('/')` test, a suffix test used
 * to state `$`-anchored matches, and the two global regular-expression
 * rewrites the staging viewer applies.
 */
module PathText {

  /** `s.startsWith('/')`. */
  predicate StartsWithSlash(s: string)
  {
    |s| > 0 && s[0] == '/'
  }

  /** `suffix` ends `s`: what a `$`-anchored pattern requires of its match. */
  predicate EndsWith(s: string, suffix: string)
  {
    |suffix| <= |s| && s[|s| - |suffix|..] == suffix
  }

  /** A path segment: text without a separator. */
  predicate IsSegment(s: string)
  {
    forall i :: 0 <= i < |s| ==> s[i] != '/'
  }

  /**
   * `s.split('/')`: the text between separators, one more segment than there
   * are separators, so the empty string gives `[""]` and `"/"` gives `["", ""]`.
   */
  function Split(s: string): (r: seq<string>)
    ensures |r| >= 1
  {
    if |s| == 0 then [""]
    else
      var rest := Split(s[1..]);
      if s[0] == '/' then [""] + rest
      else [[s[0]] + rest[0]] + rest[1..]
  }

  /** `parts.join('/')`. */
  function Join(parts: seq<string>): string
  {
    if |parts| == 0 then ""
    else if |parts| == 1 then parts[0]
    else parts[0] + "/" + Join(parts[1..])
  }

  /** Joining the segments of a split gives back the text. */
  lemma {:induction false} JoinSplit(s: string)
    ensures Join(Split(s)) == s
  {
    if |s| > 0 {
      var rest := Split(s[1..]);
      JoinSplit(s[1..]);
      if s[0] == '/' {
        assert Split(s) == [""] + rest;
        assert ([""] + rest)[1..] == rest;
      } else {
        var parts := [[s[0]] + rest[0]] + rest[1..];
        assert Split(s) == parts;
        if |rest| == 1 {
          assert Join(rest) == rest[0];
        } else {
          assert parts[1..] == rest[1..];
          assert Join(rest) == rest[0] + "/" + Join(rest[1..]);
        }
        assert [s[0]] + s[1..] == s;
      }
    }
  }

  /** No segment of a split holds a separator. */
  lemma {:induction false} SplitSegments(s: string)
    ensures forall k :: 0 <= k < |Split(s)| ==> IsSegment(Split(s)[k])
  {
    if |s| > 0 {
      SplitSegments(s[1..]);
      var rest := Split(s[1..]);
      if s[0] != '/' {
        var first := [s[0]] + rest[0];
        assert IsSegment(rest[0]);
        assert IsSegment(first) by {
          forall i | 0 <= i < |first| ensures first[i] != '/' {
            if i > 0 { assert first[i] == rest[0][i - 1]; }
          }
        }
      }
    }
  }

  /** A segment splits into itself. */
  lemma {:induction false} SplitSegment(s: string)
    requires IsSegment(s)
    ensures Split(s) == [s]
  {
    if |s| > 0 {
      SplitSegment(s[1..]);
      assert [s[0]] + s[1..] == s;
    }
  }

  /** A leading separator opens an empty first segment. */
  lemma SplitConsSlash(t: string)
    ensures Split("/" + t) == [""] + Split(t)
  {
    assert ("/" + t)[1..] == t;
  }

  /** Any other leading character joins the first segment. */
  lemma SplitConsChar(c: char, t: string)
    requires c != '/'
    ensures Split([c] + t) == [[c] + Split(t)[0]] + Split(t)[1..]
  {
    assert ([c] + t)[1..] == t;
  }

  /** Splitting at an inserted separator concatenates the two splits. */
  lemma {:induction false} SplitAtSlash(a: string, b: string)
    ensures Split(a + "/" + b) == Split(a) + Split(b)
    decreases |a|
  {
    if |a| == 0 {
      assert a + "/" + b == "/" + b;
      SplitConsSlash(b);
    } else {
      var t := a[1..];
      SplitAtSlash(t, b);
      if a[0] == '/' {
        assert a == "/" + t;
        SplitAtSlashAfterSlash(t, b);
      } else {
        SplitAtSlashAfterChar(a, b);
      }
    }
  }

  lemma SplitAtSlashAfterSlash(t: string, b: string)
    requires Split(t + "/" + b) == Split(t) + Split(b)
    ensures Split("/" + t + "/" + b) == Split("/" + t) + Split(b)
  {
    assert "/" + t + "/" + b == "/" + (t + "/" + b);
    SplitConsSlash(t + "/" + b);
    SplitConsSlash(t);
  }

  lemma SplitAtSlashAfterChar(a: string, b: string)
    requires |a| > 0 && a[0] != '/'
    requires Split(a[1..] + "/" + b) == Split(a[1..]) + Split(b)
    ensures Split(a + "/" + b) == Split(a) + Split(b)
  {
    var t := a[1..];
    assert a == [a[0]] + t;
    assert a + "/" + b == [a[0]] + (t + "/" + b);
    SplitConsChar(a[0], t + "/" + b);
    SplitConsChar(a[0], t);
    ExtendFirst([a[0]], Split(t), Split(b));
  }

  /** Growing the first segment commutes with appending further segments. */
  lemma ExtendFirst(p: string, x: seq<string>, y: seq<string>)
    requires |x| >= 1
    ensures [p + (x + y)[0]] + (x + y)[1..] == ([p + x[0]] + x[1..]) + y
  {
    assert (x + y)[0] == x[0];
    assert (x + y)[1..] == x[1..] + y;
  }

  /** Appending one segment to a non-empty list appends `'/' + x` to the joined text. */
  lemma {:induction false} JoinAppend(parts: seq<string>, x: string)
    requires |parts| >= 1
    ensures Join(parts + [x]) == Join(parts) + "/" + x
  {
    if |parts| == 1 {
      assert parts + [x] == [parts[0], x];
      assert [parts[0], x][1..] == [x];
    } else {
      assert (parts + [x])[1..] == parts[1..] + [x];
      JoinAppend(parts[1..], x);
    }
  }

  // ---------------------------------------------------------------------------
  // Global rewrites used by the staging viewer
  // ---------------------------------------------------------------------------

  /** The three characters "NaN" start at position i of s. */
  predicate NaNAt(s: string, i: nat)
  {
    i + 3 <= |s| && s[i] == 'N' && s[i + 1] == 'a' && s[i + 2] == 'N'
  }

  predicate ContainsNaN(s: string)
  {
    exists i: nat :: i < |s| && NaNAt(s, i)
  }

  /**
   * `s.replace(/NaN/g, '""')`: scanning left to right, every occurrence of
   * "NaN" that does not overlap an earlier one becomes two double quotes.
   */
  function ScrubNaN(s: string): string
    decreases |s|
  {
    if |s| == 0 then ""
    else if NaNAt(s, 0) then "\"\"" + ScrubNaN(s[3..])
    else [s[0]] + ScrubNaN(s[1..])
  }

  /** The first character of the rewritten text: a quote where "NaN" started, else unchanged. */
  lemma ScrubNaNHead(s: string)
    requires |s| > 0
    ensures |ScrubNaN(s)| > 0
    ensures ScrubNaN(s)[0] == if NaNAt(s, 0) then '"' else s[0]
  {
  }

  /** After the rewrite no "NaN" is left, not even across a replaced occurrence. */
  lemma {:induction false} ScrubNaNRemovesAll(s: string)
    ensures !ContainsNaN(ScrubNaN(s))
    decreases |s|
  {
    if |s| > 0 {
      var r := ScrubNaN(s);
      if NaNAt(s, 0) {
        var rest := ScrubNaN(s[3..]);
        ScrubNaNRemovesAll(s[3..]);
        forall i: nat | i < |r| ensures !NaNAt(r, i) {
          if i >= 2 {
            assert !NaNAt(rest, i - 2);
          }
        }
      } else {
        var rest := ScrubNaN(s[1..]);
        ScrubNaNRemovesAll(s[1..]);
        assert r == [s[0]] + rest;
        forall i: nat | i < |r| ensures !NaNAt(r, i) {
          if i >= 1 {
            assert !NaNAt(rest, i - 1);
          } else {
            HeadKeepsNoNaN(s);
          }
        }
      }
    }
  }

  /**
   * A kept first character does not start a "NaN" in the output: the next two
   * output characters are either copied from the input or a quote.
   */
  lemma HeadKeepsNoNaN(s: string)
    requires |s| > 0 && !NaNAt(s, 0)
    ensures !NaNAt([s[0]] + ScrubNaN(s[1..]), 0)
  {
    var rest := ScrubNaN(s[1..]);
    if |s| >= 2 {
      ScrubNaNHead(s[1..]);
      if !NaNAt(s[1..], 0) && |s| >= 3 {
        assert rest == [s[1]] + ScrubNaN(s[2..]);
        ScrubNaNHead(s[2..]);
      }
    }
  }

  /** Text without "NaN" passes the rewrite unchanged. */
  lemma {:induction false} ScrubNaNKeepsClean(s: string)
    requires !ContainsNaN(s)
    ensures ScrubNaN(s) == s
    decreases |s|
  {
    if |s| > 0 {
      assert !NaNAt(s, 0);
      assert !ContainsNaN(s[1..]) by {
        forall i: nat | i < |s[1..]| ensures !NaNAt(s[1..], i) {
          assert !NaNAt(s, i + 1);
        }
      }
      ScrubNaNKeepsClean(s[1..]);
      assert [s[0]] + s[1..] == s;
    }
  }

  /** A character the JavaScript regular-expression class `\s` matches. */
  predicate IsJsWhitespace(c: char)
  {
    var n := c as int;
    n == 0x09 || n == 0x0A || n == 0x0B || n == 0x0C || n == 0x0D || n == 0x20
    || n == 0xA0 || n == 0x1680 || (0x2000 <= n <= 0x200A)
    || n == 0x2028 || n == 0x2029 || n == 0x202F || n == 0x205F || n == 0x3000 || n == 0xFEFF
  }

  /** `s.replace(/\s/g, '_')`: every whitespace character becomes an underscore, all else stays. */
  function ReplaceWhitespace(s: string): (r: string)
    ensures |r| == |s|
    ensures forall i :: 0 <= i < |s| ==> r[i] == if IsJsWhitespace(s[i]) then '_' else s[i]
  {
    if |s| == 0 then ""
    else [if IsJsWhitespace(s[0]) then '_' else s[0]] + ReplaceWhitespace(s[1..])
  }
}
