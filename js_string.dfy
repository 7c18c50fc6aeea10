/**
 * The JavaScript string built-ins the authentication core relies on
 * (`String.prototype.trim`, `startsWith`, `split` with a one-character
 * separator, `includes`) and JavaScript truthiness of an optional string.
 * Characters are Unicode scalar values; the characters `trim` removes all lie
 * in the Basic Multilingual Plane, so UTF-16 code units and scalar values give
 * the same results for every operation modelled here.
 */
module JsString {

  datatype Option<+T> = None | Some(value: T)

  /** `!!s` for a value that is `null`/`undefined` (None) or a string. */
  predicate Truthy(s: Option<string>) {
    s.Some? && s.value != []
  }

  /** `s || ''` for an optional string. */
  function OrEmpty(s: Option<string>): string {
    if Truthy(s) then s.value else []
  }

  /** The WhiteSpace and LineTerminator code points of ECMAScript, which `trim` removes. */
  predicate IsWhitespace(c: char) {
    || c == '\t' || c == '\n' || c == '\U{000B}' || c == '\U{000C}' || c == '\r'
    || c == ' ' || c == '\U{00A0}' || c == '\U{1680}'
    || ('\U{2000}' <= c <= '\U{200A}')
    || c == '\U{2028}' || c == '\U{2029}' || c == '\U{202F}' || c == '\U{205F}'
    || c == '\U{3000}' || c == '\U{FEFF}'
  }

  predicate AllWhitespace(s: string) {
    forall i :: 0 <= i < |s| ==> IsWhitespace(s[i])
  }

  /** No whitespace at either end: what `trim` always returns. */
  predicate Trimmed(s: string) {
    s == [] || (!IsWhitespace(s[0]) && !IsWhitespace(s[|s| - 1]))
  }

  /** `s.startsWith(prefix)`. */
  predicate StartsWith(s: string, prefix: string) {
    |prefix| <= |s| && s[..|prefix|] == prefix
  }

  /** Number of whitespace characters at the start of `s`. */
  function LeadingWhitespace(s: string): (k: nat)
    ensures k <= |s|
    ensures forall i :: 0 <= i < k ==> IsWhitespace(s[i])
    ensures k < |s| ==> !IsWhitespace(s[k])
  {
    if |s| == 0 || !IsWhitespace(s[0]) then 0 else 1 + LeadingWhitespace(s[1..])
  }

  /** Number of whitespace characters at the end of `s`. */
  function TrailingWhitespace(s: string): (k: nat)
    ensures k <= |s|
    ensures forall i :: |s| - k <= i < |s| ==> IsWhitespace(s[i])
    ensures k < |s| ==> !IsWhitespace(s[|s| - 1 - k])
  {
    if |s| == 0 || !IsWhitespace(s[|s| - 1]) then 0
    else 1 + TrailingWhitespace(s[..|s| - 1])
  }

  /** `s.trim()`: removes the whitespace at both ends and nothing else. */
  function Trim(s: string): (r: string)
    ensures Trimmed(r)
    ensures |r| <= |s|
    ensures r == [] <==> AllWhitespace(s)
  {
    var lead := LeadingWhitespace(s);
    if lead == |s| then []
    else
      var trail := TrailingWhitespace(s);
      assert !IsWhitespace(s[lead]);
      s[lead..|s| - trail]
  }

  /** `s` is the trimmed string with whitespace around it. */
  lemma TrimParts(s: string) returns (pre: string, post: string)
    ensures AllWhitespace(pre) && AllWhitespace(post)
    ensures s == pre + Trim(s) + post
  {
    var lead := LeadingWhitespace(s);
    if lead == |s| {
      pre, post := s, [];
      assert s == pre + [] + post;
    } else {
      var trail := TrailingWhitespace(s);
      assert !IsWhitespace(s[lead]);
      var m := s[lead..|s| - trail];
      assert Trim(s) == m;
      pre, post := s[..lead], s[|s| - trail..];
      forall i | 0 <= i < |pre| ensures IsWhitespace(pre[i]) {
        assert pre[i] == s[i];
      }
      forall i | 0 <= i < |post| ensures IsWhitespace(post[i]) {
        assert post[i] == s[|s| - trail + i];
      }
      ThreeSlices(s, lead, |s| - trail);
    }
  }

  /** Cutting `s` at `i` and `j` and gluing the pieces back gives `s`. */
  lemma ThreeSlices(s: string, i: nat, j: nat)
    requires i <= j <= |s|
    ensures s == s[..i] + s[i..j] + s[j..]
  {
  }

  /** Trimming removes exactly the surrounding whitespace: it undoes padding. */
  lemma TrimOfPadded(pre: string, m: string, post: string)
    requires AllWhitespace(pre) && AllWhitespace(post) && Trimmed(m)
    ensures Trim(pre + m + post) == m
  {
    var s := pre + m + post;
    if m == [] {
      assert AllWhitespace(s) by {
        forall i | 0 <= i < |s| ensures IsWhitespace(s[i]) {
          if i < |pre| { assert s[i] == pre[i]; } else { assert s[i] == post[i - |pre|]; }
        }
      }
    } else {
      var lead := LeadingWhitespace(s);
      assert s[|pre|] == m[0];
      assert lead == |pre|;
      var trail := TrailingWhitespace(s);
      assert s[|s| - 1 - |post|] == m[|m| - 1];
      assert trail == |post|;
      assert s[|pre|..|s| - |post|] == m;
    }
  }

  /** A string without whitespace at its ends is left as it is. */
  lemma TrimOfTrimmed(s: string)
    requires Trimmed(s)
    ensures Trim(s) == s
  {
    if s != [] {
      assert LeadingWhitespace(s) == 0;
      assert TrailingWhitespace(s) == 0;
    }
  }

  lemma TrimIdempotent(s: string)
    ensures Trim(Trim(s)) == Trim(s)
  {
    TrimOfTrimmed(Trim(s));
  }

  /** Every character of `s.trim()` comes from `s`. */
  lemma TrimChars(s: string, c: char)
    requires c in Trim(s)
    ensures c in s
  {
    var pre, post := TrimParts(s);
  }

  /** A non-blank character of `s` survives trimming. */
  lemma TrimKeeps(s: string, c: char)
    requires c in s && !IsWhitespace(c)
    ensures c in Trim(s)
  {
    var pre, post := TrimParts(s);
    assert c !in pre && c !in post;
  }

  /** Slicing a concatenation at the seam gives back its halves. */
  lemma SliceOfConcat(a: string, b: string)
    ensures (a + b)[..|a|] == a && (a + b)[|a|..] == b
  {
  }

  /**
   * Trimming `p + t`, where `p` starts with a non-blank character and `t`
   * has content, keeps `p` in front; trimming what follows `p` gives `t.trim()`.
   */
  lemma TrimAfterPrefix(p: string, t: string)
    requires p != [] && !IsWhitespace(p[0]) && Trim(t) != []
    ensures StartsWith(Trim(p + t), p)
    ensures Trim(Trim(p + t)[|p|..]) == Trim(t)
  {
    var pre, post := TrimParts(t);
    var m := Trim(t);
    var rest := pre + m;
    assert t == rest + post;
    TrimOfPrefixed(p, rest, post);
    assert Trim(rest) == m by {
      assert rest == pre + m + [];
      TrimOfPadded(pre, m, []);
    }
    SliceOfConcat(p, rest);
  }

  /** Trailing whitespace after `p + rest` is all that trimming removes. */
  lemma TrimOfPrefixed(p: string, rest: string, post: string)
    requires p != [] && !IsWhitespace(p[0])
    requires rest != [] && !IsWhitespace(rest[|rest| - 1])
    requires AllWhitespace(post)
    ensures Trim(p + (rest + post)) == p + rest
  {
    BetweenEnds(p, rest);
    assert p + (rest + post) == [] + (p + rest) + post;
    TrimOfPadded([], p + rest, post);
  }

  /** `p + q` is trimmed when `p` starts and `q` ends with a non-blank character. */
  lemma BetweenEnds(p: string, q: string)
    requires p != [] && !IsWhitespace(p[0])
    requires q != [] && !IsWhitespace(q[|q| - 1])
    ensures Trimmed(p + q)
  {
    assert (p + q)[0] == p[0];
    assert (p + q)[|p + q| - 1] == q[|q| - 1];
  }

  /** `s.split(sep)` for a one-character separator; `"".split(sep)` is `[""]`. */
  function Split(s: string, sep: char): (parts: seq<string>)
    ensures |parts| >= 1
    ensures forall i :: 0 <= i < |parts| ==> sep !in parts[i]
  {
    if s == [] then [[]]
    else
      var rest := Split(s[1..], sep);
      if s[0] == sep then [[]] + rest else [[s[0]] + rest[0]] + rest[1..]
  }

  /** Every character of every part of `s.split(sep)` comes from `s`. */
  lemma {:induction false} SplitChars(s: string, sep: char, i: nat, c: char)
    requires i < |Split(s, sep)| && c in Split(s, sep)[i]
    ensures c in s
  {
    if s != [] {
      var rest := Split(s[1..], sep);
      if s[0] == sep {
        SplitChars(s[1..], sep, i - 1, c);
      } else if i == 0 {
        if c != s[0] { SplitChars(s[1..], sep, 0, c); }
      } else {
        SplitChars(s[1..], sep, i, c);
      }
    }
  }

  /** A string without the separator splits into itself alone. */
  lemma SplitWithoutSep(s: string, sep: char)
    requires sep !in s
    ensures Split(s, sep) == [s]
  {
    SplitPrefix(s, [], sep);
    assert s + [] == s;
  }

  /** `parts.join(sep)`: the inverse of Split. */
  function Join(parts: seq<string>, sep: char): string {
    if |parts| == 0 then []
    else if |parts| == 1 then parts[0]
    else parts[0] + [sep] + Join(parts[1..], sep)
  }

  /** Number of occurrences of `c` in `s`. */
  function Count(s: string, c: char): nat {
    if s == [] then 0 else (if s[0] == c then 1 else 0) + Count(s[1..], c)
  }

  lemma {:induction false} JoinSplit(s: string, sep: char)
    ensures Join(Split(s, sep), sep) == s
  {
    if s != [] {
      var rest := Split(s[1..], sep);
      JoinSplit(s[1..], sep);
      if s[0] == sep {
        assert Split(s, sep) == [[]] + rest;
        assert ([[]] + rest)[1..] == rest;
        assert s == [] + [sep] + s[1..];
      } else if |rest| == 1 {
        assert s == [s[0]] + s[1..];
      } else {
        var parts := Split(s, sep);
        assert parts[1..] == rest[1..];
        assert s == [s[0]] + s[1..];
        assert Join(rest, sep) == rest[0] + [sep] + Join(rest[1..], sep);
      }
    }
  }

  /** A separator-free prefix is glued onto the first part. */
  lemma {:induction false} SplitPrefix(a: string, b: string, sep: char)
    requires sep !in a
    ensures Split(a + b, sep) == [a + Split(b, sep)[0]] + Split(b, sep)[1..]
  {
    var s := Split(b, sep);
    if a != [] {
      var tail := a[1..] + b;
      assert a + b == [a[0]] + tail by {
        assert a == [a[0]] + a[1..];
      }
      SplitPrefix(a[1..], b, sep);
      SplitCons(a[0], tail, sep);
      assert [a[0]] + (a[1..] + s[0]) == a + s[0] by {
        assert a == [a[0]] + a[1..];
      }
    } else {
      assert a + b == b;
      assert a + s[0] == s[0];
      assert [s[0]] + s[1..] == s;
    }
  }

  /** A character other than the separator joins the first part. */
  lemma SplitCons(c: char, rest: string, sep: char)
    requires c != sep
    ensures Split([c] + rest, sep) == [[c] + Split(rest, sep)[0]] + Split(rest, sep)[1..]
  {
    assert ([c] + rest)[0] == c && ([c] + rest)[1..] == rest;
  }

  lemma {:induction false} SplitJoin(parts: seq<string>, sep: char)
    requires |parts| >= 1
    requires forall i :: 0 <= i < |parts| ==> sep !in parts[i]
    ensures Split(Join(parts, sep), sep) == parts
  {
    if |parts| == 1 {
      SplitPrefix(parts[0], [], sep);
      assert parts[0] + [] == parts[0];
    } else {
      var rest := parts[1..];
      var j := Join(rest, sep);
      SplitJoin(rest, sep);
      assert ([sep] + j)[1..] == j;
      assert Split([sep] + j, sep) == [[]] + rest;
      SplitPrefix(parts[0], [sep] + j, sep);
      assert parts[0] + [sep] + j == parts[0] + ([sep] + j);
      var t := Split([sep] + j, sep);
      assert t[0] == [] && t[1..] == rest;
      assert parts[0] + [] == parts[0];
      assert parts == [parts[0]] + rest;
    }
  }

  /** `s.split(sep).length` is one more than the number of separators. */
  lemma {:induction false} SplitLength(s: string, sep: char)
    ensures |Split(s, sep)| == Count(s, sep) + 1
  {
    if s != [] {
      SplitLength(s[1..], sep);
    }
  }

  /** A separator occurs in the joined string exactly when there are at least two parts. */
  lemma {:induction false} JoinContainsSep(parts: seq<string>, sep: char)
    requires |parts| >= 1
    requires forall i :: 0 <= i < |parts| ==> sep !in parts[i]
    ensures (sep in Join(parts, sep)) <==> |parts| >= 2
  {
    if |parts| >= 2 {
      assert Join(parts, sep)[|parts[0]|] == sep;
    }
  }
}
