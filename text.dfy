/** The few Python string operations the scripts rely on. */
module Text {

  /** Occurrences of `c` in `s`. */
  function Count(s: string, c: char): (n: nat)
    ensures n == 0 <==> c !in s
    ensures n <= |s|
  {
    if s == [] then 0 else Count(s[1..], c) + (if s[0] == c then 1 else 0)
  }

  /** `s.split(c)` for a one-character separator. */
  function SplitOn(s: string, c: char): (parts: seq<string>)
    ensures |parts| == Count(s, c) + 1
    ensures forall k :: 0 <= k < |parts| ==> c !in parts[k]
    ensures parts[0] <= s
  {
    if s == [] then [""]
    else
      var rest := SplitOn(s[1..], c);
      if s[0] == c then [""] + rest
      else [[s[0]] + rest[0]] + rest[1..]
  }

  /** `c.join(parts)` */
  function Join(parts: seq<string>, c: char): string
    requires |parts| >= 1
  {
    if |parts| == 1 then parts[0] else parts[0] + [c] + Join(parts[1..], c)
  }

  /** Gluing text onto the first part glues it onto the joined string. */
  lemma JoinPrepend(x: string, parts: seq<string>, c: char)
    requires |parts| >= 1
    ensures Join([x + parts[0]] + parts[1..], c) == x + Join(parts, c)
  {
    var glued := [x + parts[0]] + parts[1..];
    if |parts| > 1 {
      assert glued[1..] == parts[1..];
      assert Join(glued, c) == (x + parts[0]) + [c] + Join(parts[1..], c);
    }
  }

  /** Splitting loses nothing: joining the parts with the separator gives back the string. */
  lemma {:induction false} JoinSplitOn(s: string, c: char)
    ensures Join(SplitOn(s, c), c) == s
  {
    if s != [] {
      var rest := SplitOn(s[1..], c);
      JoinSplitOn(s[1..], c);
      if s[0] == c {
        assert SplitOn(s, c)[1..] == rest;
      } else {
        JoinPrepend([s[0]], rest, c);
      }
    }
  }

  /** With exactly one separator, `a, b = s.split(c)` binds the text before and after it. */
  lemma SplitOnOnce(s: string, c: char)
    requires Count(s, c) == 1
    ensures |SplitOn(s, c)| == 2
    ensures s == SplitOn(s, c)[0] + [c] + SplitOn(s, c)[1]
  {
    JoinSplitOn(s, c);
    var parts := SplitOn(s, c);
    assert Join(parts[1..], c) == parts[1];
  }

  /** The characters `str.isspace` accepts. */
  predicate IsSpace(ch: char) {
    || ('\t' <= ch <= '\r')
    || ('\U{1C}' <= ch <= ' ')
    || ch == '\U{85}' || ch == '\U{A0}' || ch == '\U{1680}'
    || ('\U{2000}' <= ch <= '\U{200A}')
    || ch == '\U{2028}' || ch == '\U{2029}' || ch == '\U{202F}' || ch == '\U{205F}' || ch == '\U{3000}'
  }

  function TrimLeft(s: string): (r: string)
    ensures |r| <= |s| && r == s[|s| - |r|..]
    ensures forall k :: 0 <= k < |s| - |r| ==> IsSpace(s[k])
    ensures r != [] ==> !IsSpace(r[0])
  {
    if s != [] && IsSpace(s[0]) then TrimLeft(s[1..]) else s
  }

  function TrimRight(s: string): (r: string)
    ensures |r| <= |s| && r == s[..|r|]
    ensures forall k :: |r| <= k < |s| ==> IsSpace(s[k])
    ensures r != [] ==> !IsSpace(r[|r| - 1])
  {
    if s != [] && IsSpace(s[|s| - 1]) then TrimRight(s[..|s| - 1]) else s
  }

  /** How many whitespace characters `s` starts with. */
  function LeadingSpaces(s: string): (n: nat)
    ensures n <= |s|
    ensures forall k :: 0 <= k < n ==> IsSpace(s[k])
    ensures n < |s| ==> !IsSpace(s[n])
  {
    var left := TrimLeft(s);
    assert left != [] ==> left[0] == s[|s| - |left|];
    |s| - |left|
  }

  /** `s.strip()`: what lies between the leading and the trailing whitespace. */
  function Strip(s: string): (r: string)
    ensures r <= s[LeadingSpaces(s)..]
    ensures forall k :: LeadingSpaces(s) + |r| <= k < |s| ==> IsSpace(s[k])
    ensures r == [] <==> forall k :: 0 <= k < |s| ==> IsSpace(s[k])
    ensures r != [] ==> !IsSpace(r[0]) && !IsSpace(r[|r| - 1])
  {
    StripShape(s);
    TrimRight(TrimLeft(s))
  }

  lemma StripShape(s: string)
    ensures var n := LeadingSpaces(s); var r := TrimRight(TrimLeft(s));
      && r <= s[n..]
      && (forall k :: n + |r| <= k < |s| ==> IsSpace(s[k]))
      && (r != [] ==> !IsSpace(r[0]))
      && (r == [] ==> forall k :: 0 <= k < |s| ==> IsSpace(s[k]))
  {
    var left := TrimLeft(s);
    var n := LeadingSpaces(s);
    var r := TrimRight(left);
    assert left == s[n..];
    forall k | n + |r| <= k < |s| ensures IsSpace(s[k]) {
      assert s[k] == left[k - n];
    }
    if r != [] {
      assert r[0] == left[0];
    }
  }

  /** Two strings that differ only in a middle part are different. */
  lemma MiddleDiffers(p: string, a: string, b: string, m: string, q: string)
    requires a != b
    ensures p + a + m + q != p + b + m + q
  {
    if |a| == |b| {
      var i :| 0 <= i < |a| && a[i] != b[i];
      assert (p + a + m + q)[|p| + i] == a[i];
      assert (p + b + m + q)[|p| + i] == b[i];
    } else {
      assert |p + a + m + q| != |p + b + m + q|;
    }
  }
}
