/**
 The string operations bot.js uses to turn a message into a task:
 `text.replace(parsed.text, '').trim()` (bot.js:210, bot.js:232). With a
 string pattern, String.prototype.replace removes the FIRST occurrence only
 (the one String.prototype.indexOf finds), and String.prototype.trim strips
 the ECMAScript white-space and line-terminator code points from both ends.
 */
module TaskText {
  import opened Wrappers

  /** The code points String.prototype.trim removes: ECMAScript WhiteSpace
      (TAB, VT, FF, SP, NBSP, ZWNBSP and the Unicode "Zs" spaces) and
      LineTerminator (LF, CR, LS, PS). */
  const Spaces: set<char> :=
    { '\t', '\n', '\U{B}', '\U{C}', '\r', ' ', '\U{A0}', '\U{1680}',
      '\U{2000}', '\U{2001}', '\U{2002}', '\U{2003}', '\U{2004}', '\U{2005}',
      '\U{2006}', '\U{2007}', '\U{2008}', '\U{2009}', '\U{200A}',
      '\U{2028}', '\U{2029}', '\U{202F}', '\U{205F}', '\U{3000}', '\U{FEFF}' }

  predicate IsSpace(c: char)
  {
    c in Spaces
  }

  predicate AllSpace(s: string)
  {
    forall k :: 0 <= k < |s| ==> IsSpace(s[k])
  }

  /** Neither end of s is white space. */
  predicate Trimmed(s: string)
  {
    s == [] || (!IsSpace(s[0]) && !IsSpace(s[|s| - 1]))
  }

  /** s without its leading white space: the longest suffix that does not start with it. */
  function TrimStart(s: string): (r: string)
    ensures |r| <= |s| && r == s[|s| - |r|..]
    ensures forall k :: 0 <= k < |s| - |r| ==> IsSpace(s[k])
    ensures r == [] || !IsSpace(r[0])
  {
    if s != [] && IsSpace(s[0]) then
      var r := TrimStart(s[1..]);
      assert forall k :: 1 <= k < |s| ==> s[k] == s[1..][k - 1];
      r
    else s
  }

  /** s without its trailing white space: the longest prefix that does not end with it. */
  function TrimEnd(s: string): (r: string)
    ensures |r| <= |s| && r == s[..|r|]
    ensures forall k :: |r| <= k < |s| ==> IsSpace(s[k])
    ensures r == [] || !IsSpace(r[|r| - 1])
  {
    if s != [] && IsSpace(s[|s| - 1]) then
      var r := TrimEnd(s[..|s| - 1]);
      assert forall k :: 0 <= k < |s| - 1 ==> s[k] == s[..|s| - 1][k];
      r
    else s
  }

  /** String.prototype.trim: neither end of the result is white space. */
  function Trim(s: string): (r: string)
    ensures Trimmed(r)
  {
    var t := TrimStart(s);
    var r := TrimEnd(t);
    assert r != [] ==> r[0] == t[0];
    r
  }

  /** What Trim cuts off is white space: its result is the infix
      s[a..a + |Trim(s)|] of s, and everything before and after it is white
      space. */
  lemma TrimCutsSpace(s: string)
    ensures var r := Trim(s); var a := |s| - |TrimStart(s)|;
      && a + |r| <= |s| && r == s[a..a + |r|]
      && (forall k :: 0 <= k < a ==> IsSpace(s[k]))
      && (forall k :: a + |r| <= k < |s| ==> IsSpace(s[k]))
  {
    var t := TrimStart(s);
    var r := TrimEnd(t);
    var a := |s| - |t|;
    assert t == s[a..];
    forall k | a + |r| <= k < |s| ensures IsSpace(s[k]) {
      assert s[k] == t[k - a];
    }
  }

  /** Leading white space is all TrimStart removes. */
  lemma {:induction false} TrimStartPadded(p: string, t: string)
    requires AllSpace(p)
    requires t == [] || !IsSpace(t[0])
    ensures TrimStart(p + t) == t
  {
    if p != [] {
      assert (p + t)[1..] == p[1..] + t;
      TrimStartPadded(p[1..], t);
    }
  }

  /** Trailing white space is all TrimEnd removes. */
  lemma {:induction false} TrimEndPadded(t: string, q: string)
    requires AllSpace(q)
    requires t == [] || !IsSpace(t[|t| - 1])
    ensures TrimEnd(t + q) == t
  {
    if q != [] {
      assert (t + q)[..|t + q| - 1] == t + q[..|q| - 1];
      TrimEndPadded(t, q[..|q| - 1]);
    }
  }

  /** Trim gives back t from t padded on both sides with white space. */
  lemma {:induction false} TrimPadded(p: string, t: string, q: string)
    requires AllSpace(p) && AllSpace(q) && Trimmed(t)
    ensures Trim(p + t + q) == t
  {
    if t == [] {
      assert p + t + q == (p + q) + [];
      TrimStartPadded(p + q, []);
    } else {
      assert p + t + q == p + (t + q);
      TrimStartPadded(p, t + q);
      TrimEndPadded(t, q);
    }
  }

  /** Trimming twice is trimming once. */
  lemma TrimIdempotent(s: string)
    ensures Trim(Trim(s)) == Trim(s)
  {
    var t := Trim(s);
    assert [] + t + [] == t;
    TrimPadded([], t, []);
  }

  /** Whether pat occurs in s starting at position i. */
  predicate OccursAt(s: string, pat: string, i: int)
  {
    0 <= i && i + |pat| <= |s| && s[i..i + |pat|] == pat
  }

  /** String.prototype.indexOf(pat, from) for 0 <= from <= |s|: the first
      position at or after `from` where pat occurs, or None for JavaScript's
      -1. The search that replace makes starts at 0. (JavaScript clamps a
      larger `from` to |s|; that case never arises here.) */
  function IndexOf(s: string, pat: string, from: nat): (r: Option<nat>)
    ensures r.Some? ==> from <= r.value && OccursAt(s, pat, r.value)
    ensures r.Some? ==> forall i :: from <= i < r.value ==> !OccursAt(s, pat, i)
    ensures r.None? ==> forall i :: from <= i ==> !OccursAt(s, pat, i)
    decreases |s| - from
  {
    if from + |pat| > |s| then None
    else if s[from..from + |pat|] == pat then Some(from)
    else IndexOf(s, pat, from + 1)
  }

  /** s.replace(pat, ''): the first occurrence of pat cut out of s. Putting
      pat back at the same place gives s again. */
  function RemoveFirst(s: string, pat: string): (r: string)
    ensures IndexOf(s, pat, 0).None? ==> r == s
    ensures IndexOf(s, pat, 0).Some? ==>
      var i := IndexOf(s, pat, 0).value;
      i <= |r| && s == r[..i] + pat + r[i..]
  {
    match IndexOf(s, pat, 0)
    case None => s
    case Some(i) =>
      var r := s[..i] + s[i + |pat|..];
      assert r[..i] == s[..i] && r[i..] == s[i + |pat|..];
      assert s == s[..i] + s[i..i + |pat|] + s[i + |pat|..];
      r
  }

  /** The task text left once the date expression `span` is taken out of the
      message: `text.replace(span, '').trim()`. */
  function ExtractTask(text: string, span: string): (task: string)
    ensures Trimmed(task)
  {
    Trim(RemoveFirst(text, span))
  }

  /** When the message starts with the date expression and white space
      separates it from the task, the task comes back unchanged. */
  lemma {:induction false} LeadingSpanRemoved(span: string, gap: string, task: string)
    requires AllSpace(gap) && Trimmed(task)
    ensures ExtractTask(span + gap + task, span) == task
  {
    var s := span + gap + task;
    assert s[0..|span|] == span;
    assert IndexOf(s, span, 0) == Some(0);
    assert RemoveFirst(s, span) == gap + task + [];
    TrimPadded(gap, task, []);
  }
}
