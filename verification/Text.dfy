/** Option, and the string operations of Go's strings package that the controller relies on. */
module Text {

  datatype Option<+T> = None | Some(value: T) {
    function GetOr(default: T): T {
      if Some? then value else default
    }
  }

  /** The code points Go's unicode.IsSpace accepts. */
  predicate IsSpace(c: char) {
    || c in {'\t', '\n', '\U{000B}', '\U{000C}', '\r', ' ', '\U{0085}', '\U{00A0}', '\U{1680}'}
    || '\U{2000}' <= c <= '\U{200A}'
    || c in {'\U{2028}', '\U{2029}', '\U{202F}', '\U{205F}', '\U{3000}'}
  }

  /** The same code points as numbers: Unicode's White_Space. */
  lemma SpaceCodes(c: char)
    ensures IsSpace(c) <==>
      || c as int in {0x09, 0x0A, 0x0B, 0x0C, 0x0D, 0x20, 0x85, 0xA0, 0x1680, 0x2028, 0x2029, 0x202F, 0x205F, 0x3000}
      || 0x2000 <= c as int <= 0x200A
  {
  }

  function TrimLeft(s: string): (r: string)
    ensures r == "" || !IsSpace(r[0])
    ensures |r| <= |s| && r == s[|s| - |r|..]
    ensures forall k :: 0 <= k < |s| - |r| ==> IsSpace(s[k])
  {
    if s != "" && IsSpace(s[0]) then TrimLeft(s[1..]) else s
  }

  function TrimRight(s: string): (r: string)
    ensures r == "" || !IsSpace(r[|r| - 1])
    ensures r <= s
    ensures forall k :: |r| <= k < |s| ==> IsSpace(s[k])
  {
    if s != "" && IsSpace(s[|s| - 1]) then TrimRight(s[..|s| - 1]) else s
  }

  /** strings.TrimSpace */
  function TrimSpace(s: string): (r: string)
    ensures r == "" || (!IsSpace(r[0]) && !IsSpace(r[|r| - 1]))
    ensures r == "" <==> forall k :: 0 <= k < |s| ==> IsSpace(s[k])
  {
    TrimRight(TrimLeft(s))
  }

  /** The piece r of s starts at i, and everything around it is white space. */
  ghost predicate IsTrimmed(s: string, i: int, r: string) {
    && 0 <= i && i + |r| <= |s| && s[i..i + |r|] == r
    && (forall k :: 0 <= k < i ==> IsSpace(s[k])) && (forall k :: i + |r| <= k < |s| ==> IsSpace(s[k]))
  }

  /** What is trimmed is one piece of the text, and nothing but white space is cut off around it. */
  lemma TrimSpaceIsPiece(s: string)
    ensures exists i :: IsTrimmed(s, i, TrimSpace(s))
  {
    var left := TrimLeft(s);
    PieceInside(s, left, TrimRight(left));
    hide IsSpace, IsTrimmed;
    assert IsTrimmed(s, |s| - |left|, TrimSpace(s));
  }

  lemma PieceInside(s: string, left: string, r: string)
    requires |left| <= |s| && left == s[|s| - |left|..] && r <= left
    requires forall k :: 0 <= k < |s| - |left| ==> IsSpace(s[k])
    requires forall k :: |r| <= k < |left| ==> IsSpace(left[k])
    ensures IsTrimmed(s, |s| - |left|, r)
  {
    hide IsSpace;
    var i := |s| - |left|;
    assert s[i..i + |r|] == left[..|r|];
    assert forall k :: i + |r| <= k < |s| ==> s[k] == left[k - i];
  }

  /** A text that neither starts nor ends with white space is left alone. */
  lemma TrimSpaceFixed(s: string)
    requires s == "" || (!IsSpace(s[0]) && !IsSpace(s[|s| - 1]))
    ensures TrimSpace(s) == s
  {
  }

  lemma TrimSpaceIdempotent(s: string)
    ensures TrimSpace(TrimSpace(s)) == TrimSpace(s)
  {
    TrimSpaceFixed(TrimSpace(s));
  }

  predicate HasPrefix(s: string, prefix: string) {
    prefix <= s
  }

  predicate OccursAt(s: string, sep: string, i: int) {
    0 <= i && i + |sep| <= |s| && s[i..i + |sep|] == sep
  }

  ghost predicate Occurs(s: string, sep: string) {
    exists i :: OccursAt(s, sep, i)
  }

  /** The leftmost occurrence of sep at or after position i, or -1. */
  function FindFrom(s: string, sep: string, i: nat): (r: int)
    requires sep != "" && i <= |s|
    ensures r == -1 || (i <= r && OccursAt(s, sep, r))
    ensures forall j :: i <= j && OccursAt(s, sep, j) ==> r != -1 && r <= j
    decreases |s| - i
  {
    if |s| - i < |sep| then -1
    else if OccursAt(s, sep, i) then i
    else FindFrom(s, sep, i + 1)
  }

  /** strings.Index */
  function Find(s: string, sep: string): (r: int)
    requires sep != ""
    ensures r == -1 || OccursAt(s, sep, r)
    ensures forall j :: OccursAt(s, sep, j) ==> r != -1 && r <= j
  {
    FindFrom(s, sep, 0)
  }

  /** strings.Contains */
  predicate Contains(s: string, sep: string)
    requires sep != ""
    ensures Contains(s, sep) <==> Occurs(s, sep)
  {
    Find(s, sep) != -1
  }

  /** strings.Split for a non-empty separator: cuts at the leftmost occurrence and repeats on the rest. */
  function Split(s: string, sep: string): (parts: seq<string>)
    requires sep != ""
    ensures parts != []
    decreases |s|
  {
    var i := Find(s, sep);
    if i == -1 then [s] else [s[..i]] + Split(s[i + |sep|..], sep)
  }

  /** The piece of s in front of the first sep, or all of s. */
  function Before(s: string, sep: string): (r: string)
    requires sep != ""
    ensures r == Split(s, sep)[0]
    ensures r <= s
  {
    var i := Find(s, sep);
    if i == -1 then s else s[..i]
  }

  /** Splitting at k when sep occurs at k and nowhere earlier. */
  lemma SplitAt(s: string, sep: string, k: nat)
    requires sep != "" && OccursAt(s, sep, k)
    requires forall j :: 0 <= j < k ==> !OccursAt(s, sep, j)
    ensures Split(s, sep) == [s[..k]] + Split(s[k + |sep|..], sep)
    ensures Before(s, sep) == s[..k]
  {
    hide FindFrom;
    assert Find(s, sep) == k;
  }

  /** The first two pieces, said with positions. */
  lemma SplitTwo(s: string, sep: string)
    requires sep != "" && |Split(s, sep)| >= 2
    ensures var n := Find(s, sep);
      && OccursAt(s, sep, n) && Before(s, sep) == Split(s, sep)[0] == s[..n]
      && Split(s, sep)[1] == Before(s[n + |sep|..], sep)
  {
    hide FindFrom;
  }

  lemma SplitNone(s: string, sep: string)
    requires sep != "" && !Occurs(s, sep)
    ensures Split(s, sep) == [s] && Before(s, sep) == s
  {
  }

  /** An occurrence inside a piece of s is an occurrence in s. */
  lemma OccursInSlice(s: string, lo: nat, hi: nat, sep: string, i: nat)
    requires lo <= hi <= |s|
    ensures OccursAt(s[lo..hi], sep, i) <==> OccursAt(s, sep, lo + i) && lo + i + |sep| <= hi
  {
    if i + |sep| <= hi - lo {
      var a, b := s[lo..hi][i..i + |sep|], s[lo + i..lo + i + |sep|];
      assert |a| == |b| && forall k :: 0 <= k < |a| ==> a[k] == s[lo + i + k] && b[k] == s[lo + i + k];
      assert a == b;
    }
  }

  /** The characters of an occurrence. */
  lemma CharAt(s: string, sep: string, i: nat, c: nat)
    requires OccursAt(s, sep, i) && i <= c < i + |sep|
    ensures s[c] == sep[c - i] && s[c] in sep
  {
    assert s[i..i + |sep|][c - i] == s[c];
  }

  /** The text in front of the first separator does not contain it, not even overlapping what follows. */
  lemma BeforeIsClean(s: string, sep: string)
    requires sep != ""
    ensures !Occurs(Before(s, sep), sep)
  {
    var b := Before(s, sep);
    assert b == s[0..|b|];
    forall i | OccursAt(b, sep, i) ensures false {
      OccursInSlice(s, 0, |b|, sep, i);
    }
  }

  /** A text without "::" that does not end in a colon is the first piece when "::" and more follow. */
  lemma SplitAfterHead(head: string, rest: string)
    requires !Occurs(head, "::") && (head == "" || head[|head| - 1] != ':')
    ensures Split(head + "::" + rest, "::") == [head] + Split(rest, "::")
  {
    var s := head + "::" + rest;
    var n := |head|;
    assert s[0..n] == head && s[n..n + 2] == "::" && s[n + 2..] == rest;
    forall j | 0 <= j < n ensures !OccursAt(s, "::", j) {
      if j + 2 <= n {
        OccursInSlice(s, 0, n, "::", j);
      } else if OccursAt(s, "::", j) {
        CharAt(s, "::", j, j);
      }
    }
    SplitAt(s, "::", n);
  }
}
