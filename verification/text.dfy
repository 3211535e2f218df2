/** The string operations the orchestration code relies on (Python's `strip`,
    `lower`, `in`, `replace`, `join`, `split`), written out over `seq<char>`.
    Whitespace and case are the ASCII ones. */
module Text {

  /** The ASCII whitespace characters recognised by `str.strip`, `str.split` and `\s`. */
  predicate IsSpace(c: char) {
    c == ' ' || c == '\t' || c == '\n' || c == '\r' || c == '\U{000B}' || c == '\U{000C}'
  }

  function TrimLeft(s: string): (r: string)
    ensures |r| <= |s| && r == s[|s| - |r|..]
    ensures r == [] || !IsSpace(r[0])
  {
    if |s| > 0 && IsSpace(s[0]) then TrimLeft(s[1..]) else s
  }

  function TrimRight(s: string): (r: string)
    ensures |r| <= |s| && r == s[..|r|]
    ensures r == [] || !IsSpace(r[|r| - 1])
  {
    if |s| > 0 && IsSpace(s[|s| - 1]) then TrimRight(s[..|s| - 1]) else s
  }

  /** Python's `s.strip()`. */
  function Trim(s: string): (r: string)
    ensures |r| <= |s|
    ensures r == [] || (!IsSpace(r[0]) && !IsSpace(r[|r| - 1]))
  {
    TrimRight(TrimLeft(s))
  }

  /** A string that neither starts nor ends with whitespace is its own strip. */
  lemma TrimUnchanged(s: string)
    requires s == [] || (!IsSpace(s[0]) && !IsSpace(s[|s| - 1]))
    ensures Trim(s) == s
  {
  }

  function LowerChar(c: char): char {
    if 'A' <= c <= 'Z' then (c as int + 32) as char else c
  }

  /** Python's `s.lower()` on ASCII letters. */
  function Lower(s: string): (r: string)
    ensures |r| == |s|
    ensures forall i :: 0 <= i < |s| ==> r[i] == LowerChar(s[i])
  {
    seq(|s|, i requires 0 <= i < |s| => LowerChar(s[i]))
  }

  predicate StartsWith(s: string, prefix: string) {
    |prefix| <= |s| && s[..|prefix|] == prefix
  }

  predicate EndsWith(s: string, suffix: string) {
    |suffix| <= |s| && s[|s| - |suffix|..] == suffix
  }

  /** `sub` occurs in `s` starting at index `i`. */
  predicate OccursAt(s: string, sub: string, i: int) {
    0 <= i && i + |sub| <= |s| && s[i..i + |sub|] == sub
  }

  /** Python's `sub in s`. */
  function Contains(s: string, sub: string): (r: bool)
    ensures r <==> exists i :: OccursAt(s, sub, i)
  {
    if StartsWith(s, sub) then
      assert OccursAt(s, sub, 0);
      true
    else if |s| == 0 then
      false
    else
      var r := Contains(s[1..], sub);
      if r then
        var i :| OccursAt(s[1..], sub, i);
        assert OccursAt(s, sub, i + 1);
        true
      else
        assert forall i :: OccursAt(s, sub, i) ==> i >= 1 && OccursAt(s[1..], sub, i - 1);
        false
  }

  /** Python's `s.replace(c, "")` for a one-character `c`. */
  function RemoveChar(s: string, c: char): (r: string)
    ensures c !in r && |r| <= |s|
    ensures forall x :: x in r <==> x in s && x != c
  {
    if |s| == 0 then []
    else if s[0] == c then RemoveChar(s[1..], c)
    else [s[0]] + RemoveChar(s[1..], c)
  }

  /** Python's `s.replace(pat, rep)`: non-overlapping occurrences, left to right. */
  function ReplaceAll(s: string, pat: string, rep: string): string
    requires |pat| > 0
    decreases |s|
  {
    if |s| == 0 then []
    else if StartsWith(s, pat) then rep + ReplaceAll(s[|pat|..], pat, rep)
    else [s[0]] + ReplaceAll(s[1..], pat, rep)
  }

  /** An occurrence in the tail is an occurrence in the whole string. */
  lemma ContainsTail(s: string, sub: string)
    requires |s| > 0
    ensures Contains(s[1..], sub) ==> Contains(s, sub)
  {
    if Contains(s[1..], sub) {
      var i :| OccursAt(s[1..], sub, i);
      assert OccursAt(s, sub, i + 1);
    }
  }

  /** A string without the pattern is left as it is. */
  lemma {:induction false} ReplaceAbsent(s: string, pat: string, rep: string)
    requires |pat| > 0 && !Contains(s, pat)
    ensures ReplaceAll(s, pat, rep) == s
    decreases |s|
  {
    if |s| > 0 {
      assert !OccursAt(s, pat, 0);
      ContainsTail(s, pat);
      ReplaceAbsent(s[1..], pat, rep);
    }
  }

  /** When the replacement is non-empty and shares no character with the
      pattern, a prefix of the result made of pattern characters other than
      `pat[0]` was already a prefix of the input. */
  lemma {:induction false} ReplacedPrefix(t: string, pat: string, rep: string, q: string)
    requires |pat| > 0 && |rep| > 0 && (forall c :: c in rep ==> c !in pat)
    requires pat[0] !in q && (forall c :: c in q ==> c in pat)
    ensures StartsWith(ReplaceAll(t, pat, rep), q) ==> StartsWith(t, q)
    decreases |t|
  {
    if |q| > 0 && |t| > 0 {
      var r := ReplaceAll(t, pat, rep);
      assert q[0] in q;
      assert rep[0] in rep;
      if StartsWith(t, pat) {
        assert r == rep + ReplaceAll(t[|pat|..], pat, rep);
        assert r[0] == rep[0];
      } else {
        var rt := ReplaceAll(t[1..], pat, rep);
        assert r == [t[0]] + rt;
        ReplacedPrefix(t[1..], pat, rep, q[1..]);
        assert StartsWith(r, q) ==> StartsWith(rt, q[1..]) by {
          if StartsWith(r, q) {
            assert rt[..|q| - 1] == r[1..|q|];
          }
        }
        assert StartsWith(t[1..], q[1..]) && t[0] == q[0] ==> StartsWith(t, q) by {
          if StartsWith(t[1..], q[1..]) && t[0] == q[0] {
            assert t[..|q|] == [t[0]] + t[1..][..|q| - 1];
          }
        }
      }
    }
  }

  /** An occurrence that starts past `head` lies inside `tail`. */
  lemma NoOccurrencePast(head: string, tail: string, pat: string)
    requires !Contains(tail, pat)
    ensures forall i :: i >= |head| ==> !OccursAt(head + tail, pat, i)
  {
    forall i | i >= |head| ensures !OccursAt(head + tail, pat, i) {
      if i + |pat| <= |head + tail| {
        assert (head + tail)[i..i + |pat|] == tail[i - |head|..i - |head| + |pat|];
        assert !OccursAt(tail, pat, i - |head|);
      }
    }
  }

  /** When the pattern's first character appears nowhere else in the pattern
      and the non-empty replacement shares no character with the pattern, no
      occurrence of the pattern survives the replacement. */
  lemma {:induction false} ReplaceRemovesAll(s: string, pat: string, rep: string)
    requires |pat| > 0 && |rep| > 0 && (forall c :: c in rep ==> c !in pat)
    requires pat[0] !in pat[1..]
    ensures !Contains(ReplaceAll(s, pat, rep), pat)
    decreases |s|
  {
    var r := ReplaceAll(s, pat, rep);
    if |s| > 0 {
      var starts := StartsWith(s, pat);
      var head := if starts then rep else [s[0]];
      var tail := if starts then s[|pat|..] else s[1..];
      var rt := ReplaceAll(tail, pat, rep);
      assert r == head + rt;
      ReplaceRemovesAll(tail, pat, rep);
      NoOccurrencePast(head, rt, pat);
      if starts {
        forall i | 0 <= i < |head| ensures !OccursAt(r, pat, i) {
          assert r[i] == rep[i];
          assert rep[i] in rep;
        }
      } else {
        forall c | c in pat[1..] ensures c in pat { }
        ReplacedPrefix(tail, pat, rep, pat[1..]);
        assert !OccursAt(r, pat, 0);
      }
    }
  }

  /** An occurrence in a suffix is an occurrence in the whole string. */
  lemma ContainsDrop(s: string, k: nat, sub: string)
    requires k <= |s|
    ensures Contains(s[k..], sub) ==> Contains(s, sub)
  {
    if Contains(s[k..], sub) {
      var i :| OccursAt(s[k..], sub, i);
      assert s[k + i..k + i + |sub|] == s[k..][i..i + |sub|];
      assert OccursAt(s, sub, k + i);
    }
  }

  /** The middle part of a concatenation occurs in it. */
  lemma ContainsMiddle(a: string, b: string, c: string)
    ensures Contains(a + b + c, b)
  {
    var s := a + b + c;
    assert s[|a|..|a| + |b|] == b;
    assert OccursAt(s, b, |a|);
  }

  /** Removing a character distributes over concatenation. */
  lemma {:induction false} RemoveCharConcat(a: string, b: string, c: char)
    ensures RemoveChar(a + b, c) == RemoveChar(a, c) + RemoveChar(b, c)
    decreases |a|
  {
    if |a| > 0 {
      assert (a + b)[1..] == a[1..] + b;
      RemoveCharConcat(a[1..], b, c);
    } else {
      assert a + b == b;
    }
  }

  /** An occurrence survives removing a character from both sides. */
  lemma ContainsRemoved(s: string, w: string, c: char)
    requires Contains(s, w)
    ensures Contains(RemoveChar(s, c), RemoveChar(w, c))
  {
    var i :| OccursAt(s, w, i);
    var pre, post := s[..i], s[i + |w|..];
    assert s == pre + w + post;
    RemoveCharConcat(pre + w, post, c);
    RemoveCharConcat(pre, w, c);
    ContainsMiddle(RemoveChar(pre, c), RemoveChar(w, c), RemoveChar(post, c));
  }

  /** A prefix of the result that does not hold the first character of the
      replacement was already a prefix of the input. */
  lemma {:induction false} PrefixSurvives(t: string, pat: string, rep: string, q: string)
    requires |pat| > 0 && |rep| > 0 && rep[0] !in q
    ensures StartsWith(ReplaceAll(t, pat, rep), q) ==> StartsWith(t, q)
    decreases |t|
  {
    if |q| > 0 && |t| > 0 {
      var r := ReplaceAll(t, pat, rep);
      assert q[0] in q;
      if StartsWith(t, pat) {
        assert r == rep + ReplaceAll(t[|pat|..], pat, rep);
        assert r[0] == rep[0];
      } else {
        var rt := ReplaceAll(t[1..], pat, rep);
        assert r == [t[0]] + rt;
        assert rep[0] !in q[1..] by {
          assert forall c :: c in q[1..] ==> c in q;
        }
        PrefixSurvives(t[1..], pat, rep, q[1..]);
        assert StartsWith(r, q) ==> StartsWith(rt, q[1..]) by {
          if StartsWith(r, q) {
            assert rt[..|q| - 1] == r[1..|q|];
          }
        }
        assert StartsWith(t[1..], q[1..]) && t[0] == q[0] ==> StartsWith(t, q) by {
          if StartsWith(t[1..], q[1..]) && t[0] == q[0] {
            assert t[..|q|] == [t[0]] + t[1..][..|q| - 1];
          }
        }
      }
    }
  }

  /** Replacing with text that shares no character with `q` cannot create an
      occurrence of `q`. */
  lemma {:induction false} ReplaceKeepsAbsent(s: string, pat: string, rep: string, q: string)
    requires |pat| > 0 && |rep| > 0 && (forall c :: c in rep ==> c !in q)
    requires !Contains(s, q)
    ensures !Contains(ReplaceAll(s, pat, rep), q)
    decreases |s|
  {
    var r := ReplaceAll(s, pat, rep);
    if |s| > 0 {
      var starts := StartsWith(s, pat);
      var head := if starts then rep else [s[0]];
      var k := if starts then |pat| else 1;
      var tail := s[k..];
      var rt := ReplaceAll(tail, pat, rep);
      assert r == head + rt;
      ContainsDrop(s, k, q);
      ReplaceKeepsAbsent(tail, pat, rep, q);
      NoOccurrencePast(head, rt, q);
      assert rep[0] in rep;
      PrefixSurvives(s, pat, rep, q);
      assert !OccursAt(s, q, 0);
      if starts {
        forall i | 0 < i < |head| ensures !OccursAt(r, q, i) {
          assert r[i] == rep[i];
          assert rep[i] in rep;
          if |q| > 0 {
            assert q[0] in q;
          }
        }
      }
    }
  }

  /** Python's `sep.join(parts)`. */
  function Join(sep: string, parts: seq<string>): string {
    if |parts| == 0 then []
    else if |parts| == 1 then parts[0]
    else parts[0] + sep + Join(sep, parts[1..])
  }

  lemma {:induction false} JoinStartsWithFirst(sep: string, parts: seq<string>)
    requires |parts| > 0
    ensures StartsWith(Join(sep, parts), parts[0])
  {
  }

  lemma {:induction false} JoinEndsWithLast(sep: string, parts: seq<string>)
    requires |parts| > 0
    ensures EndsWith(Join(sep, parts), parts[|parts| - 1])
  {
    if |parts| > 1 {
      JoinEndsWithLast(sep, parts[1..]);
      var j := Join(sep, parts[1..]);
      assert Join(sep, parts) == (parts[0] + sep) + j;
    }
  }

  /** Every part appears in the joined string. */
  lemma {:induction false} JoinContainsPart(sep: string, parts: seq<string>, k: nat)
    requires k < |parts|
    ensures Contains(Join(sep, parts), parts[k])
  {
    var j := Join(sep, parts);
    if k == 0 {
      JoinStartsWithFirst(sep, parts);
      assert OccursAt(j, parts[0], 0);
    } else {
      JoinContainsPart(sep, parts[1..], k - 1);
      var rest := Join(sep, parts[1..]);
      var i :| OccursAt(rest, parts[k], i);
      var off := |parts[0] + sep|;
      assert j == (parts[0] + sep) + rest;
      assert j[off + i..off + i + |parts[k]|] == rest[i..i + |parts[k]|];
      assert OccursAt(j, parts[k], off + i);
    }
  }

  /** Python's `s.split(c)` for a one-character separator: always at least one piece. */
  function Split(s: string, c: char): (r: seq<string>)
    ensures |r| >= 1
    ensures forall k :: 0 <= k < |r| ==> c !in r[k]
  {
    if |s| == 0 then [[]]
    else if s[0] == c then [[]] + Split(s[1..], c)
    else
      var rest := Split(s[1..], c);
      [[s[0]] + rest[0]] + rest[1..]
  }

  /** Joining the pieces of a split with the separator gives back the string. */
  lemma {:induction false} JoinSplit(s: string, c: char)
    ensures Join([c], Split(s, c)) == s
  {
    if |s| > 0 {
      JoinSplit(s[1..], c);
      if s[0] != c {
        var rest := Split(s[1..], c);
        if |rest| > 1 {
          assert Join([c], rest) == rest[0] + [c] + Join([c], rest[1..]);
        }
      }
    }
  }

  /** A string with no separator splits into itself. */
  lemma {:induction false} SplitNoSeparator(s: string, c: char)
    requires c !in s
    ensures Split(s, c) == [s]
  {
    if |s| > 0 {
      SplitNoSeparator(s[1..], c);
      assert [s[0]] + s[1..] == s;
    }
  }

  /** One step of `Split`, for a string given as its first character and the rest. */
  lemma SplitCons(x: char, s: string, c: char)
    ensures Split([x] + s, c) ==
      if x == c then [[]] + Split(s, c) else [[x] + Split(s, c)[0]] + Split(s, c)[1..]
  {
    assert ([x] + s)[0] == x && ([x] + s)[1..] == s;
  }

  /** Splitting distributes over a separator occurrence. */
  lemma {:induction false} SplitAround(a: string, c: char, b: string)
    ensures Split(a + [c] + b, c) == Split(a, c) + Split(b, c)
  {
    if |a| == 0 {
      assert a + [c] + b == [c] + b;
      SplitCons(c, b, c);
    } else {
      var t := a[1..];
      assert a == [a[0]] + t;
      assert a + [c] + b == [a[0]] + (t + [c] + b);
      SplitAround(t, c, b);
      SplitCons(a[0], t + [c] + b, c);
      SplitCons(a[0], t, c);
    }
  }

  /** The index just past the run of non-whitespace characters that starts at `i`. */
  function TokenEnd(s: string, i: nat): (k: nat)
    requires i <= |s|
    ensures i <= k <= |s|
    ensures forall j :: i <= j < k ==> !IsSpace(s[j])
    ensures k == |s| || IsSpace(s[k])
    decreases |s| - i
  {
    if i == |s| || IsSpace(s[i]) then i else TokenEnd(s, i + 1)
  }

  /** Python's `s.split()`: the maximal runs of non-whitespace characters. */
  function Words(s: string): (r: seq<string>)
    ensures forall k :: 0 <= k < |r| ==> |r[k]| > 0 && forall j :: 0 <= j < |r[k]| ==> !IsSpace(r[k][j])
    decreases |s|
  {
    if |s| == 0 then []
    else if IsSpace(s[0]) then Words(s[1..])
    else
      var k := TokenEnd(s, 0);
      [s[..k]] + Words(s[k..])
  }

  function DigitChar(d: nat): char
    requires d < 10
  {
    ('0' as int + d) as char
  }

  /** Decimal digits of a natural number, as Python's `str(n)`. */
  function NatToString(n: nat): (r: string)
    ensures |r| >= 1
    ensures forall j :: 0 <= j < |r| ==> '0' <= r[j] <= '9'
  {
    if n < 10 then [DigitChar(n)] else NatToString(n / 10) + [DigitChar(n % 10)]
  }

  function IntToString(i: int): string {
    if i < 0 then "-" + NatToString(-i) else NatToString(i)
  }

  /** Left-pad with `c` up to `width` characters, as `{n:02d}` and `%m` do with zeros. */
  function PadLeft(s: string, width: nat, c: char): (r: string)
    ensures |r| == if |s| >= width then |s| else width
    ensures EndsWith(r, s)
    ensures forall j :: 0 <= j < |r| - |s| ==> r[j] == c
  {
    if |s| >= width then s else seq(width - |s|, _ => c) + s
  }
}
