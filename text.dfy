/**
 * Character and string helpers standing for the Python `str` methods the
 * scripts use. Characters are Unicode code points; `lower()`/`upper()` are
 * modelled on ASCII letters only and whitespace is the set of ASCII characters
 * Python counts as whitespace (including the separators 0x1C-0x1F).
 */
module Text {
  import opened Wrappers

  predicate IsSpace(c: char) {
    c == ' ' || c == '\t' || c == '\n' || c == '\r' || c == 11 as char || c == 12 as char
    || 28 as char <= c <= 31 as char
  }

  predicate IsDigit(c: char) { '0' <= c <= '9' }

  predicate IsHexDigit(c: char) { IsDigit(c) || 'a' <= c <= 'f' || 'A' <= c <= 'F' }

  function Lower(c: char): (r: char)
    ensures 'A' <= c <= 'Z' ==> r as int == c as int + 32
    ensures !('A' <= c <= 'Z') ==> r == c
  {
    if 'A' <= c <= 'Z' then (c as int + 32) as char else c
  }

  function Upper(c: char): (r: char)
    ensures 'a' <= c <= 'z' ==> r as int == c as int - 32
    ensures !('a' <= c <= 'z') ==> r == c
  {
    if 'a' <= c <= 'z' then (c as int - 32) as char else c
  }

  /** Every character of `s` in lower case. */
  function LowerStr(s: string): (r: string)
    ensures |r| == |s|
    ensures forall i :: 0 <= i < |s| ==> r[i] == Lower(s[i])
  {
    seq(|s|, i requires 0 <= i < |s| => Lower(s[i]))
  }

  predicate StartsWith(s: string, p: string) { |p| <= |s| && s[..|p|] == p }

  predicate EndsWith(s: string, p: string) { |p| <= |s| && s[|s| - |p|..] == p }

  lemma StartsWithTrans(s: string, t: string, p: string)
    requires StartsWith(s, t) && StartsWith(t, p)
    ensures StartsWith(s, p)
  {
    assert s[..|t|][..|p|] == s[..|p|];
  }

  lemma EndsWithTrans(s: string, t: string, p: string)
    requires EndsWith(s, t) && EndsWith(t, p)
    ensures EndsWith(s, p)
  {
    assert s[|s| - |t|..][|t| - |p|..] == s[|s| - |p|..];
  }

  /** A concatenation starts with its first part and ends with its second. */
  lemma AppendEnds(a: string, b: string)
    ensures StartsWith(a + b, a) && EndsWith(a + b, b)
  {
    assert (a + b)[..|a|] == a;
    assert (a + b)[|a + b| - |b|..] == b;
  }

  /** `p in s` for strings: `p` occurs at some position of `s`. */
  ghost predicate Contains(s: string, p: string) {
    exists i :: OccursAt(s, p, i)
  }

  predicate OccursAt(s: string, p: string, i: int) {
    0 <= i <= |s| - |p| && s[i..i + |p|] == p
  }

  /** Left-to-right scan deciding `Contains`, as the substring test does. */
  function ContainsFrom(s: string, p: string, i: nat): (b: bool)
    requires i <= |s|
    ensures b <==> exists k :: i <= k && OccursAt(s, p, k)
    decreases |s| - i
  {
    if i + |p| > |s| then false
    else if s[i..i + |p|] == p then assert OccursAt(s, p, i); true
    else ContainsFrom(s, p, i + 1)
  }

  function ContainsAny(s: string, markers: seq<string>): (b: bool)
    ensures b <==> exists m :: m in markers && Contains(s, m)
  {
    if markers == [] then false
    else
      assert forall m :: m in markers <==> m == markers[0] || m in markers[1..];
      assert ContainsFrom(s, markers[0], 0) <==> Contains(s, markers[0]);
      ContainsFrom(s, markers[0], 0) || ContainsAny(s, markers[1..])
  }

  /** Splitting on a character: the fields between the occurrences of `c`. */
  function Split(s: string, c: char): (r: seq<string>)
    ensures |r| >= 1
    ensures forall k, j :: 0 <= k < |r| && 0 <= j < |r[k]| ==> r[k][j] != c
    decreases |s|
  {
    if |s| == 0 then [""]
    else
      var rest := Split(s[1..], c);
      if s[0] == c then [""] + rest
      else [[s[0]] + rest[0]] + rest[1..]
  }

  /** The parts with `c` between each two of them. */
  function Join(parts: seq<string>, c: char): (r: string)
    requires |parts| >= 1
  {
    if |parts| == 1 then parts[0] else parts[0] + [c] + Join(parts[1..], c)
  }

  /** A join starts with its first part and ends with its last. */
  lemma {:induction false} JoinEnds(parts: seq<string>, c: char)
    requires |parts| >= 1
    ensures StartsWith(Join(parts, c), parts[0]) && EndsWith(Join(parts, c), parts[|parts| - 1])
    decreases |parts|
  {
    if |parts| > 1 {
      JoinEnds(parts[1..], c);
      var head := parts[0] + [c];
      var tail := Join(parts[1..], c);
      assert Join(parts, c) == head + tail;
      assert Join(parts, c)[..|parts[0]|] == parts[0];
      AppendEnds(head, tail);
      EndsWithTrans(head + tail, tail, parts[|parts| - 1]);
    }
  }

  /** The parts with a separator of any length between each two, "" for no parts. */
  function JoinWith(parts: seq<string>, sep: string): (r: string)
  {
    if parts == [] then "" else if |parts| == 1 then parts[0] else parts[0] + sep + JoinWith(parts[1..], sep)
  }

  /** `c` occurs nowhere in `w`. */
  predicate Lacks(w: string, c: char)
  {
    forall j :: 0 <= j < |w| ==> w[j] != c
  }

  lemma LacksAppend(a: string, b: string, c: char)
    requires Lacks(a, c) && Lacks(b, c)
    ensures Lacks(a + b, c)
  {
  }

  /**
   * A join of parts that lack `c` with a separator that lacks it lacks it
   * too, and ends with the last part.
   */
  lemma {:induction false} JoinWithLacks(parts: seq<string>, sep: string, c: char)
    requires Lacks(sep, c) && forall k :: 0 <= k < |parts| ==> Lacks(parts[k], c)
    ensures Lacks(JoinWith(parts, sep), c)
    ensures parts != [] ==> EndsWith(JoinWith(parts, sep), parts[|parts| - 1])
    decreases |parts|
  {
    if |parts| > 1 {
      JoinWithLacks(parts[1..], sep, c);
      var tail := JoinWith(parts[1..], sep);
      AppendEnds(parts[0] + sep, tail);
      EndsWithTrans(JoinWith(parts, sep), tail, parts[|parts| - 1]);
    }
  }

  /** Splitting and joining again gives the string back. */
  lemma {:induction false} JoinSplit(s: string, c: char)
    ensures Join(Split(s, c), c) == s
    decreases |s|
  {
    if |s| > 0 {
      JoinSplit(s[1..], c);
      var rest := Split(s[1..], c);
      if s[0] != c {
        if |rest| == 1 {
          assert Split(s, c) == [[s[0]] + rest[0]];
        } else {
          assert Split(s, c)[1..] == rest[1..];
          assert Join(rest, c) == rest[0] + [c] + Join(rest[1..], c);
        }
      }
    }
  }

  /** Joining fields that do not contain the separator and splitting again gives the fields back. */
  lemma {:induction false} SplitJoin(parts: seq<string>, c: char)
    requires |parts| >= 1
    requires forall k, j :: 0 <= k < |parts| && 0 <= j < |parts[k]| ==> parts[k][j] != c
    ensures Split(Join(parts, c), c) == parts
    decreases |parts|
  {
    if |parts| == 1 {
      SplitNoSeparator(parts[0], c);
    } else {
      SplitJoin(parts[1..], c);
      SplitAtFirst(parts[0], Join(parts[1..], c), c);
      assert [parts[0]] + parts[1..] == parts;
    }
  }

  lemma {:induction false} SplitNoSeparator(w: string, c: char)
    requires forall j :: 0 <= j < |w| ==> w[j] != c
    ensures Split(w, c) == [w]
    decreases |w|
  {
    if |w| > 0 {
      SplitNoSeparator(w[1..], c);
      assert [w[0]] + w[1..] == w;
    }
  }

  lemma {:induction false} SplitAtFirst(w: string, t: string, c: char)
    requires forall j :: 0 <= j < |w| ==> w[j] != c
    ensures Split(w + [c] + t, c) == [w] + Split(t, c)
    decreases |w|
  {
    if |w| == 0 {
      assert w + [c] + t == [c] + t;
      assert ([c] + t)[1..] == t;
    } else {
      SplitAtFirst(w[1..], t, c);
      assert (w + [c] + t)[1..] == w[1..] + [c] + t;
      assert [w[0]] + w[1..] == w;
    }
  }

  /** The number of occurrences of `c` in `s`. */
  function Count(s: string, c: char): (n: nat)
    ensures n <= |s|
  {
    if |s| == 0 then 0 else (if s[0] == c then 1 else 0) + Count(s[1..], c)
  }

  lemma {:induction false} CountAppend(a: string, b: string, c: char)
    ensures Count(a + b, c) == Count(a, c) + Count(b, c)
    decreases |a|
  {
    if |a| > 0 {
      assert (a + b)[1..] == a[1..] + b;
      CountAppend(a[1..], b, c);
    } else {
      assert a + b == b;
    }
  }

  lemma {:induction false} CountLacks(w: string, c: char)
    requires Lacks(w, c)
    ensures Count(w, c) == 0
    decreases |w|
  {
    if |w| > 0 { CountLacks(w[1..], c); }
  }

  lemma {:induction false} SplitLength(s: string, c: char)
    ensures |Split(s, c)| == Count(s, c) + 1
    decreases |s|
  {
    if |s| > 0 { SplitLength(s[1..], c); }
  }

  /** `s` without its leading whitespace. */
  function TrimLeft(s: string): (r: string)
    ensures |r| <= |s|
  {
    if |s| > 0 && IsSpace(s[0]) then TrimLeft(s[1..]) else s
  }

  /** lstrip removes exactly the leading whitespace. */
  lemma {:induction false} TrimLeftSpec(s: string)
    ensures TrimLeft(s) == s[|s| - |TrimLeft(s)|..]
    ensures TrimLeft(s) == [] || !IsSpace(TrimLeft(s)[0])
    ensures forall i :: 0 <= i < |s| - |TrimLeft(s)| ==> IsSpace(s[i])
    decreases |s|
  {
    if |s| > 0 && IsSpace(s[0]) {
      TrimLeftSpec(s[1..]);
    }
  }

  /** `s` without its trailing whitespace. */
  function TrimRight(s: string): (r: string)
    ensures |r| <= |s|
  {
    if |s| > 0 && IsSpace(s[|s| - 1]) then TrimRight(s[..|s| - 1]) else s
  }

  /** rstrip removes exactly the trailing whitespace. */
  lemma {:induction false} TrimRightSpec(s: string)
    ensures TrimRight(s) == s[..|TrimRight(s)|]
    ensures TrimRight(s) == [] || !IsSpace(TrimRight(s)[|TrimRight(s)| - 1])
    ensures forall i :: |TrimRight(s)| <= i < |s| ==> IsSpace(s[i])
    decreases |s|
  {
    if |s| > 0 && IsSpace(s[|s| - 1]) {
      TrimRightSpec(s[..|s| - 1]);
      assert s[..|s| - 1][..|TrimRight(s)|] == s[..|TrimRight(s)|];
    }
  }

  /** `s` without leading and trailing whitespace. */
  function Strip(s: string): (r: string)
    ensures |r| <= |s|
  {
    TrimRight(TrimLeft(s))
  }

  /** strip gives "" exactly for all-whitespace text. */
  lemma StripEmpty(s: string)
    ensures Strip(s) == [] <==> forall i :: 0 <= i < |s| ==> IsSpace(s[i])
  {
    TrimLeftSpec(s);
    var t := TrimLeft(s);
    TrimRightSpec(t);
    if t != [] {
      assert s[|s| - |t|] == t[0];
    }
  }

  /** `s` without the copies of `c` at its end. */
  function RStripChar(s: string, c: char): (r: string)
    ensures |r| <= |s|
  {
    if |s| > 0 && s[|s| - 1] == c then RStripChar(s[..|s| - 1], c) else s
  }

  /** The longest prefix of `s` without whitespace. */
  function TakeWord(s: string): (r: string)
    ensures |r| <= |s|
  {
    if |s| > 0 && !IsSpace(s[0]) then [s[0]] + TakeWord(s[1..]) else []
  }

  /** The word taken is a whitespace-free prefix ending at whitespace or at the end. */
  lemma {:induction false} TakeWordSpec(s: string)
    ensures TakeWord(s) == s[..|TakeWord(s)|]
    ensures forall i :: 0 <= i < |TakeWord(s)| ==> !IsSpace(TakeWord(s)[i])
    ensures |TakeWord(s)| == |s| || IsSpace(s[|TakeWord(s)|])
    decreases |s|
  {
    if |s| > 0 && !IsSpace(s[0]) {
      TakeWordSpec(s[1..]);
    }
  }

  /** The first whitespace-separated word of `s`, or None when it has none (an IndexError in Python). */
  function FirstToken(s: string): (r: Option<string>)
  {
    var t := TrimLeft(s);
    if t == [] then None else Some(TakeWord(t))
  }

  /** split()[0] exists unless the text is all whitespace, and is a word of it. */
  lemma FirstTokenSpec(s: string)
    ensures FirstToken(s).None? <==> forall i :: 0 <= i < |s| ==> IsSpace(s[i])
    ensures FirstToken(s).Some? ==>
      var w := FirstToken(s).value;
      |w| > 0 && Contains(s, w) && forall i :: 0 <= i < |w| ==> !IsSpace(w[i])
  {
    TrimLeftSpec(s);
    var t := TrimLeft(s);
    if t != [] {
      assert s[|s| - |t|] == t[0];
      TakeWordSpec(t);
      var w := TakeWord(t);
      assert w[0] == t[0];
      assert OccursAt(s, w, |s| - |t|);
    }
  }

  /** A text of ASCII digits: non-empty and every character a digit. */
  predicate AllDigits(s: string) { |s| > 0 && forall i :: 0 <= i < |s| ==> IsDigit(s[i]) }

  /** The number a string of decimal digits stands for (a character that is not a digit counts as 0). */
  function DigitsValue(s: string): (n: nat)
  {
    if |s| == 0 then 0 else 10 * DigitsValue(s[..|s| - 1]) + DigitValue(s[|s| - 1])
  }

  function DigitValue(c: char): (d: nat)
    ensures d < 10
  {
    if IsDigit(c) then c as int - '0' as int else 0
  }

  /** The decimal text of a natural number. */
  function NatToString(n: nat): (r: string)
    ensures AllDigits(r)
    decreases n
  {
    if n < 10 then [('0' as int + n) as char]
    else NatToString(n / 10) + [('0' as int + n % 10) as char]
  }

  /** Reading back the decimal text of `n` gives `n`. */
  lemma {:induction false} DigitsValueOfNatToString(n: nat)
    ensures DigitsValue(NatToString(n)) == n
    decreases n
  {
    if n >= 10 {
      DigitsValueOfNatToString(n / 10);
      var s := NatToString(n);
      assert s[..|s| - 1] == NatToString(n / 10);
    }
  }

  /** Distinct numbers have distinct decimal texts. */
  lemma NatToStringInjective(a: nat, b: nat)
    ensures NatToString(a) == NatToString(b) ==> a == b
  {
    DigitsValueOfNatToString(a);
    DigitsValueOfNatToString(b);
  }
}
