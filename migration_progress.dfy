// The migration watcher's progress line
// (proxmox/migration-watcher/watcher.py, parse_progress_line).
//
// The single pattern
//   transferred ([\d.]+) GiB of ([\d.]+) GiB \([\d.]+%\) in (\d+)m (\d+)s
// is searched for (leftmost match). Each `[\d.]+` or `\d+` group is followed
// by a character outside its class, so the greedy group is exactly the
// longest run at that point and the matcher below needs no backtracking.
// The two GiB groups go through `float()`, which rejects texts such as
// "1.2.3" or "." with a ValueError; that error is the `Err` result.

module MigrationProgress {
  import opened Wrappers
  import opened Text
  import RestoreProgress

  /** One accepted reading: (elapsed_seconds, transferred_gib, total_gib). */
  datatype Progress = Progress(elapsed: nat, transferred: real, total: real)

  /** The five groups of one match. */
  datatype Groups = Groups(transferred: string, total: string, percent: string, minutes: string, seconds: string)

  predicate IsNumChar(c: char) { IsDigit(c) || c == '.' }

  /** A text `[\d.]+` matches. */
  predicate NumRun(s: string) { |s| > 0 && forall i :: 0 <= i < |s| ==> IsNumChar(s[i]) }

  predicate ValidGroups(g: Groups)
  {
    NumRun(g.transferred) && NumRun(g.total) && NumRun(g.percent) && AllDigits(g.minutes) && AllDigits(g.seconds)
  }

  /** The text a match of `g` covers, followed by `post`. */
  function GroupsText(g: Groups, post: string): string
  {
    "transferred " + (g.transferred + (" GiB of " + (g.total + (" GiB (" + (g.percent + ("%) in "
      + (g.minutes + ("m " + (g.seconds + ("s" + post))))))))))
  }

  /* ---------------- the recogniser ---------------- */

  /** The literal `lit` at the start of `s`, and what follows it. */
  function Expect(s: string, lit: string): (r: Option<string>)
    ensures r.Some? ==> s == lit + r.value
  {
    if StartsWith(s, lit) then
      assert s == s[..|lit|] + s[|lit|..];
      Some(s[|lit|..])
    else None
  }

  function Leading(s: string, digitsOnly: bool): (n: nat)
    ensures n <= |s|
  {
    if s != [] && (if digitsOnly then IsDigit(s[0]) else IsNumChar(s[0])) then 1 + Leading(s[1..], digitsOnly) else 0
  }

  /** `[\d.]+` (or `\d+` when `digitsOnly`) at the start of `s`: the longest run and the rest. */
  function Run(s: string, digitsOnly: bool): Option<(string, string)>
  {
    var n := Leading(s, digitsOnly);
    if n == 0 then None else Some((s[..n], s[n..]))
  }

  predicate InRunClass(c: char, digitsOnly: bool)
  {
    if digitsOnly then IsDigit(c) else IsNumChar(c)
  }

  lemma {:induction false} LeadingOf(w: string, rest: string, digitsOnly: bool)
    requires forall i :: 0 <= i < |w| ==> InRunClass(w[i], digitsOnly)
    requires rest == [] || !InRunClass(rest[0], digitsOnly)
    ensures Leading(w + rest, digitsOnly) == |w|
  {
    if w == [] {
      assert w + rest == rest;
    } else {
      assert (w + rest)[1..] == w[1..] + rest;
      LeadingOf(w[1..], rest, digitsOnly);
    }
  }

  lemma {:induction false} LeadingSpec(s: string, digitsOnly: bool)
    ensures forall i :: 0 <= i < Leading(s, digitsOnly) ==> InRunClass(s[i], digitsOnly)
  {
    if s != [] && InRunClass(s[0], digitsOnly) {
      LeadingSpec(s[1..], digitsOnly);
    }
  }

  lemma RunOf(w: string, rest: string, digitsOnly: bool)
    requires w != [] && forall i :: 0 <= i < |w| ==> InRunClass(w[i], digitsOnly)
    requires rest == [] || !InRunClass(rest[0], digitsOnly)
    ensures Run(w + rest, digitsOnly) == Some((w, rest))
  {
    LeadingOf(w, rest, digitsOnly);
    assert (w + rest)[..|w|] == w;
    assert (w + rest)[|w|..] == rest;
  }

  lemma RunSound(s: string, digitsOnly: bool)
    requires Run(s, digitsOnly).Some?
    ensures var (w, rest) := Run(s, digitsOnly).value;
      s == w + rest && w != [] && (forall i :: 0 <= i < |w| ==> InRunClass(w[i], digitsOnly))
      && (rest == [] || !InRunClass(rest[0], digitsOnly))
  {
    LeadingSpec(s, digitsOnly);
    var n := Leading(s, digitsOnly);
    assert s == s[..n] + s[n..];
    if n < |s| {
      assert s[n..] == s[n..][..1] + s[n + 1..];
      LeadingStops(s, n, digitsOnly);
    }
  }

  lemma {:induction false} LeadingStops(s: string, n: nat, digitsOnly: bool)
    requires n == Leading(s, digitsOnly) && n < |s|
    ensures !InRunClass(s[n], digitsOnly)
  {
    if n > 0 {
      LeadingStops(s[1..], n - 1, digitsOnly);
    }
  }

  lemma ExpectOf(lit: string, rest: string)
    ensures Expect(lit + rest, lit) == Some(rest)
  {
    assert (lit + rest)[..|lit|] == lit;
    assert (lit + rest)[|lit|..] == rest;
  }

  /** The last three groups: `(\d+)m (\d+)s` after "%) in ". */
  function MatchTime(s: string): Option<(string, string, string)>
  {
    match Run(s, true)
    case None => None
    case Some((m, a)) =>
      match Expect(a, "m ")
      case None => None
      case Some(b) =>
        match Run(b, true)
        case None => None
        case Some((sec, c)) =>
          match Expect(c, "s")
          case None => None
          case Some(post) => Some((m, sec, post))
  }

  /** The pattern anchored at the start of `s`: the groups, and the text after the match. */
  function MatchAt(s: string): (r: Option<(Groups, string)>)
  {
    match Expect(s, "transferred ")
    case None => None
    case Some(a) =>
      match Run(a, false)
      case None => None
      case Some((x, b)) =>
        match Expect(b, " GiB of ")
        case None => None
        case Some(c) =>
          match Run(c, false)
          case None => None
          case Some((y, d)) =>
            match Expect(d, " GiB (")
            case None => None
            case Some(e) =>
              match Run(e, false)
              case None => None
              case Some((p, f)) =>
                match Expect(f, "%) in ")
                case None => None
                case Some(h) =>
                  match MatchTime(h)
                  case None => None
                  case Some((m, sec, post)) => Some((Groups(x, y, p, m, sec), post))
  }

  /** `re.search`: the match at the leftmost position where the pattern matches. */
  function Search(s: string): Option<Groups>
    decreases |s|
  {
    if MatchAt(s).Some? then Some(MatchAt(s).value.0)
    else if s == [] then None
    else Search(s[1..])
  }

  /* ---------------- float() ---------------- */

  /** `float(t)` for a `[\d.]+` text: at most one point and at least one digit. */
  function FloatOf(t: string): Option<real>
  {
    var parts := Split(t, '.');
    if |parts| > 2 then None
    else
      var whole := parts[0];
      var frac := if |parts| == 2 then parts[1] else [];
      if whole == [] && frac == [] then None
      else Some(DigitsValue(whole) as real + DigitsValue(frac) as real / RestoreProgress.Pow10(|frac|) as real)
  }

  /** The ValueError text for `t`. */
  function FloatError(t: string): string
  {
    "could not convert string to float: '" + t + "'"
  }

  /** The reading of one match: both GiB groups through float(), minutes and seconds through int(). */
  function ReadingOf(g: Groups): Result<Option<Progress>, string>
  {
    match FloatOf(g.transferred)
    case None => Err(FloatError(g.transferred))
    case Some(x) =>
      match FloatOf(g.total)
      case None => Err(FloatError(g.total))
      case Some(y) => Ok(Some(Progress(DigitsValue(g.minutes) * 60 + DigitsValue(g.seconds), x, y)))
  }

  /** `parse_progress_line`: Ok(None) without a match, Err when a GiB group is not a float. */
  function ParseProgressLine(line: string): Result<Option<Progress>, string>
  {
    match Search(line)
    case None => Ok(None)
    case Some(g) => ReadingOf(g)
  }

  /* ---------------- what a match is ---------------- */

  lemma MatchTimeSound(s: string)
    requires MatchTime(s).Some?
    ensures var (m, sec, post) := MatchTime(s).value;
      AllDigits(m) && AllDigits(sec) && s == m + ("m " + (sec + ("s" + post)))
  {
    RunSound(s, true);
    var (m, a) := Run(s, true).value;
    var b := Expect(a, "m ").value;
    RunSound(b, true);
  }

  /** Every match is the pattern's text with five well-formed groups, both minutes and seconds present. */
  lemma MatchAtSound(s: string)
    requires MatchAt(s).Some?
    ensures ValidGroups(MatchAt(s).value.0)
    ensures s == GroupsText(MatchAt(s).value.0, MatchAt(s).value.1)
  {
    var a := Expect(s, "transferred ").value;
    RunSound(a, false);
    var (x, b) := Run(a, false).value;
    var c := Expect(b, " GiB of ").value;
    RunSound(c, false);
    var (y, d) := Run(c, false).value;
    var e := Expect(d, " GiB (").value;
    RunSound(e, false);
    var (p, f) := Run(e, false).value;
    var h := Expect(f, "%) in ").value;
    MatchTimeSound(h);
  }

  lemma MatchTimeOf(m: string, sec: string, post: string)
    requires AllDigits(m) && AllDigits(sec)
    ensures MatchTime(m + ("m " + (sec + ("s" + post)))) == Some((m, sec, post))
  {
    RunOf(m, "m " + (sec + ("s" + post)), true);
    ExpectOf("m ", sec + ("s" + post));
    RunOf(sec, "s" + post, true);
    ExpectOf("s", post);
  }

  /** The pattern matches the text of any well-formed groups, and finds exactly those groups. */
  lemma MatchAtOf(g: Groups, post: string)
    requires ValidGroups(g)
    ensures MatchAt(GroupsText(g, post)) == Some((g, post))
  {
    var h := g.minutes + ("m " + (g.seconds + ("s" + post)));
    var f := "%) in " + h;
    var e := g.percent + f;
    var d := " GiB (" + e;
    var c := g.total + d;
    var b := " GiB of " + c;
    var a := g.transferred + b;
    ExpectOf("transferred ", a);
    RunOf(g.transferred, b, false);
    ExpectOf(" GiB of ", c);
    RunOf(g.total, d, false);
    ExpectOf(" GiB (", e);
    RunOf(g.percent, f, false);
    ExpectOf("%) in ", h);
    MatchTimeOf(g.minutes, g.seconds, post);
  }

  lemma MatchAtKeyword(s: string)
    ensures MatchAt(s).Some? ==> StartsWith(s, "transferred ")
  {
  }

  /** The search finds the groups of a match that starts the text. */
  lemma SearchAtMatch(g: Groups, post: string)
    requires ValidGroups(g)
    ensures Search(GroupsText(g, post)) == Some(g)
  {
    MatchAtOf(g, post);
  }

  /** Positions without a 't' cannot start a match, so a prefix free of 't' is skipped. */
  lemma {:induction false} SearchSkips(pre: string, s: string)
    requires forall i :: 0 <= i < |pre| ==> pre[i] != 't'
    ensures Search(pre + s) == Search(s)
    decreases |pre|
  {
    if pre == [] {
      assert pre + s == s;
    } else {
      var u := pre + s;
      assert u[0] == pre[0];
      MatchAtKeyword(u);
      assert u[1..] == pre[1..] + s;
      SearchSkips(pre[1..], s);
    }
  }

  lemma OccursLater(s: string, p: string, i: int)
    requires |s| > 0 && OccursAt(s[1..], p, i)
    ensures OccursAt(s, p, i + 1)
  {
    assert s[1..][i..i + |p|] == s[i + 1..i + 1 + |p|];
  }

  /** A line with no "transferred " in it yields no reading. */
  lemma {:induction false} SearchNeedsKeyword(s: string)
    requires Search(s).Some?
    ensures exists i :: OccursAt(s, "transferred ", i)
    decreases |s|
  {
    MatchAtKeyword(s);
    if MatchAt(s).Some? {
      assert OccursAt(s, "transferred ", 0);
    } else {
      SearchNeedsKeyword(s[1..]);
      var i :| OccursAt(s[1..], "transferred ", i);
      OccursLater(s, "transferred ", i);
    }
  }

  /* ---------------- float() on numbers as written ---------------- */

  /** A decimal number as a log writes it: digits, optionally a point and more digits. */
  function NumberText(whole: string, frac: string): string
  {
    if frac == [] then whole else whole + "." + frac
  }

  function NumberValue(whole: string, frac: string): real
  {
    DigitsValue(whole) as real + DigitsValue(frac) as real / RestoreProgress.Pow10(|frac|) as real
  }

  lemma NumberTextRun(whole: string, frac: string)
    requires AllDigits(whole) && (frac == [] || AllDigits(frac))
    ensures NumRun(NumberText(whole, frac))
  {
  }

  /** float() reads a written decimal number back as its value. */
  lemma FloatOfNumber(whole: string, frac: string)
    requires AllDigits(whole) && (frac == [] || AllDigits(frac))
    ensures FloatOf(NumberText(whole, frac)) == Some(NumberValue(whole, frac))
  {
    if frac == [] {
      SplitNoSeparator(whole, '.');
    } else {
      SplitAtFirst(whole, frac, '.');
      SplitNoSeparator(frac, '.');
    }
  }

  /** A text with two points is refused by float(). */
  lemma FloatRefusesTwoPoints(a: string, b: string, c: string)
    requires forall i :: 0 <= i < |a| ==> a[i] != '.'
    requires forall i :: 0 <= i < |b| ==> b[i] != '.'
    ensures FloatOf(a + "." + b + "." + c).None?
  {
    SplitAtFirst(a, b + "." + c, '.');
    SplitAtFirst(b, c, '.');
    assert a + "." + b + "." + c == a + ['.'] + (b + ['.'] + c);
  }

  /** After any prefix free of 't', a well-formed match is found and read. */
  lemma {:induction false} ProgressLineReadsBack(pre: string, g: Groups, post: string)
    requires forall i :: 0 <= i < |pre| ==> pre[i] != 't'
    requires ValidGroups(g)
    ensures ParseProgressLine(pre + GroupsText(g, post)) == ReadingOf(g)
  {
    SearchAtMatch(g, post);
    SearchSkips(pre, GroupsText(g, post));
  }

  /** Numbers as the migration task writes them read back as (60·minutes + seconds, transferred, total). */
  lemma ReadingOfNumbers(g: Groups, xw: string, xf: string, yw: string, yf: string)
    requires AllDigits(xw) && (xf == [] || AllDigits(xf))
    requires AllDigits(yw) && (yf == [] || AllDigits(yf))
    requires g.transferred == NumberText(xw, xf) && g.total == NumberText(yw, yf)
    ensures ReadingOf(g) == Ok(Some(Progress(60 * DigitsValue(g.minutes) + DigitsValue(g.seconds), NumberValue(xw, xf), NumberValue(yw, yf))))
  {
    FloatOfNumber(xw, xf);
    FloatOfNumber(yw, yf);
  }

  /** A transferred amount with two points makes the parser raise ValueError. */
  lemma TwoPointsRaise(pre: string, a: string, b: string, c: string, g: Groups, post: string)
    requires forall i :: 0 <= i < |pre| ==> pre[i] != 't'
    requires forall i :: 0 <= i < |a| ==> a[i] != '.'
    requires forall i :: 0 <= i < |b| ==> b[i] != '.'
    requires g.transferred == a + "." + b + "." + c && ValidGroups(g)
    ensures ParseProgressLine(pre + GroupsText(g, post)) == Err(FloatError(g.transferred))
  {
    ProgressLineReadsBack(pre, g, post);
    FloatRefusesTwoPoints(a, b, c);
  }
}
