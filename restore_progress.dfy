/**
 * Parsing of restore progress lines (`parse_progress_line` and the helpers
 * `_parse_elapsed_seconds`, `_to_gib` and `_bytes_to_gib` of
 * restore_watcher.py).
 *
 * Each of the three case-insensitive regular expressions is written as a
 * sequence of tokens, optionally followed by a lazy `.*?` and a second token
 * sequence. Every token is greedy and is always followed by something that
 * cannot extend it (a number is followed by whitespace or `%`, whitespace by
 * a non-blank token), so matching token by token without backtracking gives
 * the same match as the regular-expression engine; only the lazy `.*?` needs
 * a search, which `LazySearch` performs from left to right. `Search` tries
 * the start positions from left to right, as `re.search` does.
 */
module RestoreProgress {
  import opened Wrappers
  import opened Text

  /** One progress sample: elapsed seconds, transferred GiB (or percent), total GiB. */
  datatype Point = Point(elapsed: int, value: real, total: Option<real>)

  /** A captured group. A decimal `w.f` is kept as its digits' values and the number of fraction digits. */
  datatype Capture =
    | NumCap(whole: nat, frac: nat, scale: nat)
    | IntCap(n: nat)
    | UnitCap(mib: bool)

  datatype Token =
    | Lit(text: string)  // a literal, matched ignoring case
    | Space              // `\s`
    | Spaces             // `\s+`
    | Number             // `\d+(?:\.\d+)?`
    | Integer            // `\d+`
    | Unit               // `(GiB|MiB)`
    | Elapsed            // `(?:\d+m\s+)?\d+s`, captured as the seconds it stands for

  /** A sequence of tokens, kept as a list so that matching walks it structurally. */
  datatype Tokens = End | Then(token: Token, next: Tokens)

  /** `head`, then (when present) `.*?` followed by `lazyTail`. */
  datatype Regex = Regex(head: Tokens, lazyTail: Option<Tokens>)

  /** The captures of a match and the text left after it. */
  datatype Match = Match(caps: seq<Capture>, rest: string)

  /** `of <y> <unit>`, the end of the size pattern's head. */
  const OfSize := Then(Lit("of"), Then(Spaces, Then(Number, Then(Spaces, Then(Unit, End)))))

  /** The size pattern: "transferred", a size and its unit, "of", the total and its unit, then lazily the elapsed time after " in". */
  const SizeWithTotal := Regex(
    Then(Lit("transferred"), Then(Spaces, Then(Number, Then(Spaces, Then(Unit, Then(Spaces, OfSize)))))),
    Some(Then(Space, Then(Lit("in"), Then(Spaces, Then(Elapsed, End))))))

  /** `(read <bytes> bytes,`, the end of the progress pattern's head. */
  const ReadBytes := Then(Lit("(read"), Then(Spaces, Then(Integer, Then(Spaces, Then(Lit("bytes,"), End)))))

  /** `duration <seconds> sec)`, the lazily searched end of the progress pattern. */
  const DurationTail := Then(Lit("duration"), Then(Spaces, Then(Integer, Then(Spaces, Then(Lit("sec)"), End)))))

  /** The progress pattern: "progress", a percentage, then the bytes read and, lazily, the duration in seconds in parentheses. */
  const BytesProgress := Regex(
    Then(Lit("progress"), Then(Spaces, Then(Number, Then(Lit("%"), Then(Spaces, ReadBytes))))),
    Some(DurationTail))

  /** `in <elapsed>`, the end of the percentage pattern. */
  const InThenElapsed := Then(Lit("in"), Then(Spaces, Then(Elapsed, End)))

  /** The percentage pattern: "transferred", a percentage, "in" and the elapsed time. */
  const PercentOnly := Regex(
    Then(Lit("transferred"), Then(Spaces, Then(Number, Then(Lit("%"), Then(Spaces, InThenElapsed))))),
    None)

  /* ---------------- lexical helpers ---------------- */

  function LeadingDigits(s: string): (n: nat)
    ensures n <= |s|
  {
    if s != [] && IsDigit(s[0]) then 1 + LeadingDigits(s[1..]) else 0
  }

  lemma {:induction false} LeadingDigitsSpec(s: string)
    ensures forall k :: 0 <= k < LeadingDigits(s) ==> IsDigit(s[k])
  {
    if s != [] && IsDigit(s[0]) {
      LeadingDigitsSpec(s[1..]);
    }
  }

  lemma {:induction false} LeadingDigitsOf(w: string, rest: string)
    requires forall k :: 0 <= k < |w| ==> IsDigit(w[k])
    requires rest == [] || !IsDigit(rest[0])
    ensures LeadingDigits(w + rest) == |w|
  {
    if w == [] {
      assert w + rest == rest;
    } else {
      assert (w + rest)[1..] == w[1..] + rest;
      LeadingDigitsOf(w[1..], rest);
    }
  }

  function LeadingSpaces(s: string): (n: nat)
    ensures n <= |s|
  {
    if s != [] && IsSpace(s[0]) then 1 + LeadingSpaces(s[1..]) else 0
  }

  /** `\d+` at the start of `s`: the digits and the text after them. */
  function DigitsPrefix(s: string): Option<(string, string)>
  {
    var n := LeadingDigits(s);
    if n == 0 then None else Some((s[..n], s[n..]))
  }

  lemma DigitsPrefixOf(w: string, rest: string)
    requires AllDigits(w)
    requires rest == [] || !IsDigit(rest[0])
    ensures DigitsPrefix(w + rest) == Some((w, rest))
  {
    LeadingDigitsOf(w, rest);
    assert (w + rest)[..|w|] == w;
    assert (w + rest)[|w|..] == rest;
  }

  /** The text starts with the literal `lit`, ignoring case. */
  predicate LitPrefix(s: string, lit: string)
    decreases |lit|
  {
    |lit| == 0 || (s != [] && Lower(s[0]) == Lower(lit[0]) && LitPrefix(s[1..], lit[1..]))
  }

  lemma {:induction false} LitPrefixLength(s: string, lit: string)
    requires LitPrefix(s, lit)
    ensures |lit| <= |s|
    decreases |lit|
  {
    if |lit| > 0 {
      LitPrefixLength(s[1..], lit[1..]);
    }
  }

  lemma {:induction false} LitPrefixOf(lit: string, rest: string)
    ensures LitPrefix(lit + rest, lit)
    decreases |lit|
  {
    if |lit| > 0 {
      assert (lit + rest)[1..] == lit[1..] + rest;
      LitPrefixOf(lit[1..], rest);
    }
  }

  function Pow10(n: nat): (r: nat)
    ensures r >= 1
  {
    if n == 0 then 1 else 10 * Pow10(n - 1)
  }

  /** The value of a decimal capture, as `float()` reads it (exactly, without rounding). */
  function NumValue(c: Capture): (v: real)
    requires c.NumCap?
    ensures v >= c.whole as real
  {
    c.whole as real + c.frac as real / Pow10(c.scale) as real
  }

  /** `\d+(?:\.\d+)?` at the start of `s`. */
  function NumberPrefix(s: string): Option<(Capture, string)>
  {
    match DigitsPrefix(s)
    case None => None
    case Some((w, r)) =>
      if r != [] && r[0] == '.' && DigitsPrefix(r[1..]).Some? then
        var (f, r2) := DigitsPrefix(r[1..]).value;
        Some((NumCap(DigitsValue(w), DigitsValue(f), |f|), r2))
      else
        Some((NumCap(DigitsValue(w), 0, 0), r))
  }

  /**
   * `_parse_elapsed_seconds` on matched text: it searches `\d+m` and `\d+s`
   * case-sensitively, so a mark written `M` or `S` contributes nothing even
   * though the surrounding pattern accepted it. `minutes` is empty when the
   * text has no minutes part.
   */
  function ElapsedSeconds(minutes: string, minuteMark: char, seconds: string, secondMark: char): nat
  {
    (if minutes != [] && minuteMark == 'm' then DigitsValue(minutes) else 0) * 60
    + (if secondMark == 's' then DigitsValue(seconds) else 0)
  }

  /** `(?:\d+m\s+)?\d+s` at the start of `s`, trying the optional minutes part first. */
  function ElapsedPrefix(s: string): Option<(nat, string)>
  {
    match DigitsPrefix(s)
    case None => None
    case Some((d1, r1)) =>
      var withMinutes :=
        if r1 != [] && Lower(r1[0]) == 'm' && LeadingSpaces(r1[1..]) > 0 then
          var r2 := r1[1..][LeadingSpaces(r1[1..])..];
          match DigitsPrefix(r2)
          case None => None
          case Some((d2, r3)) =>
            if r3 != [] && Lower(r3[0]) == 's' then Some((ElapsedSeconds(d1, r1[0], d2, r3[0]), r3[1..]))
            else None
        else None;
      if withMinutes.Some? then withMinutes
      else if r1 != [] && Lower(r1[0]) == 's' then Some((ElapsedSeconds([], 'm', d1, r1[0]), r1[1..]))
      else None
  }

  /* ---------------- matching ---------------- */

  function StepToken(t: Token, s: string): Option<Match>
  {
    match t
    case Lit(text) =>
      if |text| <= |s| && LitPrefix(s, text) then Some(Match([], s[|text|..])) else None
    case Space =>
      if s != [] && IsSpace(s[0]) then Some(Match([], s[1..])) else None
    case Spaces =>
      var n := LeadingSpaces(s);
      if n == 0 then None else Some(Match([], s[n..]))
    case Number =>
      (match NumberPrefix(s)
       case None => None
       case Some((c, r)) => Some(Match([c], r)))
    case Integer =>
      (match DigitsPrefix(s)
       case None => None
       case Some((d, r)) => Some(Match([IntCap(DigitsValue(d))], r)))
    case Unit =>
      if |s| >= 3 && (Lower(s[0]) == 'g' || Lower(s[0]) == 'm') && Lower(s[1]) == 'i' && Lower(s[2]) == 'b'
      then Some(Match([UnitCap(Lower(s[0]) == 'm')], s[3..]))
      else None
    case Elapsed =>
      match ElapsedPrefix(s)
      case None => None
      case Some((secs, r)) => Some(Match([IntCap(secs)], r))
  }

  function MatchTokens(ts: Tokens, s: string): Option<Match>
  {
    match ts
    case End => Some(Match([], s))
    case Then(t, next) =>
      match StepToken(t, s)
      case None => None
      case Some(a) =>
        match MatchTokens(next, a.rest)
        case None => None
        case Some(b) => Some(Match(a.caps + b.caps, b.rest))
  }

  /** `.*?` followed by `tail`: the shortest skip, never across a newline, after which `tail` matches. */
  function LazySearch(tail: Tokens, s: string): Option<Match>
  {
    var m := MatchTokens(tail, s);
    if m.Some? then m
    else if s != [] && s[0] != '\n' then LazySearch(tail, s[1..])
    else None
  }

  /** The regular expression matched at the start of `s`. */
  function MatchRegex(re: Regex, s: string): Option<Match>
  {
    match MatchTokens(re.head, s)
    case None => None
    case Some(a) =>
      if re.lazyTail.None? then Some(a)
      else
        match LazySearch(re.lazyTail.value, a.rest)
        case None => None
        case Some(b) => Some(Match(a.caps + b.caps, b.rest))
  }

  /** `re.search`: the match at the leftmost start position that has one. */
  function Search(re: Regex, s: string): Option<Match>
  {
    var m := MatchRegex(re, s);
    if m.Some? then m
    else if s == [] then None
    else Search(re, s[1..])
  }

  /* ---------------- the values returned ---------------- */

  /** `_to_gib` */
  function ToGib(value: real, mib: bool): (g: real)
    ensures mib ==> g * 1024.0 == value
    ensures !mib ==> g == value
  {
    if mib then value / 1024.0 else value
  }

  /** `_bytes_to_gib` */
  function BytesToGib(n: nat): (g: real)
    ensures g * 1073741824.0 == n as real
  {
    n as real / 1073741824.0
  }

  function SizePoint(caps: seq<Capture>): (r: Option<Point>)
    ensures r.Some? ==> NonNegative(r.value)
  {
    if |caps| == 5 && caps[0].NumCap? && caps[1].UnitCap? && caps[2].NumCap? && caps[3].UnitCap? && caps[4].IntCap?
    then Some(Point(caps[4].n, ToGib(NumValue(caps[0]), caps[1].mib), Some(ToGib(NumValue(caps[2]), caps[3].mib))))
    else None
  }

  /**
   * The qmrestore branch: the duration, the bytes read in GiB, and the total
   * of which those bytes are the given percentage, or no total when the
   * percentage is not positive.
   */
  function BytesPoint(caps: seq<Capture>): (r: Option<Point>)
    ensures r.Some? <==> |caps| == 3 && caps[0].NumCap? && caps[1].IntCap? && caps[2].IntCap?
    ensures r.Some? ==> r.value.elapsed == caps[2].n && r.value.value == BytesToGib(caps[1].n)
    ensures r.Some? ==> (r.value.total.None? <==> NumValue(caps[0]) <= 0.0)
    ensures r.Some? && r.value.total.Some? ==> r.value.total.value * NumValue(caps[0]) == r.value.value * 100.0
    ensures r.Some? ==> NonNegative(r.value)
  {
    if |caps| == 3 && caps[0].NumCap? && caps[1].IntCap? && caps[2].IntCap? then
      var percent := NumValue(caps[0]);
      var gib := BytesToGib(caps[1].n);
      if percent <= 0.0 then Some(Point(caps[2].n, gib, None))
      else Some(Point(caps[2].n, gib, Some(TotalOf(gib, percent))))
    else None
  }

  /** The total of which `part` is `percent` percent. */
  function TotalOf(part: real, percent: real): (t: real)
    requires percent > 0.0
    ensures t * percent == part * 100.0
  {
    part * 100.0 / percent
  }

  /** The percent-only branch: the elapsed seconds and the percentage, with no total. */
  function PercentPoint(caps: seq<Capture>): (r: Option<Point>)
    ensures r.Some? <==> |caps| == 2 && caps[0].NumCap? && caps[1].IntCap?
    ensures r.Some? ==> r.value.elapsed == caps[1].n && r.value.value == NumValue(caps[0]) && r.value.total.None?
    ensures r.Some? ==> NonNegative(r.value)
  {
    if |caps| == 2 && caps[0].NumCap? && caps[1].IntCap?
    then Some(Point(caps[1].n, NumValue(caps[0]), None))
    else None
  }

  predicate NonNegative(p: Point)
  {
    p.elapsed >= 0 && p.value >= 0.0 && (p.total.Some? ==> p.total.value >= 0.0)
  }

  /** `parse_progress_line`: the first pattern that matches anywhere in the line decides. */
  function ParseProgressLine(line: string): (r: Option<Point>)
    ensures r.Some? ==> NonNegative(r.value)
  {
    var a := Search(SizeWithTotal, line);
    if a.Some? then SizePoint(a.value.caps)
    else
      var b := Search(BytesProgress, line);
      if b.Some? then BytesPoint(b.value.caps)
      else
        var c := Search(PercentOnly, line);
        if c.Some? then PercentPoint(c.value.caps)
        else None
  }

  /* ---------------- every match yields a point ---------------- */

  /** The kind of value a capture holds: 0 a decimal, 1 an integer, 2 a unit. */
  function CapKind(c: Capture): nat
  {
    match c
    case NumCap(_, _, _) => 0
    case IntCap(_) => 1
    case UnitCap(_) => 2
  }

  function CapKinds(caps: seq<Capture>): (r: seq<nat>)
    ensures |r| == |caps|
    ensures forall k :: 0 <= k < |caps| ==> r[k] == CapKind(caps[k])
  {
    seq(|caps|, k requires 0 <= k < |caps| => CapKind(caps[k]))
  }

  /** The kinds of the groups one token captures. */
  function TokenKind(t: Token): seq<nat>
  {
    match t
    case Number => [0]
    case Integer => [1]
    case Elapsed => [1]
    case Unit => [2]
    case _ => []
  }

  /** The kinds of the groups a token sequence captures, in order. */
  function TokenKinds(ts: Tokens): seq<nat>
  {
    match ts
    case End => []
    case Then(t, next) => TokenKind(t) + TokenKinds(next)
  }

  function RegexKinds(re: Regex): seq<nat>
  {
    TokenKinds(re.head) + (if re.lazyTail.Some? then TokenKinds(re.lazyTail.value) else [])
  }

  lemma CapKindsAppend(a: seq<Capture>, b: seq<Capture>)
    ensures CapKinds(a + b) == CapKinds(a) + CapKinds(b)
  {
  }

  lemma {:induction false} MatchTokensKinds(ts: Tokens, s: string)
    requires MatchTokens(ts, s).Some?
    ensures CapKinds(MatchTokens(ts, s).value.caps) == TokenKinds(ts)
  {
    if ts.Then? {
      var a := StepToken(ts.token, s).value;
      MatchTokensKinds(ts.next, a.rest);
      CapKindsAppend(a.caps, MatchTokens(ts.next, a.rest).value.caps);
    }
  }

  lemma {:induction false} LazySearchKinds(tail: Tokens, s: string)
    requires LazySearch(tail, s).Some?
    ensures CapKinds(LazySearch(tail, s).value.caps) == TokenKinds(tail)
  {
    if MatchTokens(tail, s).Some? {
      MatchTokensKinds(tail, s);
    } else {
      LazySearchKinds(tail, s[1..]);
    }
  }

  lemma {:induction false} SearchKinds(re: Regex, s: string)
    requires Search(re, s).Some?
    ensures CapKinds(Search(re, s).value.caps) == RegexKinds(re)
  {
    var m := MatchRegex(re, s);
    if m.Some? {
      var a := MatchTokens(re.head, s).value;
      MatchTokensKinds(re.head, s);
      if re.lazyTail.Some? {
        LazySearchKinds(re.lazyTail.value, a.rest);
        CapKindsAppend(a.caps, LazySearch(re.lazyTail.value, a.rest).value.caps);
      }
    } else {
      SearchKinds(re, s[1..]);
    }
  }

  lemma SizeKinds()
    ensures RegexKinds(SizeWithTotal) == [0, 2, 0, 2, 1]
  {
  }

  lemma SizeCapsYieldPoint(caps: seq<Capture>)
    requires CapKinds(caps) == [0, 2, 0, 2, 1]
    ensures SizePoint(caps).Some?
  {
  }

  lemma SizeMatchYieldsPoint(line: string, m: Match)
    requires Search(SizeWithTotal, line) == Some(m)
    ensures SizePoint(m.caps).Some?
  {
    SearchKinds(SizeWithTotal, line);
    SizeKinds();
    SizeCapsYieldPoint(m.caps);
  }

  lemma BytesKinds()
    ensures RegexKinds(BytesProgress) == [0, 1, 1]
  {
  }

  lemma BytesCapsYieldPoint(caps: seq<Capture>)
    requires CapKinds(caps) == [0, 1, 1]
    ensures BytesPoint(caps).Some?
  {
  }

  lemma BytesMatchYieldsPoint(line: string, m: Match)
    requires Search(BytesProgress, line) == Some(m)
    ensures BytesPoint(m.caps).Some?
  {
    SearchKinds(BytesProgress, line);
    BytesKinds();
    BytesCapsYieldPoint(m.caps);
  }

  lemma PercentKinds()
    ensures RegexKinds(PercentOnly) == [0, 1]
  {
  }

  lemma PercentCapsYieldPoint(caps: seq<Capture>)
    requires CapKinds(caps) == [0, 1]
    ensures PercentPoint(caps).Some?
  {
  }

  lemma PercentMatchYieldsPoint(line: string, m: Match)
    requires Search(PercentOnly, line) == Some(m)
    ensures PercentPoint(m.caps).Some?
  {
    SearchKinds(PercentOnly, line);
    PercentKinds();
    PercentCapsYieldPoint(m.caps);
  }

  /** A line yields a point exactly when one of the three patterns occurs in it. */
  lemma ParseIffSomePatternMatches(line: string)
    ensures ParseProgressLine(line).Some?
        <==> (Search(SizeWithTotal, line).Some? || Search(BytesProgress, line).Some?
              || Search(PercentOnly, line).Some?)
  {
    if Search(SizeWithTotal, line).Some? {
      SizeMatchYieldsPoint(line, Search(SizeWithTotal, line).value);
    } else if Search(BytesProgress, line).Some? {
      BytesMatchYieldsPoint(line, Search(BytesProgress, line).value);
    } else if Search(PercentOnly, line).Some? {
      PercentMatchYieldsPoint(line, Search(PercentOnly, line).value);
    }
  }

  /* ---------------- well-formed progress lines ---------------- */

  /** A decimal as written in a log line: `whole` or `whole.frac`. */
  datatype Decimal = Decimal(whole: string, frac: string)

  predicate ValidDecimal(d: Decimal)
  {
    AllDigits(d.whole) && (d.frac == [] || AllDigits(d.frac))
  }

  function DecimalText(d: Decimal): string
  {
    if d.frac == [] then d.whole else d.whole + ("." + d.frac)
  }

  function DecimalValue(d: Decimal): real
    requires ValidDecimal(d)
  {
    DigitsValue(d.whole) as real + DigitsValue(d.frac) as real / Pow10(|d.frac|) as real
  }

  /** An elapsed time as written in a log line: `<minutes><m> <seconds><s>` or `<seconds><s>`. */
  datatype Duration = Duration(minutes: string, minuteMark: char, seconds: string, secondMark: char)

  predicate ValidDuration(t: Duration)
  {
    (t.minutes == [] || AllDigits(t.minutes)) && AllDigits(t.seconds)
    && Lower(t.minuteMark) == 'm' && Lower(t.secondMark) == 's'
  }

  function DurationText(t: Duration): string
  {
    if t.minutes == [] then t.seconds + [t.secondMark]
    else t.minutes + ([t.minuteMark] + (" " + (t.seconds + [t.secondMark])))
  }

  function DurationSeconds(t: Duration): nat
    requires ValidDuration(t)
  {
    ElapsedSeconds(t.minutes, t.minuteMark, t.seconds, t.secondMark)
  }

  function UnitText(mib: bool): string
  {
    if mib then "MiB" else "GiB"
  }

  lemma NumberPrefixOf(d: Decimal, rest: string)
    requires ValidDecimal(d)
    requires rest == [] || (!IsDigit(rest[0]) && rest[0] != '.')
    ensures NumberPrefix(DecimalText(d) + rest)
         == Some((NumCap(DigitsValue(d.whole), DigitsValue(d.frac), |d.frac|), rest))
  {
    if d.frac == [] {
      DigitsPrefixOf(d.whole, rest);
    } else {
      var r := "." + (d.frac + rest);
      assert DecimalText(d) + rest == d.whole + r;
      DigitsPrefixOf(d.whole, r);
      assert r[1..] == d.frac + rest;
      DigitsPrefixOf(d.frac, rest);
    }
  }

  lemma ElapsedPrefixOf(t: Duration, rest: string)
    requires ValidDuration(t)
    ensures ElapsedPrefix(DurationText(t) + rest) == Some((DurationSeconds(t), rest))
  {
    if t.minutes == [] {
      var r1 := [t.secondMark] + rest;
      assert DurationText(t) + rest == t.seconds + r1;
      DigitsPrefixOf(t.seconds, r1);
      assert r1[1..] == rest;
    } else {
      var r3 := [t.secondMark] + rest;
      var r2 := t.seconds + r3;
      var r1 := [t.minuteMark] + (" " + r2);
      assert DurationText(t) + rest == t.minutes + r1;
      DigitsPrefixOf(t.minutes, r1);
      assert r1[1..] == " " + r2;
      assert LeadingSpaces(r1[1..]) == 1;
      assert r1[1..][1..] == r2;
      DigitsPrefixOf(t.seconds, r3);
      assert r3[1..] == rest;
    }
  }

  lemma LitStep(lit: string, rest: string)
    ensures StepToken(Lit(lit), lit + rest) == Some(Match([], rest))
  {
    LitPrefixOf(lit, rest);
    assert (lit + rest)[|lit|..] == rest;
  }

  lemma SpacesStep(rest: string)
    requires rest == [] || !IsSpace(rest[0])
    ensures StepToken(Spaces, " " + rest) == Some(Match([], rest))
  {
    assert (" " + rest)[1..] == rest;
    assert LeadingSpaces(rest) == 0;
    assert LeadingSpaces(" " + rest) == 1;
  }

  lemma SpaceStep(rest: string)
    ensures StepToken(Space, " " + rest) == Some(Match([], rest))
  {
    assert (" " + rest)[1..] == rest;
  }

  lemma NumberStep(d: Decimal, rest: string)
    requires ValidDecimal(d)
    requires rest == [] || (!IsDigit(rest[0]) && rest[0] != '.')
    ensures StepToken(Number, DecimalText(d) + rest)
         == Some(Match([NumCap(DigitsValue(d.whole), DigitsValue(d.frac), |d.frac|)], rest))
  {
    NumberPrefixOf(d, rest);
  }

  lemma IntegerStep(w: string, rest: string)
    requires AllDigits(w)
    requires rest == [] || !IsDigit(rest[0])
    ensures StepToken(Integer, w + rest) == Some(Match([IntCap(DigitsValue(w))], rest))
  {
    DigitsPrefixOf(w, rest);
  }

  lemma UnitStep(mib: bool, rest: string)
    ensures StepToken(Unit, UnitText(mib) + rest) == Some(Match([UnitCap(mib)], rest))
  {
    assert (UnitText(mib) + rest)[3..] == rest;
  }

  lemma ElapsedStep(t: Duration, rest: string)
    requires ValidDuration(t)
    ensures StepToken(Elapsed, DurationText(t) + rest) == Some(Match([IntCap(DurationSeconds(t))], rest))
  {
    ElapsedPrefixOf(t, rest);
  }

  function DecimalCap(d: Decimal): Capture
    requires ValidDecimal(d)
  {
    NumCap(DigitsValue(d.whole), DigitsValue(d.frac), |d.frac|)
  }

  /** `transferred <x> <unit> of <y> <unit>` followed by `rest`. */
  function SizeHeadText(x: Decimal, ux: bool, y: Decimal, uy: bool, rest: string): string
  {
    "transferred" + (" " + (DecimalText(x) + (" " + (UnitText(ux) + (" " + ("of" + (" "
      + (DecimalText(y) + (" " + (UnitText(uy) + rest))))))))))
  }

  /** ` in <elapsed>` */
  function InElapsedText(t: Duration): string
  {
    " " + ("in" + (" " + DurationText(t)))
  }

  /** A size line as qmrestore and vzdump write it, with free text `note` before ` in`. */
  function SizeLine(x: Decimal, ux: bool, y: Decimal, uy: bool, note: string, t: Duration): string
  {
    SizeHeadText(x, ux, y, uy, note + InElapsedText(t))
  }

  /* Matching a token sequence against text built piece by piece, one token at a time. */

  lemma ConsLit(lit: string, next: Tokens, rest: string, m: Match)
    requires MatchTokens(next, rest) == Some(m)
    ensures MatchTokens(Then(Lit(lit), next), lit + rest) == Some(m)
  {
    LitStep(lit, rest);
    assert [] + m.caps == m.caps;
  }

  lemma ConsSpace(next: Tokens, rest: string, m: Match)
    requires MatchTokens(next, rest) == Some(m)
    ensures MatchTokens(Then(Space, next), " " + rest) == Some(m)
  {
    SpaceStep(rest);
    assert [] + m.caps == m.caps;
  }

  lemma ConsSpaces(next: Tokens, rest: string, m: Match)
    requires rest == [] || !IsSpace(rest[0])
    requires MatchTokens(next, rest) == Some(m)
    ensures MatchTokens(Then(Spaces, next), " " + rest) == Some(m)
  {
    SpacesStep(rest);
    assert [] + m.caps == m.caps;
  }

  lemma ConsNumber(d: Decimal, next: Tokens, rest: string, m: Match)
    requires ValidDecimal(d)
    requires rest == [] || (!IsDigit(rest[0]) && rest[0] != '.')
    requires MatchTokens(next, rest) == Some(m)
    ensures MatchTokens(Then(Number, next), DecimalText(d) + rest) == Some(Match([DecimalCap(d)] + m.caps, m.rest))
  {
    NumberStep(d, rest);
  }

  lemma ConsInteger(w: string, next: Tokens, rest: string, m: Match)
    requires AllDigits(w)
    requires rest == [] || !IsDigit(rest[0])
    requires MatchTokens(next, rest) == Some(m)
    ensures MatchTokens(Then(Integer, next), w + rest) == Some(Match([IntCap(DigitsValue(w))] + m.caps, m.rest))
  {
    IntegerStep(w, rest);
  }

  lemma ConsUnit(mib: bool, next: Tokens, rest: string, m: Match)
    requires MatchTokens(next, rest) == Some(m)
    ensures MatchTokens(Then(Unit, next), UnitText(mib) + rest) == Some(Match([UnitCap(mib)] + m.caps, m.rest))
  {
    UnitStep(mib, rest);
  }

  lemma ConsElapsed(t: Duration, next: Tokens, rest: string, m: Match)
    requires ValidDuration(t)
    requires MatchTokens(next, rest) == Some(m)
    ensures MatchTokens(Then(Elapsed, next), DurationText(t) + rest)
         == Some(Match([IntCap(DurationSeconds(t))] + m.caps, m.rest))
  {
    ElapsedStep(t, rest);
  }

  /** `of <y> <unit>` against the end of the size pattern's head. */
  lemma OfSizeMatches(y: Decimal, uy: bool, r: string)
    requires ValidDecimal(y)
    ensures MatchTokens(OfSize, "of" + (" " + (DecimalText(y) + (" " + (UnitText(uy) + r)))))
         == Some(Match([DecimalCap(y), UnitCap(uy)], r))
  {
    var m := Match([], r);
    ConsUnit(uy, End, r, m);
    var m10 := Match([UnitCap(uy)], r);
    assert [UnitCap(uy)] + m.caps == m10.caps;
    var s10 := UnitText(uy) + r;
    ConsSpaces(Then(Unit, End), s10, m10);
    var s9 := " " + s10;
    ConsNumber(y, Then(Spaces, Then(Unit, End)), s9, m10);
    var m8 := Match([DecimalCap(y), UnitCap(uy)], r);
    assert [DecimalCap(y)] + m10.caps == m8.caps;
    var s8 := DecimalText(y) + s9;
    ConsSpaces(Then(Number, Then(Spaces, Then(Unit, End))), s8, m8);
    ConsLit("of", Then(Spaces, Then(Number, Then(Spaces, Then(Unit, End)))), " " + s8, m8);
  }

  /** The head of the size pattern matches `transferred <x> <unit> of <y> <unit>`, capturing both sizes. */
  lemma SizeHeadMatches(x: Decimal, ux: bool, y: Decimal, uy: bool, r: string)
    requires ValidDecimal(x) && ValidDecimal(y)
    ensures MatchTokens(SizeWithTotal.head, SizeHeadText(x, ux, y, uy, r))
         == Some(Match([DecimalCap(x), UnitCap(ux), DecimalCap(y), UnitCap(uy)], r))
  {
    var s6 := "of" + (" " + (DecimalText(y) + (" " + (UnitText(uy) + r))));
    OfSizeMatches(y, uy, r);
    var m8 := Match([DecimalCap(y), UnitCap(uy)], r);
    ConsSpaces(OfSize, s6, m8);
    var s5 := " " + s6;
    ConsUnit(ux, Then(Spaces, OfSize), s5, m8);
    var m4 := Match([UnitCap(ux), DecimalCap(y), UnitCap(uy)], r);
    assert [UnitCap(ux)] + m8.caps == m4.caps;
    var s4 := UnitText(ux) + s5;
    ConsSpaces(Then(Unit, Then(Spaces, OfSize)), s4, m4);
    var s3 := " " + s4;
    ConsNumber(x, Then(Spaces, Then(Unit, Then(Spaces, OfSize))), s3, m4);
    var m2 := Match([DecimalCap(x), UnitCap(ux), DecimalCap(y), UnitCap(uy)], r);
    assert [DecimalCap(x)] + m4.caps == m2.caps;
    var s2 := DecimalText(x) + s3;
    ConsSpaces(Then(Number, Then(Spaces, Then(Unit, Then(Spaces, OfSize)))), s2, m2);
    ConsLit("transferred", Then(Spaces, Then(Number, Then(Spaces, Then(Unit, Then(Spaces, OfSize))))), " " + s2, m2);
  }

  /** The lazy tail `\sin\s+(<elapsed>)` of the size pattern. */
  const InElapsed := Then(Space, Then(Lit("in"), Then(Spaces, Then(Elapsed, End))))

  lemma SizeTail()
    ensures SizeWithTotal.lazyTail == Some(InElapsed)
  {
  }

  lemma InElapsedMatches(t: Duration)
    requires ValidDuration(t)
    ensures MatchTokens(InElapsed, InElapsedText(t)) == Some(Match([IntCap(DurationSeconds(t))], []))
  {
    var m := Match([], []);
    assert DurationText(t) + [] == DurationText(t);
    ConsElapsed(t, End, [], m);
    var m1 := Match([IntCap(DurationSeconds(t))], []);
    assert [IntCap(DurationSeconds(t))] + m.caps == m1.caps;
    ConsSpaces(Then(Elapsed, End), DurationText(t), m1);
    ConsLit("in", Then(Spaces, Then(Elapsed, End)), " " + DurationText(t), m1);
    ConsSpace(Then(Lit("in"), Then(Spaces, Then(Elapsed, End))), "in" + (" " + DurationText(t)), m1);
  }

  /**
   * Free text between the sizes and ` in`: no newline (which `.*?` cannot
   * cross) and no whitespace directly followed by an `i`, so `\sin` cannot
   * match inside it.
   */
  predicate QuietNote(note: string)
  {
    forall i :: 0 <= i < |note| ==>
      note[i] != '\n' && (IsSpace(note[i]) && i + 1 < |note| ==> Lower(note[i + 1]) != 'i')
  }

  /** `.*?` skips text at none of whose positions the tail matches. */
  lemma {:induction false} LazySkip(tail: Tokens, skipped: string, s: string)
    requires forall i :: 0 <= i < |skipped| ==> skipped[i] != '\n'
    requires forall i :: 0 <= i < |skipped| ==> MatchTokens(tail, skipped[i..] + s).None?
    ensures LazySearch(tail, skipped + s) == LazySearch(tail, s)
  {
    if skipped != [] {
      assert skipped[0..] == skipped;
      assert (skipped + s)[1..] == skipped[1..] + s;
      forall i | 0 <= i < |skipped[1..]|
        ensures MatchTokens(tail, skipped[1..][i..] + s).None?
      {
        assert skipped[1..][i..] == skipped[i + 1..];
      }
      LazySkip(tail, skipped[1..], s);
    } else {
      assert skipped + s == s;
    }
  }

  /** `\sin` does not match inside a quiet note followed by ` in`. */
  lemma InElapsedNotInNote(note: string, t: Duration, i: nat)
    requires QuietNote(note) && i < |note|
    ensures MatchTokens(InElapsed, note[i..] + InElapsedText(t)).None?
  {
    var u := note[i..] + InElapsedText(t);
    assert u[0] == note[i];
    if IsSpace(note[i]) {
      assert u[1..][0] == u[1];
      if i + 1 < |note| {
        assert u[1] == note[i + 1];
      } else {
        assert u[1] == ' ';
      }
      assert !LitPrefix(u[1..], "in");
    }
  }

  /** The size pattern matches a size line from its first character to its end. */
  lemma SizeLineMatches(x: Decimal, ux: bool, y: Decimal, uy: bool, note: string, t: Duration)
    requires ValidDecimal(x) && ValidDecimal(y) && ValidDuration(t) && QuietNote(note)
    ensures MatchRegex(SizeWithTotal, SizeLine(x, ux, y, uy, note, t))
         == Some(Match([DecimalCap(x), UnitCap(ux), DecimalCap(y), UnitCap(uy), IntCap(DurationSeconds(t))], []))
  {
    SizeHeadMatches(x, ux, y, uy, note + InElapsedText(t));
    forall i | 0 <= i < |note|
      ensures MatchTokens(InElapsed, note[i..] + InElapsedText(t)).None?
    {
      InElapsedNotInNote(note, t, i);
    }
    LazySkip(InElapsed, note, InElapsedText(t));
    InElapsedMatches(t);
    SizeTail();
    assert [DecimalCap(x), UnitCap(ux), DecimalCap(y), UnitCap(uy)] + [IntCap(DurationSeconds(t))]
        == [DecimalCap(x), UnitCap(ux), DecimalCap(y), UnitCap(uy), IntCap(DurationSeconds(t))];
  }

  /** A size line is parsed into its elapsed seconds and both sizes in GiB. */
  lemma SizeLineParses(x: Decimal, ux: bool, y: Decimal, uy: bool, note: string, t: Duration)
    requires ValidDecimal(x) && ValidDecimal(y) && ValidDuration(t) && QuietNote(note)
    ensures ParseProgressLine(SizeLine(x, ux, y, uy, note, t))
         == Some(Point(DurationSeconds(t), ToGib(DecimalValue(x), ux), Some(ToGib(DecimalValue(y), uy))))
  {
    var caps := [DecimalCap(x), UnitCap(ux), DecimalCap(y), UnitCap(uy), IntCap(DurationSeconds(t))];
    SizeLineMatches(x, ux, y, uy, note, t);
    ParseAtSizeMatch(SizeLine(x, ux, y, uy, note, t), Match(caps, []));
    SizePointOf(x, ux, y, uy, DurationSeconds(t));
  }

  lemma SizePointOf(x: Decimal, ux: bool, y: Decimal, uy: bool, secs: nat)
    requires ValidDecimal(x) && ValidDecimal(y)
    ensures SizePoint([DecimalCap(x), UnitCap(ux), DecimalCap(y), UnitCap(uy), IntCap(secs)])
         == Some(Point(secs, ToGib(DecimalValue(x), ux), Some(ToGib(DecimalValue(y), uy))))
  {
  }

  /** When the size pattern matches at the start of a line, its captures decide the point. */
  lemma ParseAtSizeMatch(line: string, m: Match)
    requires MatchRegex(SizeWithTotal, line) == Some(m)
    ensures ParseProgressLine(line) == SizePoint(m.caps)
  {
    assert Search(SizeWithTotal, line) == Some(m);
  }

  /* ---------------- the qmrestore and percent-only lines ---------------- */

  /** When the first pattern occurs nowhere and the second matches at the start of a line, its captures decide the point. */
  lemma {:induction false} ParseAtBytesMatch(line: string, m: Match)
    requires Search(SizeWithTotal, line).None?
    requires MatchRegex(BytesProgress, line) == Some(m)
    ensures ParseProgressLine(line) == BytesPoint(m.caps)
  {
    assert Search(BytesProgress, line) == Some(m);
  }

  /** When neither earlier pattern occurs and the third matches at the start of a line, its captures decide the point. */
  lemma {:induction false} ParseAtPercentMatch(line: string, m: Match)
    requires Search(SizeWithTotal, line).None? && Search(BytesProgress, line).None?
    requires MatchRegex(PercentOnly, line) == Some(m)
    ensures ParseProgressLine(line) == PercentPoint(m.caps)
  {
    assert Search(PercentOnly, line) == Some(m);
  }

  /** No character of `s` is the letter `c`, in either case. */
  predicate NoLetter(s: string, c: char)
  {
    forall i :: 0 <= i < |s| ==> Lower(s[i]) != c
  }

  lemma {:induction false} NoLetterAppend(a: string, b: string, c: char)
    requires NoLetter(a, c) && NoLetter(b, c)
    ensures NoLetter(a + b, c)
  {
    forall i | 0 <= i < |a + b|
      ensures Lower((a + b)[i]) != c
    {
      if i < |a| {
        assert (a + b)[i] == a[i];
      } else {
        assert (a + b)[i] == b[i - |a|];
      }
    }
  }

  lemma {:induction false} DigitsNoLetter(w: string, c: char)
    requires AllDigits(w) && !IsDigit(c)
    ensures NoLetter(w, c)
  {
  }

  lemma {:induction false} DecimalNoLetter(d: Decimal, c: char)
    requires ValidDecimal(d) && !IsDigit(c) && c != '.'
    ensures NoLetter(DecimalText(d), c)
  {
    DigitsNoLetter(d.whole, c);
    if d.frac != [] {
      DigitsNoLetter(d.frac, c);
      NoLetterAppend(".", d.frac, c);
      NoLetterAppend(d.whole, "." + d.frac, c);
    }
  }

  lemma {:induction false} LitPrefixAt(s: string, lit: string, k: nat)
    requires LitPrefix(s, lit) && k < |lit|
    ensures k < |s| && Lower(s[k]) == Lower(lit[k])
    decreases k
  {
    if k > 0 {
      LitPrefixAt(s[1..], lit[1..], k - 1);
    }
  }

  lemma {:induction false} NotLitPrefixAt(s: string, lit: string, k: nat)
    requires k < |lit| && (k < |s| ==> Lower(s[k]) != Lower(lit[k]))
    ensures !LitPrefix(s, lit)
  {
    if LitPrefix(s, lit) {
      LitPrefixAt(s, lit, k);
      assert false;
    }
  }

  /**
   * A pattern opening with a literal cannot occur in a text lacking one of
   * the literal's letters.
   */
  lemma {:induction false} SearchNeedsLetter(re: Regex, w: string, next: Tokens, k: nat, s: string)
    requires re.head == Then(Lit(w), next) && k < |w|
    requires NoLetter(s, Lower(w[k]))
    ensures Search(re, s).None?
    decreases |s|
  {
    if LitPrefix(s, w) {
      LitPrefixAt(s, w, k);
    }
    assert MatchRegex(re, s).None?;
    if s != [] {
      SearchNeedsLetter(re, w, next, k, s[1..]);
    }
  }

  /** A number and a percent sign, then a space before `r`. */
  lemma {:induction false} ConsPercent(p: Decimal, next: Tokens, r: string, m: Match)
    requires ValidDecimal(p)
    requires r == [] || !IsSpace(r[0])
    requires MatchTokens(next, r) == Some(m)
    ensures MatchTokens(Then(Number, Then(Lit("%"), Then(Spaces, next))), DecimalText(p) + ("%" + (" " + r)))
         == Some(Match([DecimalCap(p)] + m.caps, m.rest))
  {
    ConsSpaces(next, r, m);
    ConsLit("%", Then(Spaces, next), " " + r, m);
    ConsNumber(p, Then(Lit("%"), Then(Spaces, next)), "%" + (" " + r), m);
  }

  /** `(read <b> bytes,` followed by `r` */
  function ReadBytesText(b: string, r: string): string
  {
    "(read" + (" " + (b + (" " + ("bytes," + r))))
  }

  /** `duration <d> sec)` followed by `rest` */
  function DurationTailText(d: string, rest: string): string
  {
    "duration" + (" " + (d + (" " + ("sec)" + rest))))
  }

  /** A qmrestore progress line, with free text `note` between `bytes,` and `duration`, followed by `rest`. */
  function BytesLine(p: Decimal, b: string, note: string, d: string, rest: string): string
  {
    "progress" + (" " + (DecimalText(p) + ("%" + (" " + ReadBytesText(b, note + DurationTailText(d, rest))))))
  }

  lemma {:induction false} ReadBytesMatches(b: string, r: string)
    requires AllDigits(b)
    ensures MatchTokens(ReadBytes, ReadBytesText(b, r)) == Some(Match([IntCap(DigitsValue(b))], r))
  {
    var m := Match([], r);
    ConsLit("bytes,", End, r, m);
    ConsSpaces(Then(Lit("bytes,"), End), "bytes," + r, m);
    ConsInteger(b, Then(Spaces, Then(Lit("bytes,"), End)), " " + ("bytes," + r), m);
    var m1 := Match([IntCap(DigitsValue(b))], r);
    assert [IntCap(DigitsValue(b))] + m.caps == m1.caps;
    var s2 := b + (" " + ("bytes," + r));
    ConsSpaces(Then(Integer, Then(Spaces, Then(Lit("bytes,"), End))), s2, m1);
    ConsLit("(read", Then(Spaces, Then(Integer, Then(Spaces, Then(Lit("bytes,"), End)))), " " + s2, m1);
  }

  lemma {:induction false} DurationTailMatches(d: string, rest: string)
    requires AllDigits(d)
    ensures MatchTokens(DurationTail, DurationTailText(d, rest)) == Some(Match([IntCap(DigitsValue(d))], rest))
  {
    var m := Match([], rest);
    ConsLit("sec)", End, rest, m);
    ConsSpaces(Then(Lit("sec)"), End), "sec)" + rest, m);
    ConsInteger(d, Then(Spaces, Then(Lit("sec)"), End)), " " + ("sec)" + rest), m);
    var m1 := Match([IntCap(DigitsValue(d))], rest);
    assert [IntCap(DigitsValue(d))] + m.caps == m1.caps;
    var s2 := d + (" " + ("sec)" + rest));
    ConsSpaces(Then(Integer, Then(Spaces, Then(Lit("sec)"), End))), s2, m1);
    ConsLit("duration", Then(Spaces, Then(Integer, Then(Spaces, Then(Lit("sec)"), End)))), " " + s2, m1);
  }

  /** The head of the qmrestore pattern matches `progress <p>% (read <b> bytes,`, capturing both numbers. */
  lemma {:induction false} BytesHeadMatches(p: Decimal, b: string, r: string)
    requires ValidDecimal(p) && AllDigits(b)
    ensures MatchTokens(BytesProgress.head, "progress" + (" " + (DecimalText(p) + ("%" + (" " + ReadBytesText(b, r))))))
         == Some(Match([DecimalCap(p), IntCap(DigitsValue(b))], r))
  {
    var m1 := Match([IntCap(DigitsValue(b))], r);
    ReadBytesMatches(b, r);
    ConsPercent(p, ReadBytes, ReadBytesText(b, r), m1);
    var m2 := Match([DecimalCap(p), IntCap(DigitsValue(b))], r);
    assert [DecimalCap(p)] + m1.caps == m2.caps;
    var s2 := DecimalText(p) + ("%" + (" " + ReadBytesText(b, r)));
    ConsSpaces(Then(Number, Then(Lit("%"), Then(Spaces, ReadBytes))), s2, m2);
    ConsLit("progress", Then(Spaces, Then(Number, Then(Lit("%"), Then(Spaces, ReadBytes)))), " " + s2, m2);
  }

  /**
   * Free text between `bytes,` and `duration`: no newline, no `f` (so the
   * size pattern's `transferred` cannot occur) and no `d` directly followed
   * by a `u` (so `duration` cannot start inside it).
   */
  predicate QuietBytesNote(note: string)
  {
    NoLetter(note, 'f')
    && forall i :: 0 <= i < |note| ==>
      note[i] != '\n' && (Lower(note[i]) == 'd' && i + 1 < |note| ==> Lower(note[i + 1]) != 'u')
  }

  /** `duration` does not match inside a quiet note followed by `duration`. */
  lemma {:induction false} DurationNotInNote(note: string, tail: string, i: nat)
    requires QuietBytesNote(note) && i < |note| && tail != [] && tail[0] == 'd'
    ensures MatchTokens(DurationTail, note[i..] + tail).None?
  {
    var u := note[i..] + tail;
    assert u[0] == note[i];
    if Lower(note[i]) == 'd' {
      if i + 1 < |note| {
        assert u[1] == note[i + 1];
      } else {
        assert u[1] == tail[0];
      }
      NotLitPrefixAt(u, "duration", 1);
    } else {
      NotLitPrefixAt(u, "duration", 0);
    }
  }

  /** The qmrestore pattern matches a qmrestore line from its first character, up to `rest`. */
  lemma {:induction false} BytesLineMatches(p: Decimal, b: string, note: string, d: string, rest: string)
    requires ValidDecimal(p) && AllDigits(b) && AllDigits(d) && QuietBytesNote(note)
    ensures MatchRegex(BytesProgress, BytesLine(p, b, note, d, rest))
         == Some(Match([DecimalCap(p), IntCap(DigitsValue(b)), IntCap(DigitsValue(d))], rest))
  {
    var tail := DurationTailText(d, rest);
    BytesHeadMatches(p, b, note + tail);
    assert tail[0] == 'd';
    forall i | 0 <= i < |note|
      ensures MatchTokens(DurationTail, note[i..] + tail).None?
    {
      DurationNotInNote(note, tail, i);
    }
    LazySkip(DurationTail, note, tail);
    DurationTailMatches(d, rest);
    assert [DecimalCap(p), IntCap(DigitsValue(b))] + [IntCap(DigitsValue(d))]
        == [DecimalCap(p), IntCap(DigitsValue(b)), IntCap(DigitsValue(d))];
  }

  /** The text after `progress ` in a qmrestore line has no `f` when its note and rest have none. */
  lemma {:induction false} BytesBodyNoF(p: Decimal, b: string, note: string, d: string, rest: string)
    requires ValidDecimal(p) && AllDigits(b) && AllDigits(d) && NoLetter(note, 'f') && NoLetter(rest, 'f')
    ensures NoLetter(DecimalText(p) + ("%" + (" " + ReadBytesText(b, note + DurationTailText(d, rest)))), 'f')
  {
    var t4 := " " + ("sec)" + rest);
    NoLetterAppend("sec)", rest, 'f');
    NoLetterAppend(" ", "sec)" + rest, 'f');
    DigitsNoLetter(d, 'f');
    NoLetterAppend(d, t4, 'f');
    NoLetterAppend(" ", d + t4, 'f');
    NoLetterAppend("duration", " " + (d + t4), 'f');
    var r := note + DurationTailText(d, rest);
    NoLetterAppend(note, DurationTailText(d, rest), 'f');
    NoLetterAppend("bytes,", r, 'f');
    NoLetterAppend(" ", "bytes," + r, 'f');
    DigitsNoLetter(b, 'f');
    NoLetterAppend(b, " " + ("bytes," + r), 'f');
    NoLetterAppend(" ", b + (" " + ("bytes," + r)), 'f');
    NoLetterAppend("(read", " " + (b + (" " + ("bytes," + r))), 'f');
    NoLetterAppend(" ", ReadBytesText(b, r), 'f');
    NoLetterAppend("%", " " + ReadBytesText(b, r), 'f');
    DecimalNoLetter(p, 'f');
    NoLetterAppend(DecimalText(p), "%" + (" " + ReadBytesText(b, r)), 'f');
  }

  /** The size pattern occurs nowhere in a qmrestore line whose note and rest have no `f`. */
  lemma {:induction false} BytesLineNotSize(p: Decimal, b: string, note: string, d: string, rest: string)
    requires ValidDecimal(p) && AllDigits(b) && AllDigits(d) && NoLetter(note, 'f') && NoLetter(rest, 'f')
    ensures Search(SizeWithTotal, BytesLine(p, b, note, d, rest)).None?
  {
    var body := DecimalText(p) + ("%" + (" " + ReadBytesText(b, note + DurationTailText(d, rest))));
    BytesBodyNoF(p, b, note, d, rest);
    NoLetterAppend(" ", body, 'f');
    NoLetterAppend("progress", " " + body, 'f');
    assert Lower("transferred"[5]) == 'f';
    SearchNeedsLetter(SizeWithTotal, "transferred", SizeWithTotal.head.next, 5, BytesLine(p, b, note, d, rest));
  }

  lemma {:induction false} BytesPointOf(p: Decimal, bytes: nat, secs: nat)
    requires ValidDecimal(p)
    ensures BytesPoint([DecimalCap(p), IntCap(bytes), IntCap(secs)])
         == Some(Point(secs, BytesToGib(bytes),
                       if DecimalValue(p) <= 0.0 then None else Some(TotalOf(BytesToGib(bytes), DecimalValue(p)))))
  {
  }

  /** The captures of a qmrestore line decide its point. */
  lemma {:induction false} BytesLineCaps(p: Decimal, b: string, note: string, d: string, rest: string)
    requires ValidDecimal(p) && AllDigits(b) && AllDigits(d) && QuietBytesNote(note) && NoLetter(rest, 'f')
    ensures ParseProgressLine(BytesLine(p, b, note, d, rest))
         == BytesPoint([DecimalCap(p), IntCap(DigitsValue(b)), IntCap(DigitsValue(d))])
  {
    var caps := [DecimalCap(p), IntCap(DigitsValue(b)), IntCap(DigitsValue(d))];
    BytesLineMatches(p, b, note, d, rest);
    BytesLineNotSize(p, b, note, d, rest);
    ParseAtBytesMatch(BytesLine(p, b, note, d, rest), Match(caps, rest));
  }

  /**
   * A qmrestore line is parsed into its duration, the bytes read in GiB and
   * the total they are the given percentage of, or no total for a percentage
   * that is not positive.
   */
  lemma {:induction false} BytesLineParses(p: Decimal, b: string, note: string, d: string, rest: string)
    requires ValidDecimal(p) && AllDigits(b) && AllDigits(d) && QuietBytesNote(note) && NoLetter(rest, 'f')
    ensures ParseProgressLine(BytesLine(p, b, note, d, rest))
         == Some(Point(DigitsValue(d), BytesToGib(DigitsValue(b)),
                       if DecimalValue(p) <= 0.0 then None
                       else Some(TotalOf(BytesToGib(DigitsValue(b)), DecimalValue(p)))))
  {
    BytesLineCaps(p, b, note, d, rest);
    BytesPointOf(p, DigitsValue(b), DigitsValue(d));
  }

  /** `in <elapsed>` followed by `rest` */
  function InThenElapsedText(t: Duration, rest: string): string
  {
    "in" + (" " + (DurationText(t) + rest))
  }

  /** A percent-only line, `transferred <p>% in <elapsed>`, followed by `rest`. */
  function PercentLine(p: Decimal, t: Duration, rest: string): string
  {
    "transferred" + (" " + PercentBody(p, t, rest))
  }

  /** The text after `transferred ` in a percent-only line. */
  function PercentBody(p: Decimal, t: Duration, rest: string): string
  {
    DecimalText(p) + ("%" + (" " + InThenElapsedText(t, rest)))
  }

  lemma {:induction false} InThenElapsedMatches(t: Duration, rest: string)
    requires ValidDuration(t)
    ensures MatchTokens(InThenElapsed, InThenElapsedText(t, rest)) == Some(Match([IntCap(DurationSeconds(t))], rest))
  {
    var m := Match([], rest);
    ConsElapsed(t, End, rest, m);
    var m1 := Match([IntCap(DurationSeconds(t))], rest);
    assert [IntCap(DurationSeconds(t))] + m.caps == m1.caps;
    ConsSpaces(Then(Elapsed, End), DurationText(t) + rest, m1);
    ConsLit("in", Then(Spaces, Then(Elapsed, End)), " " + (DurationText(t) + rest), m1);
  }

  lemma {:induction false} PercentHeadMatches(p: Decimal, t: Duration, rest: string)
    requires ValidDecimal(p) && ValidDuration(t)
    ensures MatchTokens(PercentOnly.head, PercentLine(p, t, rest))
         == Some(Match([DecimalCap(p), IntCap(DurationSeconds(t))], rest))
  {
    var m1 := Match([IntCap(DurationSeconds(t))], rest);
    InThenElapsedMatches(t, rest);
    ConsPercent(p, InThenElapsed, InThenElapsedText(t, rest), m1);
    var m2 := Match([DecimalCap(p), IntCap(DurationSeconds(t))], rest);
    assert [DecimalCap(p)] + m1.caps == m2.caps;
    ConsSpaces(Then(Number, Then(Lit("%"), Then(Spaces, InThenElapsed))), PercentBody(p, t, rest), m2);
    ConsLit("transferred", Then(Spaces, Then(Number, Then(Lit("%"), Then(Spaces, InThenElapsed)))),
      " " + PercentBody(p, t, rest), m2);
  }

  lemma {:induction false} DurationNoLetter(t: Duration, c: char)
    requires ValidDuration(t) && !IsDigit(c) && c != 'm' && c != 's' && c != ' '
    ensures NoLetter(DurationText(t), c)
  {
    DigitsNoLetter(t.seconds, c);
    NoLetterAppend(t.seconds, [t.secondMark], c);
    if t.minutes != [] {
      DigitsNoLetter(t.minutes, c);
      NoLetterAppend(" ", t.seconds + [t.secondMark], c);
      NoLetterAppend([t.minuteMark], " " + (t.seconds + [t.secondMark]), c);
      NoLetterAppend(t.minutes, [t.minuteMark] + (" " + (t.seconds + [t.secondMark])), c);
    }
  }

  /** The text after `transferred ` in a percent-only line has neither `t` nor `p` when its rest has neither. */
  lemma {:induction false} PercentBodyNoLetter(p: Decimal, t: Duration, rest: string, c: char)
    requires ValidDecimal(p) && ValidDuration(t) && NoLetter(rest, c)
    requires c == 't' || c == 'p'
    ensures NoLetter(PercentBody(p, t, rest), c)
  {
    DurationNoLetter(t, c);
    NoLetterAppend(DurationText(t), rest, c);
    NoLetterAppend(" ", DurationText(t) + rest, c);
    NoLetterAppend("in", " " + (DurationText(t) + rest), c);
    NoLetterAppend(" ", InThenElapsedText(t, rest), c);
    NoLetterAppend("%", " " + InThenElapsedText(t, rest), c);
    DecimalNoLetter(p, c);
    NoLetterAppend(DecimalText(p), "%" + (" " + InThenElapsedText(t, rest)), c);
  }

  /** The size pattern fails at the start of a percent-only line, where `%` follows the number. */
  lemma {:induction false} PercentLineNoSizeHead(p: Decimal, t: Duration, rest: string)
    requires ValidDecimal(p)
    ensures MatchRegex(SizeWithTotal, PercentLine(p, t, rest)).None?
  {
    var r := "%" + (" " + InThenElapsedText(t, rest));
    var afterNumber := SizeWithTotal.head.next.next.next;
    assert afterNumber.token == Spaces;
    assert LeadingSpaces(r) == 0;
    assert StepToken(Spaces, r).None?;
    assert MatchTokens(afterNumber, r).None?;
    NumberStep(p, r);
    assert MatchTokens(SizeWithTotal.head.next.next, PercentBody(p, t, rest)).None?;
    SpacesStep(PercentBody(p, t, rest));
    assert MatchTokens(SizeWithTotal.head.next, " " + PercentBody(p, t, rest)).None?;
    LitStep("transferred", " " + PercentBody(p, t, rest));
    assert MatchTokens(SizeWithTotal.head, PercentLine(p, t, rest)).None?;
  }

  lemma {:induction false} DropFirst(lit: string, x: string)
    requires |lit| > 0
    ensures (lit + x)[1..] == lit[1..] + x
  {
  }

  /** After its first character, a percent-only line whose rest has no `t` has no `t`. */
  lemma {:induction false} PercentLineTailNoT(p: Decimal, t: Duration, rest: string)
    requires ValidDecimal(p) && ValidDuration(t) && NoLetter(rest, 't')
    ensures NoLetter(PercentLine(p, t, rest)[1..], 't')
  {
    PercentBodyNoLetter(p, t, rest, 't');
    NoLetterAppend(" ", PercentBody(p, t, rest), 't');
    NoLetterAppend("ransferred", " " + PercentBody(p, t, rest), 't');
    DropFirst("transferred", " " + PercentBody(p, t, rest));
  }

  /** `re.search` moves past a start position where the pattern does not match. */
  lemma {:induction false} SearchSkipsFirst(re: Regex, s: string)
    requires s != [] && MatchRegex(re, s).None?
    ensures Search(re, s) == Search(re, s[1..])
  {
  }

  /** The size pattern occurs nowhere in a percent-only line whose rest has no `t`. */
  lemma {:induction false} PercentLineNotSize(p: Decimal, t: Duration, rest: string)
    requires ValidDecimal(p) && ValidDuration(t) && NoLetter(rest, 't')
    ensures Search(SizeWithTotal, PercentLine(p, t, rest)).None?
  {
    var line := PercentLine(p, t, rest);
    PercentLineNoSizeHead(p, t, rest);
    SearchSkipsFirst(SizeWithTotal, line);
    PercentLineTailNoT(p, t, rest);
    SearchNeedsLetter(SizeWithTotal, "transferred", SizeWithTotal.head.next, 0, line[1..]);
  }

  /** The qmrestore pattern occurs nowhere in a percent-only line whose rest has no `p`. */
  lemma {:induction false} PercentLineNotBytes(p: Decimal, t: Duration, rest: string)
    requires ValidDecimal(p) && ValidDuration(t) && NoLetter(rest, 'p')
    ensures Search(BytesProgress, PercentLine(p, t, rest)).None?
  {
    PercentBodyNoLetter(p, t, rest, 'p');
    NoLetterAppend(" ", PercentBody(p, t, rest), 'p');
    NoLetterAppend("transferred", " " + PercentBody(p, t, rest), 'p');
    SearchNeedsLetter(BytesProgress, "progress", BytesProgress.head.next, 0, PercentLine(p, t, rest));
  }

  /** The captures of a percent-only line decide its point. */
  lemma {:induction false} PercentLineCaps(p: Decimal, t: Duration, rest: string)
    requires ValidDecimal(p) && ValidDuration(t) && NoLetter(rest, 't') && NoLetter(rest, 'p')
    ensures ParseProgressLine(PercentLine(p, t, rest)) == PercentPoint([DecimalCap(p), IntCap(DurationSeconds(t))])
  {
    var caps := [DecimalCap(p), IntCap(DurationSeconds(t))];
    PercentHeadMatches(p, t, rest);
    PercentLineNotSize(p, t, rest);
    PercentLineNotBytes(p, t, rest);
    ParseAtPercentMatch(PercentLine(p, t, rest), Match(caps, rest));
  }

  lemma {:induction false} PercentPointOf(p: Decimal, secs: nat)
    requires ValidDecimal(p)
    ensures PercentPoint([DecimalCap(p), IntCap(secs)]) == Some(Point(secs, DecimalValue(p), None))
  {
  }

  /** A percent-only line is parsed into its elapsed seconds and its percentage, with no total. */
  lemma {:induction false} PercentLineParses(p: Decimal, t: Duration, rest: string)
    requires ValidDecimal(p) && ValidDuration(t) && NoLetter(rest, 't') && NoLetter(rest, 'p')
    ensures ParseProgressLine(PercentLine(p, t, rest)) == Some(Point(DurationSeconds(t), DecimalValue(p), None))
  {
    PercentLineCaps(p, t, rest);
    PercentPointOf(p, DurationSeconds(t));
  }
}
