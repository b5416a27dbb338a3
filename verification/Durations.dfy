// Go durations as text: how the kubelet prints an image pull duration into an event message and how
// the checker reads it back.
module Durations {
  import opened Names
  import opened Cluster

  // Nanoseconds.
  const MICROSECOND: nat := 1_000
  const MILLISECOND: nat := 1_000_000
  const SECOND: nat := 1_000_000_000
  const MINUTE: nat := 60_000_000_000
  const HOUR: nat := 3_600_000_000_000
  const LIMIT: nat := 0x8000_0000_0000_0000   // 1 << 63

  // ---- Duration.String, for whole milliseconds ----

  // The fraction of a second, three digits without trailing zeros.
  function Fraction(ms: nat): string
    requires ms < 1000
  {
    if ms == 0 then []
    else if ms % 100 == 0 then "." + [Digit(ms / 100)]
    else if ms % 10 == 0 then "." + [Digit(ms / 100), Digit(ms / 10 % 10)]
    else "." + [Digit(ms / 100), Digit(ms / 10 % 10), Digit(ms % 10)]
  }

  function DurationText(ms: nat): string
  {
    if ms == 0 then "0s"
    else if ms < 1000 then Dec(ms) + "ms"
    else
      var secs := ms / 1000;
      (if secs >= 3600 then Dec(secs / 3600) + "h" else [])
      + (if secs >= 60 then Dec(secs / 60 % 60) + "m" else [])
      + Dec(secs % 60) + Fraction(ms % 1000) + "s"
  }

  // ---- time.ParseDuration, without sign ----

  function LeadingDigits(s: string): (n: nat)
    ensures n <= |s|
  {
    if s == [] || !IsDigit(s[0]) then 0 else 1 + LeadingDigits(s[1..])
  }

  // Up to the next dot or digit.
  function UnitLength(s: string): (n: nat)
    ensures n <= |s|
  {
    if s == [] || s[0] == '.' || IsDigit(s[0]) then 0 else 1 + UnitLength(s[1..])
  }

  // ns, us, ms, s, m, h
  function Unit(u: string): Option<nat>
  {
    if |u| == 1 then
      if u[0] == 's' then Some(SECOND) else if u[0] == 'm' then Some(MINUTE) else if u[0] == 'h' then Some(HOUR)
          else None
    else if |u| == 2 && u[1] == 's' then
      if u[0] == 'n' then Some(1) else if u[0] == 'u' then Some(MICROSECOND)
          else if u[0] == 'm' then Some(MILLISECOND) else None
    else None
  }

  // The digits f after the dot, in units, rounded down.
  function FractionNanos(f: string, unit: nat): nat
  {
    if f == [] then 0 else (DigitValue(f[0]) * unit + FractionNanos(f[1..], unit)) / 10
  }

  // 12.5ms as digits, digits, unit.
  datatype Term = Term(whole: string, fraction: string, unit: string)

  // The first term and what follows it.
  function Scan(s: string): (r: (Term, string))
    ensures |r.0.unit| + |r.1| <= |s|
  {
    var n := LeadingDigits(s);
    var afterInt := s[n..];
    if afterInt != [] && afterInt[0] == '.' then
      var m := LeadingDigits(afterInt[1..]);
      var afterNum := afterInt[1..][m..];
      var u := UnitLength(afterNum);
      (Term(s[..n], afterInt[1..][..m], afterNum[..u]), afterNum[u..])
    else
      var u := UnitLength(afterInt);
      (Term(s[..n], [], afterInt[..u]), afterInt[u..])
  }

  // All terms, up to one without unit.
  function ScanAll(s: string): seq<Term>
    decreases |s|
  {
    if s == [] then [] else
    var (t, rest) := Scan(s);
    if t.unit == [] then [t] else [t] + ScanAll(rest)
  }

  // None is a malformed or overflowing term.
  function TermValue(t: Term): Option<nat>
  {
    if (t.whole == [] && t.fraction == []) || Undec(t.whole) > LIMIT || Unit(t.unit).None? then None else
    var unit := Unit(t.unit).value;
    if Undec(t.whole) * unit > LIMIT then None else
    var total := Undec(t.whole) * unit + FractionNanos(t.fraction, unit);
    if total > LIMIT then None else Some(total)
  }

  // Terms such as 1h, 2m or 3.5s, added up.
  function Sum(terms: seq<Term>, acc: nat): Option<nat>
  {
    if terms == [] then (if acc >= LIMIT then None else Some(acc)) else
    var v := TermValue(terms[0]);
    if v.None? || acc + v.value > LIMIT then None else Sum(terms[1..], acc + v.value)
  }

  function ParseDuration(s: string): Option<nat>
  {
    if s == "0" then Some(0) else if s == [] then None else Sum(ScanAll(s), 0)
  }

  // ---- The pull duration in an event message ----

  const WAITING: string := " including waiting)"

  predicate InClass(c: char)
  {
    'a' <= c <= 'z' || 'A' <= c <= 'Z' || IsDigit(c) || c == '.'
  }

  function ClassRun(s: string): (n: nat)
    ensures n <= |s|
  {
    if s == [] || !InClass(s[0]) then 0 else 1 + ClassRun(s[1..])
  }

  predicate StartsWith(s: string, t: string)
  {
    |t| <= |s| && s[..|t|] == t
  }

  // The expression \(([a-zA-Z0-9\.]+) including waiting\) matches at the start of s.
  predicate MatchesHere(s: string, waiting: string)
  {
    && s != [] && s[0] == '('
    && ClassRun(s[1..]) > 0
    && StartsWith(s[1..][ClassRun(s[1..])..], waiting)
  }

  // The group captured by the leftmost match.
  function Capture(s: string, waiting: string): Option<string>
  {
    if s == [] then None
    else if MatchesHere(s, waiting) then Some(s[1..][..ClassRun(s[1..])])
    else Capture(s[1..], waiting)
  }

  function ParseImagePullDuration(message: string): Option<nat>
  {
    var group := Capture(message, WAITING);
    if group.None? then None else ParseDuration(group.value)
  }

  // Where the expression matches: a parenthesis at i, n > 0 characters of the class, the waiting text.
  predicate MatchAt(s: string, i: nat, n: nat)
  {
    && n > 0 && i + 1 + n <= |s| && s[i] == '('
    && (forall k | i < k <= i + n :: InClass(s[k]))
    && StartsWith(s[i + 1 + n..], WAITING)
  }

  lemma {:induction false} ClassRunIs(s: string, n: nat)
    requires n <= |s| && (forall k | 0 <= k < n :: InClass(s[k])) && (n < |s| ==> !InClass(s[n]))
    ensures ClassRun(s) == n
  {
    if n > 0 {
      ClassRunIs(s[1..], n - 1);
    }
  }

  lemma {:induction false} ClassRunInClass(s: string)
    ensures forall k | 0 <= k < ClassRun(s) :: InClass(s[k])
  {
    if s != [] && InClass(s[0]) {
      ClassRunInClass(s[1..]);
      assert forall k | 0 < k < ClassRun(s) :: s[k] == s[1..][k - 1];
    }
  }

  // A match at the start is the longest run of class characters, which the waiting text cannot extend.
  lemma MatchesAtStart(s: string)
    ensures MatchesHere(s, WAITING) <==> exists n: nat :: MatchAt(s, 0, n)
    ensures forall n: nat | MatchAt(s, 0, n) :: n == ClassRun(s[1..])
  {
    forall n: nat | MatchAt(s, 0, n) ensures n == ClassRun(s[1..]) && MatchesHere(s, WAITING) {
      assert s[1 + n] == s[1 + n..][..|WAITING|][0] == ' ';
      ClassRunIs(s[1..], n);
      assert s[1..][n..] == s[1 + n..];
    }
    if MatchesHere(s, WAITING) {
      var n := ClassRun(s[1..]);
      ClassRunInClass(s[1..]);
      assert s[1..][n..] == s[1 + n..];
      assert forall k | 0 < k <= n :: s[k] == s[1..][k - 1];
      assert MatchAt(s, 0, n);
    }
  }

  lemma MatchTail(s: string, i: nat, n: nat)
    requires s != []
    ensures MatchAt(s, i + 1, n) <==> MatchAt(s[1..], i, n)
  {
    if i + 1 + n <= |s| - 1 {
      assert s[1..][i + 1 + n..] == s[i + 2 + n..];
      assert forall k | i < k <= i + n :: s[1..][k] == s[k + 1];
      assert forall k | i + 1 < k <= i + 1 + n :: s[k] == s[1..][k - 1];
    }
  }

  // The group of the leftmost match is what is captured.
  lemma {:induction false} CaptureLeftmost(s: string, i: nat, n: nat)
    requires MatchAt(s, i, n) && forall j: nat, m: nat | j < i :: !MatchAt(s, j, m)
    ensures Capture(s, WAITING) == Some(s[i + 1..][..n])
  {
    MatchesAtStart(s);
    if i == 0 {
      assert n == ClassRun(s[1..]);
    } else {
      MatchTail(s, i - 1, n);
      forall j: nat, m: nat | j < i - 1 ensures !MatchAt(s[1..], j, m) {
        MatchTail(s, j, m);
      }
      CaptureLeftmost(s[1..], i - 1, n);
      assert s[1..][i..] == s[i + 1..];
    }
  }

  lemma {:induction false} CaptureNothing(s: string)
    requires forall i: nat, n: nat :: !MatchAt(s, i, n)
    ensures Capture(s, WAITING).None?
  {
    if s != [] {
      MatchesAtStart(s);
      forall i: nat, n: nat ensures !MatchAt(s[1..], i, n) {
        MatchTail(s, i, n);
      }
      CaptureNothing(s[1..]);
    }
  }

  ghost predicate Matchless(s: string)
  {
    forall i: nat, n: nat :: !MatchAt(s, i, n)
  }

  // The leftmost match.
  ghost predicate Leftmost(s: string, i: nat, n: nat)
  {
    MatchAt(s, i, n) && forall j: nat, m: nat | j < i :: !MatchAt(s, j, m)
  }

  // A message is read by the text its leftmost match captures.
  lemma MessageReading(message: string, i: nat, n: nat)
    requires Leftmost(message, i, n)
    ensures ParseImagePullDuration(message) == ParseDuration(message[i + 1..][..n])
  {
    CaptureLeftmost(message, i, n);
  }

  // Without a match it is unreadable.
  lemma MessageUnreadable(message: string)
    requires Matchless(message)
    ensures ParseImagePullDuration(message).None?
  {
    CaptureNothing(message);
  }

  // ---- Round trip ----

  lemma {:induction false} LeadingDigitsOf(d: string, rest: string)
    requires forall i | 0 <= i < |d| :: IsDigit(d[i])
    requires rest == [] || !IsDigit(rest[0])
    ensures LeadingDigits(d + rest) == |d|
  {
    if d == [] {
      assert d + rest == rest;
    } else {
      LeadingDigitsOf(d[1..], rest);
      assert (d + rest)[1..] == d[1..] + rest;
    }
  }

  lemma {:induction false} UnitLengthOf(u: string, rest: string)
    requires forall i | 0 <= i < |u| :: u[i] != '.' && !IsDigit(u[i])
    requires rest == [] || IsDigit(rest[0])
    ensures UnitLength(u + rest) == |u|
  {
    if u == [] {
      assert u + rest == rest;
    } else {
      UnitLengthOf(u[1..], rest);
      assert (u + rest)[1..] == u[1..] + rest;
    }
  }

  predicate Wordlike(u: string)
  {
    u != [] && forall i | 0 <= i < |u| :: u[i] != '.' && !IsDigit(u[i])
  }

  predicate AllDigits(d: string)
  {
    forall i | 0 <= i < |d| :: IsDigit(d[i])
  }

  lemma Cut(a: string, b: string)
    ensures (a + b)[..|a|] == a && (a + b)[|a|..] == b
  {
  }

  // A term without a fraction, and the terms after it.
  lemma ScanWhole(d: string, u: string, rest: string)
    requires AllDigits(d) && Wordlike(u) && (rest == [] || IsDigit(rest[0]))
    ensures ScanAll(d + (u + rest)) == [Term(d, [], u)] + ScanAll(rest)
  {
    LeadingDigitsOf(d, u + rest);
    Cut(d, u + rest);
    UnitLengthOf(u, rest);
    Cut(u, rest);
  }

  // A term with a fraction.
  lemma ScanFraction(d: string, f: string, u: string, rest: string)
    requires AllDigits(d) && AllDigits(f) && Wordlike(u) && (rest == [] || IsDigit(rest[0]))
    ensures ScanAll(d + ("." + (f + (u + rest)))) == [Term(d, f, u)] + ScanAll(rest)
  {
    var tail := f + (u + rest);
    LeadingDigitsOf(d, "." + tail);
    Cut(d, "." + tail);
    Cut(".", tail);
    LeadingDigitsOf(f, u + rest);
    Cut(f, u + rest);
    UnitLengthOf(u, rest);
    Cut(u, rest);
  }

  function FractionDigits(ms: nat): string
    requires 0 < ms < 1000
  {
    Fraction(ms)[1..]
  }

  // The three digits of a number below a thousand.
  lemma ThreeDigits(ms: nat, q: nat)
    requires ms < 1000 && q == ms / 10
    ensures ms / 100 == q / 10 && ms == 10 * q + ms % 10 && q == 10 * (q / 10) + q % 10
    ensures ms % 100 == 10 * (q % 10) + ms % 10
  {
  }

  lemma FractionDigitsAre(ms: nat)
    requires 0 < ms < 1000
    ensures ms == 100 * (ms / 100) + 10 * (ms / 10 % 10) + ms % 10
    ensures FractionDigits(ms) ==
            if ms / 10 % 10 == ms % 10 == 0 then [Digit(ms / 100)]
            else if ms % 10 == 0 then [Digit(ms / 100), Digit(ms / 10 % 10)]
            else [Digit(ms / 100), Digit(ms / 10 % 10), Digit(ms % 10)]
  {
    ThreeDigits(ms, ms / 10);
  }

  lemma FractionIsDigits(ms: nat)
    requires 0 < ms < 1000
    ensures AllDigits(FractionDigits(ms)) && Fraction(ms) == "." + FractionDigits(ms)
  {
  }

  lemma Nanos1(a: nat)
    requires a < 10
    ensures FractionNanos([Digit(a)], SECOND) == 100 * a * MILLISECOND
  {
  }

  lemma Nanos2(a: nat, b: nat)
    requires a < 10 && b < 10
    ensures FractionNanos([Digit(a), Digit(b)], SECOND) == (100 * a + 10 * b) * MILLISECOND
  {
    assert [Digit(a), Digit(b)][1..] == [Digit(b)];
    Nanos1(b);
  }

  lemma Nanos3(a: nat, b: nat, c: nat)
    requires a < 10 && b < 10 && c < 10
    ensures FractionNanos([Digit(a), Digit(b), Digit(c)], SECOND) == (100 * a + 10 * b + c) * MILLISECOND
  {
    assert [Digit(a), Digit(b), Digit(c)][1..] == [Digit(b), Digit(c)];
    Nanos2(b, c);
  }

  // The printed fraction of a second is worth its milliseconds.
  lemma FractionWorth(ms: nat)
    requires 0 < ms < 1000
    ensures FractionNanos(FractionDigits(ms), SECOND) == ms * MILLISECOND
  {
    FractionDigitsAre(ms);
    Nanos1(ms / 100);
    Nanos2(ms / 100, ms / 10 % 10);
    Nanos3(ms / 100, ms / 10 % 10, ms % 10);
  }

  // The last term of a printed duration.
  function SecondsTerm(secs: nat, ms: nat): Term
    requires ms < 1000
  {
    Term(Dec(secs), if ms == 0 then [] else FractionDigits(ms), "s")
  }

  lemma ScanSeconds(secs: nat, ms: nat)
    requires ms < 1000
    ensures ScanAll(Dec(secs) + (Fraction(ms) + "s")) == [SecondsTerm(secs, ms)]
  {
    DecIsDigits(secs);
    if ms == 0 {
      assert Fraction(ms) + "s" == "s" + [];
      ScanWhole(Dec(secs), "s", []);
    } else {
      FractionIsDigits(ms);
      FractionText(ms);
      ScanFraction(Dec(secs), FractionDigits(ms), "s", []);
    }
  }

  lemma FractionText(ms: nat)
    requires 0 < ms < 1000
    ensures Fraction(ms) + "s" == "." + (FractionDigits(ms) + ("s" + []))
  {
  }

  lemma WholeValue(n: nat, u: string, unit: nat)
    requires Unit(u) == Some(unit) && n <= LIMIT && n * unit <= LIMIT
    ensures TermValue(Term(Dec(n), [], u)) == Some(n * unit)
  {
    DecIsDigits(n);
    UndecDec(n);
  }

  lemma SecondsValue(secs: nat, ms: nat)
    requires ms < 1000 && secs * SECOND + ms * MILLISECOND < LIMIT
    ensures TermValue(SecondsTerm(secs, ms)) == Some(secs * SECOND + ms * MILLISECOND)
  {
    if ms == 0 {
      WholeValue(secs, "s", SECOND);
    } else {
      DecIsDigits(secs);
      UndecDec(secs);
      FractionWorth(ms);
      assert Unit("s") == Some(SECOND);
    }
  }

  lemma SumOne(t: Term, rest: seq<Term>, v: nat, acc: nat)
    requires TermValue(t) == Some(v) && acc + v <= LIMIT
    ensures Sum([t] + rest, acc) == Sum(rest, acc + v)
  {
  }

  // ParseDuration reads back what Duration.String prints.
  lemma DurationRoundTrip(ms: nat)
    requires ms * MILLISECOND < LIMIT
    ensures ParseDuration(DurationText(ms)) == Some(ms * MILLISECOND)
  {
    if ms < 1000 {
      ShortRoundTrip(ms);
    } else {
      LongRoundTrip(ms);
    }
  }

  lemma ZeroText()
    ensures DurationText(0) == Dec(0) + "s"
  {
  }

  lemma ShortRoundTrip(ms: nat)
    requires ms < 1000
    ensures ParseDuration(DurationText(ms)) == Some(ms * MILLISECOND)
  {
    if ms == 0 {
      ZeroText();
      assert Unit("s") == Some(SECOND);
      OneTerm(0, "s", SECOND);
    } else {
      MillisRoundTrip(ms);
    }
  }

  lemma MillisRoundTrip(ms: nat)
    requires 0 < ms < 1000
    ensures ParseDuration(DurationText(ms)) == Some(ms * MILLISECOND)
  {
    assert DurationText(ms) == Dec(ms) + "ms";
    assert Unit("ms") == Some(MILLISECOND);
    OneTerm(ms, "ms", MILLISECOND);
  }

  lemma OneTerm(n: nat, u: string, unit: nat)
    requires Wordlike(u) && Unit(u) == Some(unit) && n <= LIMIT && n * unit < LIMIT
    ensures ParseDuration(Dec(n) + u) == Some(n * unit)
  {
    DecIsDigits(n);
    assert u + [] == u;
    ScanWhole(Dec(n), u, []);
    NotBareZero(Dec(n), u);
    WholeValue(n, u, unit);
    SumOne(Term(Dec(n), [], u), [], n * unit, 0);
  }

  // A number of any unit is read as so many of it, if that is below the limit.
  lemma UnitRead(n: nat, u: string, unit: nat)
    requires (u, unit) in {("ns", 1), ("us", 1_000), ("ms", 1_000_000), ("s", 1_000_000_000), ("m", 60_000_000_000),
                           ("h", 3600_000_000_000)}
    requires n * unit < LIMIT
    ensures ParseDuration(Dec(n) + u) == Some(n * unit)
  {
    assert Unit(u) == Some(unit);
    OneTerm(n, u, unit);
  }

  lemma NoUnit(u: string)
    requires u !in {"ns", "us", "ms", "s", "m", "h"}
    ensures Unit(u).None?
  {
    if |u| == 1 {
      assert u == [u[0]];
    } else if |u| == 2 {
      assert u == [u[0], u[1]];
    }
  }

  // A number with any other word after it is not read.
  lemma WordsUnread(n: nat, u: string)
    requires Wordlike(u) && u !in {"ns", "us", "ms", "s", "m", "h"}
    ensures ParseDuration(Dec(n) + u).None?
  {
    NoUnit(u);
    DecIsDigits(n);
    assert u + [] == u;
    ScanWhole(Dec(n), u, []);
    NotBareZero(Dec(n), u);
  }

  lemma NotBareZero(d: string, rest: string)
    requires d != [] && rest != []
    ensures d + rest != "0" && d + rest != []
  {
  }

  lemma StartsWithDigit(n: nat, rest: string)
    ensures Dec(n) + rest != [] && IsDigit((Dec(n) + rest)[0])
  {
  }

  // The printed text, grouped the way it is parsed.
  lemma LongText(ms: nat, ending: string)
    requires 1000 <= ms && ending == Fraction(ms % 1000) + "s"
    ensures var secs := ms / 1000;
            var seconds := Dec(secs % 60) + ending;
            var tail := Dec(secs / 60 % 60) + ("m" + seconds);
            DurationText(ms) == if secs >= 3600 then Dec(secs / 3600) + ("h" + tail) else if secs >= 60 then tail
                else seconds
  {
    var secs := ms / 1000;
    var h, m, s, f := Dec(secs / 3600), Dec(secs / 60 % 60), Dec(secs % 60), Fraction(ms % 1000);
    if secs >= 3600 {
      Regroup(h, m, s, f);
    } else if secs >= 60 {
      Regroup([], m, s, f);
      assert DurationText(ms) == [] + (m + "m") + s + f + "s";
      assert [] + (m + "m") == m + "m";
    } else {
      assert DurationText(ms) == [] + [] + s + f + "s";
      assert [] + [] + s == s;
    }
  }

  lemma Regroup(h: string, m: string, s: string, f: string)
    ensures (h + "h") + (m + "m") + s + f + "s" == h + ("h" + (m + ("m" + (s + (f + "s")))))
    ensures (m + "m") + s + f + "s" == m + ("m" + (s + (f + "s")))
    ensures s + f + "s" == s + (f + "s")
  {
  }

  function Printed(present: bool, n: nat, u: string): seq<Term>
  {
    if present then [Term(Dec(n), [], u)] else []
  }

  lemma ScanMinutes(m: nat, seconds: string, last: Term)
    requires ScanAll(seconds) == [last] && seconds != [] && IsDigit(seconds[0])
    ensures ScanAll(Dec(m) + ("m" + seconds)) == [Term(Dec(m), [], "m"), last]
  {
    DecIsDigits(m);
    ScanWhole(Dec(m), "m", seconds);
  }

  lemma ScanHours(h: nat, tail: string, minutes: Term, last: Term)
    requires ScanAll(tail) == [minutes, last] && tail != [] && IsDigit(tail[0])
    ensures ScanAll(Dec(h) + ("h" + tail)) == [Term(Dec(h), [], "h"), minutes, last]
  {
    DecIsDigits(h);
    ScanWhole(Dec(h), "h", tail);
  }

  // Every printed duration of a second or more ends in "s".
  lemma LongNotZero(ms: nat)
    requires 1000 <= ms
    ensures DurationText(ms) != [] && DurationText(ms) != "0"
  {
  }

  // A printed duration of a second or more: hours only with minutes.
  function Joined(h: nat, m: nat, seconds: string, minutes: bool): string
  {
    if h > 0 then Dec(h) + ("h" + (Dec(m) + ("m" + seconds)))
    else if minutes then Dec(m) + ("m" + seconds)
    else seconds
  }

  lemma JoinedScan(h: nat, m: nat, seconds: string, last: Term, minutes: bool)
    requires h > 0 ==> minutes
    requires ScanAll(seconds) == [last] && seconds != [] && IsDigit(seconds[0])
    ensures ScanAll(Joined(h, m, seconds, minutes)) == Printed(h > 0, h, "h") + Printed(minutes, m, "m") + [last]
  {
    if minutes {
      ScanMinutes(m, seconds, last);
    }
    if h > 0 {
      StartsWithDigit(m, "m" + seconds);
      ScanHours(h, Dec(m) + ("m" + seconds), Term(Dec(m), [], "m"), last);
    }
  }

  lemma LongJoined(ms: nat, seconds: string)
    requires 1000 <= ms && seconds == Dec(ms / 1000 % 60) + (Fraction(ms % 1000) + "s")
    ensures DurationText(ms) == Joined(ms / 1000 / 3600, ms / 1000 / 60 % 60, seconds, ms / 1000 >= 60)
  {
    LongText(ms, Fraction(ms % 1000) + "s");
  }

  lemma LongScan(ms: nat)
    requires 1000 <= ms
    ensures ScanAll(DurationText(ms)) ==
              Printed(ms / 1000 / 3600 > 0, ms / 1000 / 3600, "h")
              + Printed(ms / 1000 >= 60, ms / 1000 / 60 % 60, "m")
              + [SecondsTerm(ms / 1000 % 60, ms % 1000)]
  {
    var ending := Fraction(ms % 1000) + "s";
    var seconds := Dec(ms / 1000 % 60) + ending;
    LongJoined(ms, seconds);
    ScanSeconds(ms / 1000 % 60, ms % 1000);
    StartsWithDigit(ms / 1000 % 60, ending);
    JoinedScan(ms / 1000 / 3600, ms / 1000 / 60 % 60, seconds, SecondsTerm(ms / 1000 % 60, ms % 1000), ms / 1000 >= 60);
  }

  // Optional terms: worth v when present, v == 0 when not.
  predicate Worth(terms: seq<Term>, v: nat)
  {
    if terms == [] then v == 0 else |terms| == 1 && TermValue(terms[0]) == Some(v)
  }

  lemma SumOptional(terms: seq<Term>, rest: seq<Term>, v: nat, acc: nat)
    requires Worth(terms, v) && acc + v <= LIMIT
    ensures Sum(terms + rest, acc) == Sum(rest, acc + v)
  {
    if terms == [] {
      assert terms + rest == rest;
    } else {
      assert terms == [terms[0]];
      SumOne(terms[0], rest, v, acc);
    }
  }

  lemma SumThree(hours: seq<Term>, minutes: seq<Term>, seconds: seq<Term>, h: nat, m: nat, s: nat)
    requires Worth(hours, h) && Worth(minutes, m) && Worth(seconds, s) && h + m + s < LIMIT
    ensures Sum(hours + minutes + seconds, 0) == Some(h + m + s)
  {
    assert hours + minutes + seconds == hours + (minutes + (seconds + []));
    SumOptional(hours, minutes + (seconds + []), h, 0);
    SumOptional(minutes, seconds + [], m, h);
    SumOptional(seconds, [], s, h + m);
  }

  lemma OptionalTerm(present: bool, n: nat, u: string, unit: nat)
    requires Unit(u) == Some(unit) && n <= LIMIT && n * unit <= LIMIT && (!present ==> n == 0)
    ensures Worth(Printed(present, n, u), n * unit)
  {
    WholeValue(n, u, unit);
  }

  lemma SplitTime(ms: nat, h: nat, m: nat, s: nat)
    requires h == ms / 1000 / 3600 && m == ms / 1000 / 60 % 60 && s == ms / 1000 % 60
    ensures h * HOUR + m * MINUTE + (s * SECOND + ms % 1000 * MILLISECOND) == ms * MILLISECOND
    ensures ms / 1000 < 60 ==> m == 0
  {
  }

  lemma LongSum(h: nat, m: nat, s: nat, ms: nat, minutes: bool)
    requires ms < 1000 && h * HOUR + m * MINUTE + (s * SECOND + ms * MILLISECOND) < LIMIT
    requires !minutes ==> m == 0
    ensures Sum(Printed(h > 0, h, "h") + Printed(minutes, m, "m") + [SecondsTerm(s, ms)], 0)
            == Some(h * HOUR + m * MINUTE + (s * SECOND + ms * MILLISECOND))
  {
    assert Unit("h") == Some(HOUR) && Unit("m") == Some(MINUTE);
    OptionalTerm(h > 0, h, "h", HOUR);
    OptionalTerm(minutes, m, "m", MINUTE);
    SecondsValue(s, ms);
    SumThree(Printed(h > 0, h, "h"), Printed(minutes, m, "m"), [SecondsTerm(s, ms)],
             h * HOUR, m * MINUTE, s * SECOND + ms * MILLISECOND);
  }

  lemma ParsedAs(text: string, terms: seq<Term>, v: nat)
    requires text != [] && text != "0" && ScanAll(text) == terms && Sum(terms, 0) == Some(v)
    ensures ParseDuration(text) == Some(v)
  {
  }

  lemma LongSumIs(ms: nat, h: nat, m: nat, s: nat, minutes: bool, terms: seq<Term>)
    requires ms * MILLISECOND < LIMIT && (!minutes ==> m == 0)
    requires h * HOUR + m * MINUTE + (s * SECOND + ms % 1000 * MILLISECOND) == ms * MILLISECOND
    requires terms == Printed(h > 0, h, "h") + Printed(minutes, m, "m") + [SecondsTerm(s, ms % 1000)]
    ensures Sum(terms, 0) == Some(ms * MILLISECOND)
  {
    LongSum(h, m, s, ms % 1000, minutes);
  }

  lemma LongScanIs(ms: nat, h: nat, m: nat, s: nat, minutes: bool) returns (terms: seq<Term>)
    requires 1000 <= ms && minutes == (ms / 1000 >= 60)
    requires h == ms / 1000 / 3600 && m == ms / 1000 / 60 % 60 && s == ms / 1000 % 60
    ensures terms == Printed(h > 0, h, "h") + Printed(minutes, m, "m") + [SecondsTerm(s, ms % 1000)]
    ensures ScanAll(DurationText(ms)) == terms
  {
    terms := Printed(h > 0, h, "h") + Printed(minutes, m, "m") + [SecondsTerm(s, ms % 1000)];
    LongScan(ms);
  }

  lemma LongRoundTrip(ms: nat)
    requires 1000 <= ms && ms * MILLISECOND < LIMIT
    ensures ParseDuration(DurationText(ms)) == Some(ms * MILLISECOND)
  {
    var h, m, s, minutes := ms / 1000 / 3600, ms / 1000 / 60 % 60, ms / 1000 % 60, ms / 1000 >= 60;
    var terms := LongScanIs(ms, h, m, s, minutes);
    SplitTime(ms, h, m, s);
    LongSumIs(ms, h, m, s, minutes, terms);
    LongNotZero(ms);
    ParsedAs(DurationText(ms), terms, ms * MILLISECOND);
  }

  // ---- The whole message ----

  // "Successfully pulled image ... in <d1> (<D2> including waiting)..."
  function PullMessage(before: string, ms: nat, after: string): string
  {
    before + ("(" + (DurationText(ms) + (WAITING + after)))
  }

  lemma {:induction false} CaptureSkips(before: string, s: string, waiting: string)
    requires forall i | 0 <= i < |before| :: before[i] != '('
    ensures Capture(before + s, waiting) == Capture(s, waiting)
  {
    if before == [] {
      assert before + s == s;
    } else {
      CaptureSkips(before[1..], s, waiting);
      assert (before + s)[1..] == before[1..] + s;
      assert (before + s)[0] == before[0];
    }
  }

  lemma {:induction false} ClassRunOf(d: string, rest: string)
    requires forall i | 0 <= i < |d| :: InClass(d[i])
    requires rest == [] || !InClass(rest[0])
    ensures ClassRun(d + rest) == |d|
  {
    if d == [] {
      assert d + rest == rest;
    } else {
      ClassRunOf(d[1..], rest);
      assert (d + rest)[1..] == d[1..] + rest;
    }
  }

  predicate AllInClass(s: string)
  {
    forall i | 0 <= i < |s| :: InClass(s[i])
  }

  lemma CaptureHere(d: string, waiting: string, after: string)
    requires d != [] && AllInClass(d) && waiting != [] && !InClass(waiting[0])
    ensures Capture("(" + (d + (waiting + after)), waiting) == Some(d)
  {
    var body := d + (waiting + after);
    var s := "(" + body;
    Cut("(", body);
    assert (waiting + after)[0] == waiting[0];
    ClassRunOf(d, waiting + after);
    Cut(d, waiting + after);
    Cut(waiting, after);
  }

  lemma DecInClass(n: nat)
    ensures AllInClass(Dec(n))
  {
  }

  lemma JoinInClass(a: string, b: string)
    requires AllInClass(a) && AllInClass(b)
    ensures AllInClass(a + b)
  {
  }

  lemma LongTextInClass(h: string, m: string, s: string, ending: string)
    requires AllInClass(h) && AllInClass(m) && AllInClass(s) && AllInClass(ending)
    ensures AllInClass(s + ending)
    ensures AllInClass(m + ("m" + (s + ending)))
    ensures AllInClass(h + ("h" + (m + ("m" + (s + ending)))))
  {
  }

  lemma EndingInClass(ms: nat)
    requires ms < 1000
    ensures AllInClass(Fraction(ms) + "s")
  {
  }

  lemma DurationTextInClass(ms: nat)
    ensures DurationText(ms) != [] && AllInClass(DurationText(ms))
  {
    if 0 < ms < 1000 {
      DecInClass(ms);
      JoinInClass(Dec(ms), "ms");
    } else if ms >= 1000 {
      var secs := ms / 1000;
      var ending := Fraction(ms % 1000) + "s";
      LongText(ms, ending);
      LongNotZero(ms);
      DecInClass(secs % 60);
      DecInClass(secs / 60 % 60);
      DecInClass(secs / 3600);
      EndingInClass(ms % 1000);
      LongTextInClass(Dec(secs / 3600), Dec(secs / 60 % 60), Dec(secs % 60), ending);
    }
  }

  // The checker reads from the kubelet's message exactly the pull duration printed there, whatever
  // precedes it without an opening parenthesis and whatever follows.
  lemma PullDurationRoundTrip(before: string, ms: nat, after: string)
    requires forall i | 0 <= i < |before| :: before[i] != '('
    requires ms * MILLISECOND < LIMIT
    ensures ParseImagePullDuration(PullMessage(before, ms, after)) == Some(ms * MILLISECOND)
  {
    var d := DurationText(ms);
    CaptureSkips(before, "(" + (d + (WAITING + after)), WAITING);
    DurationTextInClass(ms);
    CaptureHere(d, WAITING, after);
    DurationRoundTrip(ms);
  }
}
