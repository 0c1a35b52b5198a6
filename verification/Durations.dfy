/**
 The Go duration strings of `renewBefore` and `duration`.

 `parse_go_duration` scans the text for every match of a number followed by a
 unit, skipping over what does not match, and then rejects the text unless the
 matches glued back together are the text itself. The lemmas below say what
 that scan-and-rejoin accepts, and what the accepted texts are worth.
 */
module Durations {
  import opened Wrappers

  predicate IsDigit(c: char) { '0' <= c <= '9' }

  predicate IsUnit(c: char) { c == 'h' || c == 'm' || c == 's' }

  /** The characters `str.strip` removes. */
  predicate IsSpace(c: char) {
    var n := c as int;
    || 9 <= n <= 13 || 28 <= n <= 32 || n == 0x85 || n == 0xA0 || n == 0x1680 || 0x2000 <= n <= 0x200A
    || n == 0x2028 || n == 0x2029 || n == 0x202F || n == 0x205F || n == 0x3000
  }

  function TrimLeft(s: string): string {
    if s != "" && IsSpace(s[0]) then TrimLeft(s[1..]) else s
  }

  function TrimRight(s: string): string {
    if s != "" && IsSpace(s[|s| - 1]) then TrimRight(s[..|s| - 1]) else s
  }

  function Trim(s: string): string { TrimRight(TrimLeft(s)) }

  predicate AllSpaces(s: string) { forall k | 0 <= k < |s| :: IsSpace(s[k]) }

  lemma {:induction false} LeftIsTrimmed(s: string) returns (i: nat)
    ensures i <= |s| && TrimLeft(s) == s[i..] && AllSpaces(s[..i]) && (i < |s| ==> !IsSpace(s[i]))
  {
    i := 0;
    if s != "" && IsSpace(s[0]) {
      var rest := LeftIsTrimmed(s[1..]);
      i := rest + 1;
      assert s[i..] == s[1..][rest..] && s[..i] == [s[0]] + s[1..][..rest];
    }
  }

  lemma {:induction false} RightIsTrimmed(s: string) returns (j: nat)
    ensures j <= |s| && TrimRight(s) == s[..j] && AllSpaces(s[j..]) && (0 < j ==> !IsSpace(s[j - 1]))
  {
    j := |s|;
    if s != "" && IsSpace(s[|s| - 1]) {
      var front, last := s[..|s| - 1], s[|s| - 1];
      j := RightIsTrimmed(front);
      assert s[..j] == front[..j] && s[j..] == front[j..] + [last];
    }
  }

  /** Trimming takes away the spaces at either end and nothing else. */
  lemma TrimIsExact(s: string) returns (i: nat, j: nat)
    ensures i <= j <= |s| && Trim(s) == s[i..j] && AllSpaces(s[..i]) && AllSpaces(s[j..])
    ensures i < j ==> !IsSpace(s[i]) && !IsSpace(s[j - 1])
  {
    i := LeftIsTrimmed(s);
    var rest := s[i..];
    var n := RightIsTrimmed(rest);
    j := i + n;
    assert s[i..j] == rest[..n] && s[j..] == rest[n..];
  }

  // -- What one match of the regular expression is ------------------------------

  /** How many digits `s` starts with: what a greedy `\d+` consumes. */
  function DigitRun(s: string): (n: nat)
    ensures n <= |s|
    ensures forall i | 0 <= i < n :: IsDigit(s[i])
    ensures n < |s| ==> !IsDigit(s[n])
  {
    if s != "" && IsDigit(s[0]) then 1 + DigitRun(s[1..]) else 0
  }

  /** The length of the match at the start of `s`, with the optional fraction tried first. */
  function MatchLength(s: string): (m: Option<nat>)
    ensures m.Some? ==> 2 <= m.value <= |s|
  {
    var q := DigitRun(s);
    if q == 0 || q == |s| then None
    else if s[q] == '.' then
      var f := DigitRun(s[q + 1..]);
      if f > 0 && q + 1 + f < |s| && IsUnit(s[q + 1 + f]) then Some(q + f + 2) else None
    else if IsUnit(s[q]) then Some(q + 1)
    else None
  }

  /** Every match in `s`, left to right; characters where no match starts are skipped. */
  function Matches(s: string): seq<string>
    decreases |s|
  {
    if s == "" then []
    else match MatchLength(s)
      case Some(n) => [s[..n]] + Matches(s[n..])
      case None => Matches(s[1..])
  }

  function Join(parts: seq<string>): string {
    if parts == [] then "" else parts[0] + Join(parts[1..])
  }

  // -- What a match is worth -----------------------------------------------------

  function DigitValue(c: char): nat {
    if IsDigit(c) then c as int - '0' as int else 0
  }

  function DecimalValue(digits: string): nat {
    if digits == "" then 0
    else 10 * DecimalValue(digits[..|digits| - 1]) + DigitValue(digits[|digits| - 1])
  }

  function PowerOfTen(n: nat): real {
    if n == 0 then 1.0 else 10.0 * PowerOfTen(n - 1)
  }

  lemma PowerOfTenPositive(n: nat)
    ensures PowerOfTen(n) >= 1.0
  {
  }

  function UnitSeconds(c: char): int {
    if c == 'h' then 3600 else if c == 'm' then 60 else 1
  }

  predicate IsWhole(s: string) { s != "" && forall i | 0 <= i < |s| :: IsDigit(s[i]) }

  /** A number-unit token: digits, optionally a point and more digits, then a unit. */
  ghost predicate IsToken(s: string) {
    && |s| >= 2
    && IsUnit(s[|s| - 1])
    && (IsWhole(s[..|s| - 1])
        || exists i :: 0 < i < |s| - 2 && s[i] == '.' && IsWhole(s[..i]) && IsWhole(s[i + 1..|s| - 1]))
  }

  /** What digits are worth in a unit of so many seconds, when the last `places` of them stand after the point. */
  function Worth(digits: string, places: nat, unit: int): real {
    PowerOfTenPositive(places);
    DecimalValue(digits) as real / PowerOfTen(places) * unit as real
  }

  /** The seconds a token stands for: its amount times its unit. */
  function TokenSeconds(s: string): real {
    if s == "" then 0.0
    else
      var q := DigitRun(s);
      var unit := UnitSeconds(s[|s| - 1]);
      if q + 1 < |s| && s[q] == '.' then
        var f := DigitRun(s[q + 1..]);
        Worth(s[..q] + s[q + 1..][..f], f, unit)
      else
        Worth(s[..q], 0, unit)
  }

  function SecondsOf(tokens: seq<string>): real {
    if tokens == [] then 0.0 else TokenSeconds(tokens[0]) + SecondsOf(tokens[1..])
  }

  /** What `parse_go_duration` returns or raises. */
  function Parse(value: string): Result<real> {
    var text := Trim(value);
    if text == "" then Failure("empty duration")
    else
      var tokens := Matches(text);
      if tokens == [] || Join(tokens) != text then Failure("not a Go duration")
      else Success(SecondsOf(tokens))
  }

  lemma SecondsSnoc(tokens: seq<string>, i: nat)
    requires i < |tokens|
    ensures SecondsOf(tokens[..i + 1]) == SecondsOf(tokens[..i]) + TokenSeconds(tokens[i])
  {
    SecondsConcat(tokens[..i], [tokens[i]]);
    assert tokens[..i + 1] == tokens[..i] + [tokens[i]];
    assert SecondsOf([tokens[i]]) == TokenSeconds(tokens[i]) + SecondsOf([]);
  }

  method ParseGoDuration(value: string) returns (r: Result<real>)
    ensures r == Parse(value)
  {
    var text := Trim(value);
    if text == "" {
      return Failure("empty duration");
    }
    var tokens := Matches(text);
    if tokens == [] || Join(tokens) != text {
      return Failure("not a Go duration");
    }
    var seconds := 0.0;
    for i := 0 to |tokens|
      invariant seconds == SecondsOf(tokens[..i])
    {
      SecondsSnoc(tokens, i);
      seconds := seconds + TokenSeconds(tokens[i]);
    }
    assert tokens[..|tokens|] == tokens;
    return Success(seconds);
  }

  // -- The scan accepts exactly the concatenations of tokens -----------------------

  ghost predicate AllTokens(tokens: seq<string>) {
    forall i | 0 <= i < |tokens| :: IsToken(tokens[i])
  }

  /** `text` is one or more number-unit tokens and nothing else. */
  ghost predicate IsDuration(text: string) {
    exists tokens: seq<string> :: tokens != [] && AllTokens(tokens) && Join(tokens) == text
  }

  /** A digit run is fixed by where it stops. */
  lemma {:induction false} DigitRunIs(s: string, n: nat)
    requires n < |s|
    requires forall i | 0 <= i < n :: IsDigit(s[i])
    requires !IsDigit(s[n])
    ensures DigitRun(s) == n
  {
    if n > 0 {
      assert forall i | 0 <= i < n - 1 :: s[1..][i] == s[i + 1];
      DigitRunIs(s[1..], n - 1);
    }
  }

  lemma WholeMatches(t: string, rest: string)
    requires |t| >= 2 && IsUnit(t[|t| - 1]) && IsWhole(t[..|t| - 1])
    ensures MatchLength(t + rest) == Some(|t|)
  {
    var s, n := t + rest, |t| - 1;
    forall i | 0 <= i < n ensures IsDigit(s[i]) { assert s[i] == t[..n][i]; }
    DigitRunIs(s, n);
  }

  lemma DigitRunFrom(s: string, lo: nat, n: nat)
    requires lo + n < |s| && (forall k | lo <= k < lo + n :: IsDigit(s[k])) && !IsDigit(s[lo + n])
    ensures DigitRun(s[lo..]) == n
  {
    var tail := s[lo..];
    forall k | 0 <= k < n ensures IsDigit(tail[k]) { assert tail[k] == s[lo + k]; }
    DigitRunIs(tail, n);
  }

  lemma FractionAt(s: string, point: nat, n: nat)
    requires 0 < point < n - 1 && n < |s| && s[point] == '.' && IsUnit(s[n])
    requires (forall k | 0 <= k < point :: IsDigit(s[k])) && (forall k | point < k < n :: IsDigit(s[k]))
    ensures MatchLength(s) == Some(n + 1)
  {
    DigitRunIs(s, point);
    DigitRunFrom(s, point + 1, n - point - 1);
  }

  lemma FractionMatches(t: string, point: nat, rest: string)
    requires 0 < point < |t| - 2 && IsUnit(t[|t| - 1])
    requires t[point] == '.' && IsWhole(t[..point]) && IsWhole(t[point + 1..|t| - 1])
    ensures MatchLength(t + rest) == Some(|t|)
  {
    var s, n := t + rest, |t| - 1;
    forall k | 0 <= k < point ensures IsDigit(s[k]) { assert s[k] == t[..point][k]; }
    forall k | point < k < n ensures IsDigit(s[k]) { assert s[k] == t[k] == t[point + 1..n][k - point - 1]; }
    FractionAt(s, point, n);
  }

  /** Greedy matching finds a leading token whatever follows it. */
  lemma TokenMatches(t: string, rest: string)
    requires IsToken(t)
    ensures MatchLength(t + rest) == Some(|t|)
  {
    if IsWhole(t[..|t| - 1]) {
      WholeMatches(t, rest);
    } else {
      var i: nat :| 0 < i < |t| - 2 && t[i] == '.' && IsWhole(t[..i]) && IsWhole(t[i + 1..|t| - 1]);
      FractionMatches(t, i, rest);
    }
  }

  /** What the regular expression matches is a token. */
  lemma MatchIsToken(s: string)
    requires MatchLength(s).Some?
    ensures IsToken(s[..MatchLength(s).value])
  {
    var n := MatchLength(s).value;
    var t := s[..n];
    var q := DigitRun(s);
    if s[q] == '.' {
      var f := DigitRun(s[q + 1..]);
      assert t[q] == '.' && n == q + f + 2;
      assert IsWhole(t[..q]);
      assert t[q + 1..n - 1] == s[q + 1..][..f];
      assert IsWhole(t[q + 1..n - 1]);
    } else {
      assert IsWhole(t[..n - 1]);
    }
  }

  lemma {:induction false} MatchesAreTokens(s: string)
    ensures AllTokens(Matches(s))
    decreases |s|
  {
    if s != "" {
      match MatchLength(s)
      case Some(n) =>
        MatchIsToken(s);
        MatchesAreTokens(s[n..]);
      case None =>
        MatchesAreTokens(s[1..]);
    }
  }

  lemma ScanTakesToken(t: string, rest: string)
    requires IsToken(t)
    ensures Matches(t + rest) == [t] + Matches(rest)
  {
    var s := t + rest;
    TokenMatches(t, rest);
    assert s[..|t|] == t && s[|t|..] == rest;
  }

  /** Scanning glued tokens finds exactly those tokens. */
  lemma {:induction false} ScanFindsTokens(tokens: seq<string>)
    requires AllTokens(tokens)
    ensures Matches(Join(tokens)) == tokens
  {
    if tokens != [] {
      ScanTakesToken(tokens[0], Join(tokens[1..]));
      ScanFindsTokens(tokens[1..]);
      assert tokens == [tokens[0]] + tokens[1..];
    }
  }

  /** The parser accepts a text exactly when, trimmed, it is one or more tokens and nothing else. */
  lemma AcceptsExactlyDurations(value: string)
    ensures Parse(value).Success? <==> IsDuration(Trim(value))
  {
    var text := Trim(value);
    MatchesAreTokens(text);
    if IsDuration(text) {
      var tokens: seq<string> :| tokens != [] && AllTokens(tokens) && Join(tokens) == text;
      ScanFindsTokens(tokens);
      assert IsToken(tokens[0]);
      assert text == tokens[0] + Join(tokens[1..]);
    }
  }

  // -- Values add up ---------------------------------------------------------------

  lemma {:induction false} SecondsConcat(a: seq<string>, b: seq<string>)
    ensures SecondsOf(a + b) == SecondsOf(a) + SecondsOf(b)
  {
    if a == [] {
      assert a + b == b;
    } else {
      assert (a + b)[1..] == a[1..] + b;
      SecondsConcat(a[1..], b);
    }
  }

  lemma {:induction false} JoinConcat(a: seq<string>, b: seq<string>)
    ensures Join(a + b) == Join(a) + Join(b)
  {
    if a == [] {
      assert a + b == b;
    } else {
      assert (a + b)[1..] == a[1..] + b;
      JoinConcat(a[1..], b);
    }
  }

  /** A text of tokens starts with a digit and ends with a unit, so trimming leaves it alone. */
  lemma {:induction false} DurationNeedsNoTrim(tokens: seq<string>)
    requires AllTokens(tokens) && tokens != []
    ensures var s := Join(tokens); s != "" && IsDigit(s[0]) && IsUnit(s[|s| - 1]) && Trim(s) == s
  {
    var s, t := Join(tokens), tokens[0];
    assert s == t + Join(tokens[1..]);
    assert IsToken(t);
    TokenMatches(t, "");
    assert t + "" == t;
    assert IsDigit(t[0]);
    if |tokens| > 1 {
      DurationNeedsNoTrim(tokens[1..]);
    } else {
      assert s == t;
    }
    assert TrimLeft(s) == s;
  }

  lemma ParseOfTokens(tokens: seq<string>, text: string)
    requires AllTokens(tokens) && tokens != [] && Join(tokens) == text
    ensures Parse(text) == Success(SecondsOf(tokens))
  {
    DurationNeedsNoTrim(tokens);
    ScanFindsTokens(tokens);
  }

  lemma ConcatIsTokens(s: seq<string>, t: seq<string>, u: seq<string>)
    requires AllTokens(s) && AllTokens(t) && u == s + t
    ensures AllTokens(u)
  {
    forall i | 0 <= i < |u| ensures IsToken(u[i]) {
      if i < |s| { assert u[i] == s[i]; } else { assert u[i] == t[i - |s|]; }
    }
  }

  /** The text is one or more tokens, which stand for so many seconds together. */
  ghost predicate Denotes(text: string, seconds: real) {
    exists tokens: seq<string> :: tokens != [] && AllTokens(tokens) && Join(tokens) == text && SecondsOf(tokens) == seconds
  }

  lemma DurationDenotes(text: string) returns (seconds: real)
    requires IsDuration(text)
    ensures Denotes(text, seconds)
  {
    var tokens: seq<string> :| tokens != [] && AllTokens(tokens) && Join(tokens) == text;
    seconds := SecondsOf(tokens);
  }

  lemma DenotedIsParsed(text: string, seconds: real)
    requires Denotes(text, seconds)
    ensures Parse(text) == Success(seconds)
  {
    var tokens: seq<string> :| tokens != [] && AllTokens(tokens) && Join(tokens) == text && SecondsOf(tokens) == seconds;
    ParseOfTokens(tokens, text);
  }

  lemma GluedDenotesSum(a: string, x: real, b: string, y: real, both: string, sum: real)
    requires Denotes(a, x) && Denotes(b, y) && both == a + b && sum == x + y
    ensures Denotes(both, sum)
  {
    var s: seq<string> :| s != [] && AllTokens(s) && Join(s) == a && SecondsOf(s) == x;
    var t: seq<string> :| t != [] && AllTokens(t) && Join(t) == b && SecondsOf(t) == y;
    var u := s + t;
    ConcatIsTokens(s, t, u);
    JoinConcat(s, t);
    SecondsConcat(s, t);
    assert Join(u) == both && SecondsOf(u) == sum;
  }

  /** Parsing the concatenation of two durations gives the sum of what each is worth. */
  lemma ValueIsAdditive(a: string, b: string)
    requires IsDuration(a) && IsDuration(b)
    ensures Parse(a).Success? && Parse(b).Success? && Parse(a + b).Success?
    ensures Parse(a + b).value == Parse(a).value + Parse(b).value
  {
    var x := DurationDenotes(a);
    var y := DurationDenotes(b);
    DenotedIsParsed(a, x);
    DenotedIsParsed(b, y);
    var sum := Parse(a).value + Parse(b).value;
    assert sum == x + y;
    GluedDenotesSum(a, x, b, y, a + b, sum);
    DenotedIsParsed(a + b, sum);
  }

  // -- Printing and parsing back ---------------------------------------------------

  function Decimal(n: nat): (s: string)
    ensures IsWhole(s)
  {
    var last := ['0' + (n % 10) as char];
    if n < 10 then last else Decimal(n / 10) + last
  }

  lemma {:induction false} DecimalRoundTrip(n: nat)
    ensures DecimalValue(Decimal(n)) == n
  {
    var s := Decimal(n);
    var last := ['0' + (n % 10) as char];
    if n < 10 {
      assert s == last && s[..|s| - 1] == "";
    } else {
      DecimalRoundTrip(n / 10);
      assert s[..|s| - 1] == Decimal(n / 10);
    }
  }

  /** Whole hours, minutes and seconds the way Go prints them. */
  function Print(hours: nat, minutes: nat, seconds: nat): string {
    (Decimal(hours) + "h") + (Decimal(minutes) + "m") + (Decimal(seconds) + "s")
  }

  lemma WholeToken(n: nat, unit: char)
    requires IsUnit(unit)
    ensures IsToken(Decimal(n) + [unit])
    ensures TokenSeconds(Decimal(n) + [unit]) == (n * UnitSeconds(unit)) as real
  {
    var d := Decimal(n);
    var t := d + [unit];
    assert t[..|t| - 1] == d;
    forall i | 0 <= i < |d| ensures IsDigit(t[i]) { assert t[i] == d[i]; }
    DigitRunIs(t, |d|);
    assert t[..|d|] == d;
    DecimalRoundTrip(n);
  }

  lemma TokenDenotes(token: string, seconds: real)
    requires IsToken(token) && TokenSeconds(token) == seconds
    ensures Denotes(token, seconds)
  {
    var one := [token];
    assert one[1..] == [];
    assert Join(one) == token + "" == token;
    assert SecondsOf(one) == TokenSeconds(token) + SecondsOf([]);
    assert AllTokens(one);
  }

  lemma PrintDenotes(hours: nat, minutes: nat, seconds: nat, text: string, total: real)
    requires text == Print(hours, minutes, seconds) && total == (3600 * hours + 60 * minutes + seconds) as real
    ensures Denotes(text, total)
  {
    var h, m, s := Decimal(hours) + "h", Decimal(minutes) + "m", Decimal(seconds) + "s";
    var x, y, z := (hours * 3600) as real, (minutes * 60) as real, (seconds * 1) as real;
    WholeToken(hours, 'h');
    WholeToken(minutes, 'm');
    WholeToken(seconds, 's');
    TokenDenotes(h, x);
    TokenDenotes(m, y);
    TokenDenotes(s, z);
    GluedDenotesSum(h, x, m, y, h + m, x + y);
    GluedDenotesSum(h + m, x + y, s, z, h + m + s, x + y + z);
  }

  /** Printing a total and parsing it back returns the same total. */
  lemma PrintParseRoundTrip(hours: nat, minutes: nat, seconds: nat)
    ensures Parse(Print(hours, minutes, seconds)) == Success((3600 * hours + 60 * minutes + seconds) as real)
  {
    var text, total := Print(hours, minutes, seconds), (3600 * hours + 60 * minutes + seconds) as real;
    PrintDenotes(hours, minutes, seconds, text, total);
    DenotedIsParsed(text, total);
  }

  // -- What a fraction is worth --------------------------------------------------------

  lemma RunOfDigits(digits: string, rest: string)
    requires IsWhole(digits) && rest != "" && !IsDigit(rest[0])
    ensures DigitRun(digits + rest) == |digits|
  {
    var all := digits + rest;
    forall i | 0 <= i < |digits| ensures IsDigit(all[i]) { assert all[i] == digits[i]; }
    DigitRunIs(all, |digits|);
  }

  /** Where the parts of a token with a fraction are. */
  lemma FractionLayout(digits: string, fraction: string, unit: char, tail: string, token: string)
    requires IsWhole(digits) && IsWhole(fraction) && IsUnit(unit) && tail == fraction + [unit] && token == digits + ("." + tail)
    ensures var q := |digits|;
      && q + 1 < |token| && token[..q] == digits && token[q] == '.' && token[q + 1..] == tail
      && tail[..|fraction|] == fraction && token[|token| - 1] == unit && token[q + 1..|token| - 1] == fraction
  {
  }

  lemma DigitsToken(digits: string, unit: char, token: string)
    requires IsWhole(digits) && IsUnit(unit) && token == digits + [unit]
    ensures IsToken(token) && TokenSeconds(token) == Worth(digits, 0, UnitSeconds(unit))
  {
    assert token[..|token| - 1] == digits;
    RunOfDigits(digits, [unit]);
  }

  lemma FractionToken(digits: string, fraction: string, unit: char, tail: string, token: string)
    requires IsWhole(digits) && IsWhole(fraction) && IsUnit(unit) && tail == fraction + [unit] && token == digits + ("." + tail)
    ensures IsToken(token) && TokenSeconds(token) == Worth(digits + fraction, |fraction|, UnitSeconds(unit))
  {
    FractionLayout(digits, fraction, unit, tail, token);
    RunOfDigits(digits, "." + tail);
    RunOfDigits(fraction, [unit]);
  }

  /** The same digits with one more of them after the point are worth a tenth. */
  lemma WorthShifts(digits: string, places: nat, next: nat, unit: int)
    requires next == places + 1
    ensures Worth(digits, places, unit) == 10.0 * Worth(digits, next, unit)
  {
    PowerOfTenPositive(places);
    TenthOf(DecimalValue(digits) as real, PowerOfTen(places));
  }

  lemma TenthOf(x: real, p: real)
    requires p >= 1.0
    ensures 10.0 * (x / (10.0 * p)) == x / p
  {
  }

  lemma FractionDenotes(digits: string, fraction: string, unit: char, text: string)
    requires IsWhole(digits) && IsWhole(fraction) && IsUnit(unit) && text == digits + ("." + (fraction + [unit]))
    ensures Denotes(text, Worth(digits + fraction, |fraction|, UnitSeconds(unit)))
  {
    FractionToken(digits, fraction, unit, fraction + [unit], text);
    TokenDenotes(text, TokenSeconds(text));
  }

  lemma DigitsDenote(digits: string, unit: char, text: string)
    requires IsWhole(digits) && IsUnit(unit) && text == digits + [unit]
    ensures Denotes(text, Worth(digits, 0, UnitSeconds(unit)))
  {
    DigitsToken(digits, unit, text);
    TokenDenotes(text, TokenSeconds(text));
  }

  /** These two texts parse to these. */
  lemma BothAreParsed(left: string, x: real, right: string, y: real)
    requires Denotes(left, x) && Denotes(right, y)
    ensures Parse(left) == Success(x) && Parse(right) == Success(y)
  {
    DenotedIsParsed(left, x);
    DenotedIsParsed(right, y);
  }

  lemma ShiftDenotes(digits: string, d: char, fraction: string, unit: char, left: string, right: string)
    returns (x: real, y: real)
    requires IsWhole(digits) && IsDigit(d) && IsWhole(fraction) && IsUnit(unit)
    requires left == digits + ("." + ([d] + fraction + [unit])) && right == digits + [d] + ("." + (fraction + [unit]))
    ensures Denotes(left, x) && Denotes(right, y) && y == 10.0 * x
  {
    var all, places := digits + [d] + fraction, |fraction|;
    assert digits + ([d] + fraction) == all;
    FractionDenotes(digits, [d] + fraction, unit, left);
    FractionDenotes(digits + [d], fraction, unit, right);
    WorthShifts(all, places, places + 1, UnitSeconds(unit));
    x, y := Worth(all, places + 1, UnitSeconds(unit)), Worth(all, places, UnitSeconds(unit));
  }

  /** Moving the point one place to the right makes a duration ten times as long. */
  lemma PointShifts(digits: string, d: char, fraction: string, unit: char, left: string, right: string)
    returns (x: real, y: real)
    requires IsWhole(digits) && IsDigit(d) && IsWhole(fraction) && IsUnit(unit)
    requires left == digits + ("." + ([d] + fraction + [unit])) && right == digits + [d] + ("." + (fraction + [unit]))
    ensures Parse(left) == Success(x) && Parse(right) == Success(y) && y == 10.0 * x
  {
    x, y := ShiftDenotes(digits, d, fraction, unit, left, right);
    BothAreParsed(left, x, right, y);
  }

  /** A point before the last digit makes it a tenth as long. */
  lemma PointDivides(digits: string, d: char, unit: char, left: string, right: string)
    returns (x: real, y: real)
    requires IsWhole(digits) && IsDigit(d) && IsUnit(unit)
    requires left == digits + ("." + ([d] + [unit])) && right == digits + [d] + [unit]
    ensures Parse(left) == Success(x) && Parse(right) == Success(y) && y == 10.0 * x
  {
    var all := digits + [d];
    FractionDenotes(digits, [d], unit, left);
    DigitsDenote(all, unit, right);
    WorthShifts(all, 0, 1, UnitSeconds(unit));
    x, y := Worth(all, 1, UnitSeconds(unit)), Worth(all, 0, UnitSeconds(unit));
    BothAreParsed(left, x, right, y);
  }
}
