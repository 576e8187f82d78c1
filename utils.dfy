/** The helpers of the shared utility file: two validators, two date predicates and three colour tables. */
module Utils {
  import opened Text

  /** Milliseconds in a day: `addDays(now, days)` taken as `now + days * MsPerDay`. */
  const MsPerDay: int := 86_400_000

  /** `isExpired(date)` with the clock read passed in as `now`: the date lies strictly before now. */
  predicate IsExpired(date: int, now: int) {
    date < now
  }

  /** `isExpiringSoon(date, days)`: the date lies before `addDays(now, days)` and after now. */
  predicate IsExpiringSoon(date: int, days: int, now: int) {
    date < now + days * MsPerDay && date > now
  }

  /** A date is never both expired and expiring soon; a date equal to now is neither. */
  lemma ExpiryStatesAreExclusive(date: int, days: int, now: int)
    ensures !(IsExpired(date, now) && IsExpiringSoon(date, days, now))
    ensures date == now ==> !IsExpired(date, now) && !IsExpiringSoon(date, days, now)
  {
  }

  /** With a window of zero or fewer days nothing is expiring soon. */
  lemma NoExpiringWindowWithoutDays(date: int, days: int, now: int)
    requires days <= 0
    ensures !IsExpiringSoon(date, days, now)
  {
  }

  /** `\s` in a JavaScript regular expression: the ECMAScript white space and line terminator characters. */
  predicate IsSpace(c: char) {
    || c == ' ' || c == '\t' || c == '\n' || c == '\U{0B}' || c == '\U{0C}' || c == '\r'
    || c == '\U{A0}' || c == '\U{1680}' || ('\U{2000}' <= c <= '\U{200A}')
    || c == '\U{2028}' || c == '\U{2029}' || c == '\U{202F}' || c == '\U{205F}'
    || c == '\U{3000}' || c == '\U{FEFF}'
  }

  /** `[^\s@]`. */
  predicate EmailChar(c: char) {
    !IsSpace(c) && c != '@'
  }

  predicate AllEmailChars(s: string) {
    forall i :: 0 <= i < |s| ==> EmailChar(s[i])
  }

  /**
   * `/^[^\s@]+@[^\s@]+\.[^\s@]+$/.test(email)`: the string splits into a non-empty run, '@',
   * a non-empty run, '.', and a non-empty run, each run free of white space and '@'.
   */
  predicate ValidateEmail(s: string) {
    exists at :: 0 < at < |s| && s[at] == '@' &&
      exists dot :: at + 1 < dot < |s| - 1 && s[dot] == '.' &&
        AllEmailChars(s[..at]) && AllEmailChars(s[at + 1..dot]) && AllEmailChars(s[dot + 1..])
  }

  /** How many times `c` occurs in `s`. */
  function Occurrences(s: string, c: char): nat {
    if s == [] then 0 else (if s[0] == c then 1 else 0) + Occurrences(s[1..], c)
  }

  lemma {:induction false} OccurrencesConcat(a: string, b: string, c: char)
    ensures Occurrences(a + b, c) == Occurrences(a, c) + Occurrences(b, c)
  {
    if a != [] {
      assert (a + b)[0] == a[0];
      assert (a + b)[1..] == a[1..] + b;
      OccurrencesConcat(a[1..], b, c);
    } else {
      assert a + b == b;
    }
  }

  lemma {:induction false} NoOccurrences(s: string, c: char)
    ensures Occurrences(s, c) == 0 <==> forall i :: 0 <= i < |s| ==> s[i] != c
  {
    if s != [] {
      NoOccurrences(s[1..], c);
      assert forall i :: 1 <= i < |s| ==> s[i] == s[1..][i - 1];
    }
  }

  /** `s` cut around position `k`. */
  lemma SplitAround(s: string, k: int)
    requires 0 <= k < |s|
    ensures s == s[..k] + [s[k]] + s[k + 1..]
  {
  }

  /** Plain statement of what the e-mail pattern asks for, used by `ValidateEmailMeans`. */
  predicate EmailShape(s: string) {
    && (forall i :: 0 <= i < |s| ==> !IsSpace(s[i]))
    && Occurrences(s, '@') == 1
    && exists at :: 0 < at < |s| && s[at] == '@' &&
         exists dot :: at + 1 < dot < |s| - 1 && s[dot] == '.'
  }

  /** Three runs of e-mail characters around an '@' and a '.' hold no white space. */
  lemma PartsHaveNoSpace(s: string, at: int, dot: int)
    requires 0 < at && at + 1 < dot < |s| - 1 && s[at] == '@' && s[dot] == '.'
    requires AllEmailChars(s[..at]) && AllEmailChars(s[at + 1..dot]) && AllEmailChars(s[dot + 1..])
    ensures forall i :: 0 <= i < |s| ==> !IsSpace(s[i])
  {
    forall i | 0 <= i < |s|
      ensures !IsSpace(s[i])
    {
      if i < at {
        assert s[i] == s[..at][i];
      } else if at < i < dot {
        assert s[i] == s[at + 1..dot][i - at - 1];
      } else if dot < i {
        assert s[i] == s[dot + 1..][i - dot - 1];
      }
    }
  }

  /** Three runs of e-mail characters around an '@' and a '.' hold that one '@' only. */
  lemma {:induction false} PartsHaveOneAt(s: string, at: int, dot: int)
    requires 0 < at && at + 1 < dot < |s| - 1 && s[at] == '@' && s[dot] == '.'
    requires AllEmailChars(s[..at]) && AllEmailChars(s[at + 1..dot]) && AllEmailChars(s[dot + 1..])
    ensures Occurrences(s, '@') == 1
  {
    var local, host, tld := s[..at], s[at + 1..dot], s[dot + 1..];
    NoOccurrences(local, '@');
    NoOccurrences(host, '@');
    NoOccurrences(tld, '@');
    assert s[at + 1..] == host + [s[dot]] + tld;
    OccurrencesConcat(host, [s[dot]], '@');
    OccurrencesConcat(host + [s[dot]], tld, '@');
    SplitAround(s, at);
    OccurrencesConcat(local, [s[at]], '@');
    OccurrencesConcat(local + [s[at]], s[at + 1..], '@');
  }

  lemma ValidEmailHasShape(s: string)
    requires ValidateEmail(s)
    ensures EmailShape(s)
  {
    var at :| 0 < at < |s| && s[at] == '@' &&
      exists dot :: at + 1 < dot < |s| - 1 && s[dot] == '.' &&
        AllEmailChars(s[..at]) && AllEmailChars(s[at + 1..dot]) && AllEmailChars(s[dot + 1..]);
    var dot :| at + 1 < dot < |s| - 1 && s[dot] == '.' &&
      AllEmailChars(s[..at]) && AllEmailChars(s[at + 1..dot]) && AllEmailChars(s[dot + 1..]);
    PartsHaveNoSpace(s, at, dot);
    PartsHaveOneAt(s, at, dot);
  }

  /** With a single '@' in `s`, every other position holds something else. */
  lemma {:induction false} OnlyAt(s: string, at: int)
    requires 0 <= at < |s| && s[at] == '@' && Occurrences(s, '@') == 1
    ensures forall i :: 0 <= i < |s| && i != at ==> s[i] != '@'
  {
    SplitAround(s, at);
    OccurrencesConcat(s[..at], [s[at]], '@');
    OccurrencesConcat(s[..at] + [s[at]], s[at + 1..], '@');
    NoOccurrences(s[..at], '@');
    NoOccurrences(s[at + 1..], '@');
    forall i | at < i < |s|
      ensures s[i] != '@'
    {
      assert s[i] == s[at + 1..][i - at - 1];
    }
  }

  lemma ShapedEmailIsValid(s: string)
    requires EmailShape(s)
    ensures ValidateEmail(s)
  {
    var at :| 0 < at < |s| && s[at] == '@' && exists dot :: at + 1 < dot < |s| - 1 && s[dot] == '.';
    var dot :| at + 1 < dot < |s| - 1 && s[dot] == '.';
    OnlyAt(s, at);
    assert AllEmailChars(s[..at]);
    assert AllEmailChars(s[at + 1..dot]);
    assert AllEmailChars(s[dot + 1..]);
  }

  /**
   * What the e-mail pattern accepts, said plainly: no white space, exactly one '@', a non-empty
   * part before it, and after it a '.' with at least one character on each side.
   */
  lemma ValidateEmailMeans(s: string)
    ensures ValidateEmail(s) <==> EmailShape(s)
  {
    if ValidateEmail(s) {
      ValidEmailHasShape(s);
    }
    if EmailShape(s) {
      ShapedEmailIsValid(s);
    }
  }

  /** `/^[6-9]\d{9}$/.test(phone)`: ten ASCII digits, the first of them 6, 7, 8 or 9. */
  predicate ValidatePhoneNumber(s: string) {
    |s| == 10 && '6' <= s[0] <= '9' && AllDigits(s[1..])
  }

  function Pow10(n: nat): (r: nat)
    ensures r >= 1
  {
    if n == 0 then 1 else 10 * Pow10(n - 1)
  }

  /** A string of `n` digits denotes a number below `10^n`. */
  lemma {:induction false} DecimalValueBelow(s: string)
    requires AllDigits(s)
    ensures DecimalValue(s) < Pow10(|s|)
  {
    if s != [] {
      DecimalValueBelow(s[..|s| - 1]);
    }
  }

  /** The leading digit of a digit string weighs `10^(n-1)`. */
  lemma {:induction false} DecimalValueLeading(s: string)
    requires AllDigits(s) && s != []
    ensures DecimalValue(s) == DigitValue(s[0]) * Pow10(|s| - 1) + DecimalValue(s[1..])
  {
    if |s| > 1 {
      var init, tail := s[..|s| - 1], s[1..];
      assert AllDigits(init) && AllDigits(tail);
      assert tail[..|tail| - 1] == init[1..];
      var d, p, last := DigitValue(s[0]), Pow10(|s| - 2), DigitValue(s[|s| - 1]);
      var x := DecimalValue(init[1..]);
      assert DecimalValue(tail) == x * 10 + last;
      DecimalValueLeading(init);
      assert DecimalValue(init) == d * p + x;
      TimesTen(d, p);
    } else {
      assert s[..0] == [] && s[1..] == [];
    }
  }

  lemma TimesTen(d: int, p: int)
    ensures (d * p) * 10 == d * (10 * p)
  {
  }

  lemma PowersUsed()
    ensures Pow10(9) == 1_000_000_000 && Pow10(10) == 10_000_000_000
  {
    assert Pow10(1) == 10;
    assert Pow10(3) == 1000;
    assert Pow10(5) == 100_000;
    assert Pow10(7) == 10_000_000;
    assert Pow10(9) == 1_000_000_000;
  }

  /** The pattern accepts exactly the ten-digit strings that denote a number from 6000000000 to 9999999999. */
  lemma ValidatePhoneNumberMeans(s: string)
    ensures ValidatePhoneNumber(s) <==>
            |s| == 10 && AllDigits(s) && 6_000_000_000 <= DecimalValue(s) <= 9_999_999_999
  {
    if |s| == 10 && AllDigits(s) {
      DecimalValueLeading(s);
      DecimalValueBelow(s[1..]);
      DecimalValueBelow(s);
      PowersUsed();
    }
    if |s| == 10 && '6' <= s[0] <= '9' && AllDigits(s[1..]) {
      assert forall i :: 1 <= i < |s| ==> s[i] == s[1..][i - 1];
    }
  }

  const GrayBadge: string := "bg-gray-100 text-gray-800"

  /** `getSeverityColor`: one colour per severity, gray for anything else. */
  function SeverityColor(severity: string): (r: string)
    ensures r == "text-gray-600 bg-gray-100" <==> severity !in ["low", "medium", "high"]
  {
    match severity
    case "low" => "text-yellow-600 bg-yellow-100"
    case "medium" => "text-orange-600 bg-orange-100"
    case "high" => "text-red-600 bg-red-100"
    case _ => "text-gray-600 bg-gray-100"
  }

  /** `getRoleColor`: one colour per staff role, gray for anything else. */
  function RoleColor(role: string): (r: string)
    ensures r == GrayBadge <==> role !in ["admin", "coordinator", "doctor", "nurse", "volunteer"]
  {
    match role
    case "admin" => "bg-red-100 text-red-800"
    case "coordinator" => "bg-blue-100 text-blue-800"
    case "doctor" => "bg-green-100 text-green-800"
    case "nurse" => "bg-purple-100 text-purple-800"
    case "volunteer" => "bg-yellow-100 text-yellow-800"
    case _ => GrayBadge
  }

  /** `getCategoryColor`: one colour per inventory category, gray for anything else. */
  function CategoryColor(category: string): (r: string)
    ensures r == GrayBadge <==> category !in ["medicine", "equipment", "supplies"]
  {
    match category
    case "medicine" => "bg-blue-100 text-blue-800"
    case "equipment" => "bg-green-100 text-green-800"
    case "supplies" => "bg-yellow-100 text-yellow-800"
    case _ => GrayBadge
  }

  /** The three severities get three different colours. */
  lemma SeverityColorsAreDistinct(a: string, b: string)
    requires a in ["low", "medium", "high"] && b in ["low", "medium", "high"] && a != b
    ensures SeverityColor(a) != SeverityColor(b)
  {
  }

  /** The five roles get five different colours. */
  lemma RoleColorsAreDistinct(a: string, b: string)
    requires a in ["admin", "coordinator", "doctor", "nurse", "volunteer"]
    requires b in ["admin", "coordinator", "doctor", "nurse", "volunteer"] && a != b
    ensures RoleColor(a) != RoleColor(b)
  {
  }

  /** The three categories get three different colours. */
  lemma CategoryColorsAreDistinct(a: string, b: string)
    requires a in ["medicine", "equipment", "supplies"] && b in ["medicine", "equipment", "supplies"] && a != b
    ensures CategoryColor(a) != CategoryColor(b)
  {
  }
}
