/**
 * The PAN scanner of the transaction monitor: Luhn validation, card network
 * classification by issuer prefix, masking for display, and the scan of
 * free text with five fixed card-number shapes.
 *
 * Each regular expression of the scanner is a fixed-length digit shape with a
 * word boundary on both sides, so it is modelled as a function giving the
 * length of the match (if any) that starts at a position, and `findall` as
 * the left-to-right, non-overlapping walk over the positions of the text.
 */
module TransactionMonitor {
  import opened Common

  // ---------------------------------------------------------------------
  // Digits of a card number (re.sub(r'\D', '', s), ASCII digits)

  function Digits(s: string): (d: string)
    ensures AllDigits(d) && |d| <= |s|
  {
    if s == [] then [] else (if IsDigit(s[0]) then [s[0]] else []) + Digits(s[1..])
  }

  lemma {:induction false} DigitsAppend(a: string, b: string)
    ensures Digits(a + b) == Digits(a) + Digits(b)
  {
    if a == [] {
      assert a + b == b;
    } else {
      assert (a + b)[1..] == a[1..] + b;
      DigitsAppend(a[1..], b);
    }
  }

  lemma {:induction false} DigitsOfDigitString(d: string)
    requires AllDigits(d)
    ensures Digits(d) == d
  {
    if d != [] {
      DigitsOfDigitString(d[1..]);
    }
  }

  lemma {:induction false} DigitsOfNonDigits(s: string)
    requires forall i :: 0 <= i < |s| ==> !IsDigit(s[i])
    ensures Digits(s) == []
  {
    if s != [] {
      DigitsOfNonDigits(s[1..]);
    }
  }

  /** A slice never holds more digits than the whole text. */
  lemma DigitsOfSlice(s: string, a: nat, b: nat)
    requires a <= b <= |s|
    ensures |Digits(s[a..b])| <= |Digits(s)|
  {
    assert s == s[..a] + (s[a..b] + s[b..]);
    DigitsAppend(s[..a], s[a..b] + s[b..]);
    DigitsAppend(s[a..b], s[b..]);
  }

  function Reverse(s: string): (r: string)
    ensures |r| == |s|
    ensures forall i :: 0 <= i < |s| ==> r[i] == s[|s| - 1 - i]
  {
    if s == [] then [] else Reverse(s[1..]) + [s[0]]
  }

  // ---------------------------------------------------------------------
  // Luhn mod-10 check (ISO/IEC 7812-1, Annex B)

  /** A digit in an odd position from the right is doubled, minus 9 above 9. */
  function Doubled(n: nat): (m: nat)
    requires n < 10
    ensures m < 10
  {
    if 2 * n > 9 then 2 * n - 9 else 2 * n
  }

  function LuhnTerm(c: char, i: nat): (t: nat)
    requires IsDigit(c)
    ensures t < 10
  {
    if i % 2 == 1 then Doubled(DigitValue(c)) else DigitValue(c)
  }

  /** Sum of the Luhn terms of the reversed digit string `r`, from index i on. */
  function LuhnSumFrom(r: string, i: nat): nat
    requires AllDigits(r) && i <= |r|
    decreases |r| - i
  {
    if i == |r| then 0 else LuhnTerm(r[i], i) + LuhnSumFrom(r, i + 1)
  }

  function LuhnSum(digits: string): nat
    requires AllDigits(digits)
  {
    LuhnSumFrom(Reverse(digits), 0)
  }

  /** What `luhn_check` accepts: 13 to 19 digits whose Luhn sum is 0 mod 10. */
  predicate LuhnValid(cardNumber: string) {
    var d := Digits(cardNumber);
    13 <= |d| <= 19 && LuhnSum(d) % 10 == 0
  }

  method LuhnCheck(cardNumber: string) returns (valid: bool)
    ensures valid == LuhnValid(cardNumber)
    ensures valid ==> 13 <= |Digits(cardNumber)| <= 19
  {
    var digits := Digits(cardNumber);
    if |digits| < 13 || |digits| > 19 {
      return false;
    }
    var total := 0;
    var reversed := Reverse(digits);
    for i := 0 to |reversed|
      invariant total + LuhnSumFrom(reversed, i) == LuhnSumFrom(reversed, 0)
    {
      var n := DigitValue(reversed[i]);
      if i % 2 == 1 {
        n := n * 2;
        if n > 9 {
          n := n - 9;
        }
      }
      total := total + n;
    }
    valid := total % 10 == 0;
  }

  /** Separators between digits do not change the verdict. */
  lemma LuhnIgnoresSeparators(a: string, sep: string, b: string)
    requires forall i :: 0 <= i < |sep| ==> !IsDigit(sep[i])
    ensures LuhnValid(a + sep + b) == LuhnValid(a + b)
  {
    DigitsAppend(a, sep);
    DigitsAppend(a + sep, b);
    DigitsAppend(a, b);
    DigitsOfNonDigits(sep);
    assert Digits(a + sep + b) == Digits(a + b);
  }

  lemma {:induction false} LuhnSumOneChange(r: string, r': string, j: nat, i: nat)
    requires AllDigits(r) && AllDigits(r') && |r| == |r'| && j < |r| && i <= |r|
    requires forall t :: 0 <= t < |r| && t != j ==> r[t] == r'[t]
    ensures i <= j ==> LuhnSumFrom(r, i) - LuhnSumFrom(r', i) == LuhnTerm(r[j], j) - LuhnTerm(r'[j], j)
    ensures i > j ==> LuhnSumFrom(r, i) == LuhnSumFrom(r', i)
    decreases |r| - i
  {
    if i < |r| {
      LuhnSumOneChange(r, r', j, i + 1);
    }
  }

  /** Distinct digits have distinct Luhn terms at any position. */
  lemma LuhnTermInjective(c: char, c': char, k: nat)
    requires IsDigit(c) && IsDigit(c') && c != c'
    ensures LuhnTerm(c, k) != LuhnTerm(c', k)
  {
    assert DigitValue(c) != DigitValue(c');
  }

  lemma ReverseOneChange(d: string, e: string, j: nat)
    requires |d| == |e| && j < |d|
    requires forall t :: 0 <= t < |d| && t != j ==> d[t] == e[t]
    ensures forall t :: 0 <= t < |d| && t != |d| - 1 - j ==> Reverse(d)[t] == Reverse(e)[t]
  {
  }

  /** Changing one digit changes the Luhn sum by a nonzero amount below ten. */
  lemma LuhnSumsDiffer(d: string, e: string, j: nat)
    requires AllDigits(d) && AllDigits(e) && |d| == |e| && j < |d|
    requires d[j] != e[j]
    requires forall t :: 0 <= t < |d| && t != j ==> d[t] == e[t]
    ensures LuhnSum(d) % 10 != LuhnSum(e) % 10
  {
    var r, r' := Reverse(d), Reverse(e);
    var k := |d| - 1 - j;
    ReverseOneChange(d, e, j);
    assert r[k] == d[j] && r'[k] == e[j];
    LuhnSumOneChange(r, r', k, 0);
    LuhnTermInjective(r[k], r'[k], k);
    assert LuhnSum(d) == LuhnSumFrom(r, 0) && LuhnSum(e) == LuhnSumFrom(r', 0);
    CloseResiduesDiffer(LuhnSum(d), LuhnSum(e));
  }

  lemma CloseResiduesDiffer(a: nat, b: nat)
    requires a != b && -10 < a - b < 10
    ensures a % 10 != b % 10
  {
  }

  /**
   * The Luhn check catches every single-digit error: two digit strings of
   * the same length that differ in exactly one digit are never both valid.
   */
  lemma LuhnDetectsSingleDigitError(d: string, e: string, j: nat)
    requires AllDigits(d) && AllDigits(e) && |d| == |e| && j < |d|
    requires d[j] != e[j]
    requires forall t :: 0 <= t < |d| && t != j ==> d[t] == e[t]
    ensures !(LuhnValid(d) && LuhnValid(e))
  {
    DigitsOfDigitString(d);
    DigitsOfDigitString(e);
    LuhnSumsDiffer(d, e, j);
  }

  // ---------------------------------------------------------------------
  // Card network by issuer identification number prefix

  datatype CardType = Visa | Mastercard | AmericanExpress | Discover | Unknown {
    function Name(): string {
      match this
      case Visa => "Visa"
      case Mastercard => "Mastercard"
      case AmericanExpress => "American Express"
      case Discover => "Discover"
      case Unknown => "Unknown"
    }
  }

  predicate IsMastercardPrefix(d: string)
    requires AllDigits(d) && |d| >= 4
  {
    d[..2] in ["51", "52", "53", "54", "55"] || 2221 <= ParseDecimal(d[..4]) <= 2720
  }

  predicate IsAmexPrefix(d: string)
    requires |d| >= 2
  {
    d[..2] in ["34", "37"]
  }

  predicate IsDiscoverPrefix(d: string)
    requires |d| >= 4
  {
    d[..4] == "6011" || d[..2] == "65" || d[..3] in ["644", "645", "646", "647", "648", "649"]
  }

  /**
   * `detect_card_type`: None below 13 digits, otherwise the first rule that
   * applies in the order Visa, Mastercard, American Express, Discover.
   */
  function DetectCardType(cardNumber: string): (t: Option<CardType>)
    ensures t.None? <==> |Digits(cardNumber)| < 13
    ensures t == Some(Visa) <==> |Digits(cardNumber)| >= 13 && Digits(cardNumber)[0] == '4'
    ensures |Digits(cardNumber)| >= 13 ==> var d := Digits(cardNumber);
      && (t == Some(Mastercard) <==> d[0] != '4' && IsMastercardPrefix(d))
      && (t == Some(AmericanExpress) <==> d[0] != '4' && !IsMastercardPrefix(d) && IsAmexPrefix(d))
      && (t == Some(Discover) <==> d[0] != '4' && !IsMastercardPrefix(d) && !IsAmexPrefix(d) && IsDiscoverPrefix(d))
      && (t == Some(Unknown) <==> d[0] != '4' && !IsMastercardPrefix(d) && !IsAmexPrefix(d) && !IsDiscoverPrefix(d))
  {
    var d := Digits(cardNumber);
    if |d| < 13 then None
    else if d[0] == '4' then Some(Visa)
    else if IsMastercardPrefix(d) then Some(Mastercard)
    else if IsAmexPrefix(d) then Some(AmericanExpress)
    else if IsDiscoverPrefix(d) then Some(Discover)
    else Some(Unknown)
  }

  // ---------------------------------------------------------------------
  // Masking

  const MaskMiddle := "-XXXX-XXXX-"

  /**
   * `mask_pan`: "****" below 8 digits, otherwise the first and last four
   * digits around a fixed middle, 19 characters whatever the length, and
   * never more than those 8 digits.
   */
  function MaskPan(cardNumber: string): (m: string)
    ensures |Digits(cardNumber)| < 8 ==> m == "****"
    ensures |Digits(cardNumber)| >= 8 ==> var d := Digits(cardNumber);
      && |m| == 19
      && m[..4] == d[..4]
      && m[4..15] == MaskMiddle
      && m[15..] == d[|d| - 4..]
      && Digits(m) == d[..4] + d[|d| - 4..]
  {
    var d := Digits(cardNumber);
    if |d| < 8 then "****"
    else
      MaskedDigits(d[..4], d[|d| - 4..]);
      d[..4] + MaskMiddle + d[|d| - 4..]
  }

  lemma MaskedDigits(head: string, tail: string)
    requires AllDigits(head) && AllDigits(tail)
    ensures Digits(head + MaskMiddle + tail) == head + tail
  {
    assert forall i :: 0 <= i < |MaskMiddle| ==> MaskMiddle[i] == '-' || MaskMiddle[i] == 'X';
    DigitsOfNonDigits(MaskMiddle);
    DigitsAppend(head, MaskMiddle);
    DigitsAppend(head + MaskMiddle, tail);
    DigitsOfDigitString(head);
    DigitsOfDigitString(tail);
    assert Digits(head + MaskMiddle) == head;
  }

  // ---------------------------------------------------------------------
  // The five card-number shapes

  datatype Pattern = VisaShape | MastercardShape | AmexShape | DiscoverShape | GroupedShape

  /** PAN_PATTERNS, in the order the scan tries them. */
  const Patterns: seq<Pattern> := [VisaShape, MastercardShape, AmexShape, DiscoverShape, GroupedShape]

  predicate WordAt(s: string, i: int) {
    0 <= i < |s| && IsWordChar(s[i])
  }

  /** \b: a word character on exactly one side of position p. */
  predicate WordBoundary(s: string, p: nat) {
    WordAt(s, p - 1) != WordAt(s, p)
  }

  predicate DigitRun(s: string, p: nat, n: nat) {
    p + n <= |s| && forall i :: p <= i < p + n ==> IsDigit(s[i])
  }

  /** r'\b4[0-9]{12}(?:[0-9]{3})?\b': the optional group is tried first. */
  function VisaMatch(s: string, p: nat): Option<nat> {
    if WordBoundary(s, p) && DigitRun(s, p, 13) && s[p] == '4' then
      if DigitRun(s, p, 16) && WordBoundary(s, p + 16) then Some(16)
      else if WordBoundary(s, p + 13) then Some(13)
      else None
    else None
  }

  /** 5[1-5][0-9]{2} | 222[1-9] | 22[3-9][0-9] | 2[3-6][0-9]{2} | 27[01][0-9] | 2720 */
  predicate MastercardLead(a: char, b: char, c: char, d: char) {
    || (a == '5' && '1' <= b <= '5')
    || (a == '2' && b == '2' && c == '2' && '1' <= d <= '9')
    || (a == '2' && b == '2' && '3' <= c <= '9')
    || (a == '2' && '3' <= b <= '6')
    || (a == '2' && b == '7' && (c == '0' || c == '1'))
    || (a == '2' && b == '7' && c == '2' && d == '0')
  }

  function MastercardMatch(s: string, p: nat): Option<nat> {
    if WordBoundary(s, p) && DigitRun(s, p, 16) && MastercardLead(s[p], s[p + 1], s[p + 2], s[p + 3])
       && WordBoundary(s, p + 16)
    then Some(16) else None
  }

  /** r'\b3[47][0-9]{13}\b' */
  function AmexMatch(s: string, p: nat): Option<nat> {
    if WordBoundary(s, p) && DigitRun(s, p, 15) && s[p] == '3' && (s[p + 1] == '4' || s[p + 1] == '7')
       && WordBoundary(s, p + 15)
    then Some(15) else None
  }

  /** 6011 | 65[0-9]{2} | 64[4-9][0-9] */
  predicate DiscoverLead(a: char, b: char, c: char, d: char) {
    || (a == '6' && b == '0' && c == '1' && d == '1')
    || (a == '6' && b == '5')
    || (a == '6' && b == '4' && '4' <= c <= '9')
  }

  function DiscoverMatch(s: string, p: nat): Option<nat> {
    if WordBoundary(s, p) && DigitRun(s, p, 16) && DiscoverLead(s[p], s[p + 1], s[p + 2], s[p + 3])
       && WordBoundary(s, p + 16)
    then Some(16) else None
  }

  predicate IsSeparator(c: char) {
    c == '-' || IsSpace(c)
  }

  /** [-\s]?: consumed when present (skipping it never lets the next \d match). */
  function SkipSeparator(s: string, q: nat): (r: nat)
    ensures r == q || r == q + 1
  {
    if q < |s| && IsSeparator(s[q]) then q + 1 else q
  }

  /** End of r'\d{4}[-\s]?\d{4}[-\s]?\d{4}[-\s]?\d{4}' from p, if it matches. */
  function GroupsEnd(s: string, p: nat): (e: Option<nat>)
    ensures e.Some? ==> p + 16 <= e.value <= p + 19 && e.value <= |s|
  {
    if !DigitRun(s, p, 4) then None else
    var a := SkipSeparator(s, p + 4);
    if !DigitRun(s, a, 4) then None else
    var b := SkipSeparator(s, a + 4);
    if !DigitRun(s, b, 4) then None else
    var c := SkipSeparator(s, b + 4);
    if !DigitRun(s, c, 4) then None else Some(c + 4)
  }

  function GroupedMatch(s: string, p: nat): Option<nat> {
    var e := GroupsEnd(s, p);
    if WordBoundary(s, p) && e.Some? && WordBoundary(s, e.value) then Some(e.value - p) else None
  }

  /** Length of the match of `pat` that starts at position p, if any. */
  function MatchLength(pat: Pattern, s: string, p: nat): (n: Option<nat>)
    ensures n.Some? ==> 13 <= n.value <= 19 && p + n.value <= |s|
    ensures n.Some? ==> DigitRun(s, p, 4)
  {
    match pat
    case VisaShape => VisaMatch(s, p)
    case MastercardShape => MastercardMatch(s, p)
    case AmexShape => AmexMatch(s, p)
    case DiscoverShape => DiscoverMatch(s, p)
    case GroupedShape => GroupedMatch(s, p)
  }

  /** pattern.findall(text) from position `pos`: leftmost, non-overlapping. */
  function FindAllFrom(pat: Pattern, s: string, pos: nat): seq<string>
    decreases |s| - pos
  {
    if pos >= |s| then []
    else match MatchLength(pat, s, pos)
      case Some(n) => [s[pos..pos + n]] + FindAllFrom(pat, s, pos + n)
      case None => FindAllFrom(pat, s, pos + 1)
  }

  function FindAll(pat: Pattern, s: string): seq<string> {
    FindAllFrom(pat, s, 0)
  }

  /** Every match is the text at a position where the pattern matches. */
  lemma {:induction false} FindAllFromMatches(pat: Pattern, s: string, pos: nat, m: string)
    requires m in FindAllFrom(pat, s, pos)
    ensures exists p: nat, n: nat :: pos <= p && p + n <= |s| && MatchLength(pat, s, p) == Some(n) && m == s[p..p + n]
    decreases |s| - pos
  {
    if pos < |s| {
      match MatchLength(pat, s, pos)
      case Some(n) =>
        if m != s[pos..pos + n] {
          FindAllFromMatches(pat, s, pos + n, m);
        }
      case None =>
        FindAllFromMatches(pat, s, pos + 1, m);
    }
  }

  /** The network each single-network shape belongs to. */
  function ShapeCardType(pat: Pattern): CardType
    requires pat != GroupedShape
  {
    match pat
    case VisaShape => Visa
    case MastercardShape => Mastercard
    case AmexShape => AmericanExpress
    case DiscoverShape => Discover
  }

  lemma ParseFour(d: string)
    requires AllDigits(d) && |d| >= 4
    ensures ParseDecimal(d[..4])
      == 1000 * DigitValue(d[0]) + 100 * DigitValue(d[1]) + 10 * DigitValue(d[2]) + DigitValue(d[3])
  {
    assert d[..4][..3] == d[..3];
    assert d[..3][..2] == d[..2];
    assert d[..2][..1] == d[..1];
    assert d[..1][..0] == [];
    assert ParseDecimal(d[..1]) == DigitValue(d[0]);
    assert ParseDecimal(d[..2]) == 10 * DigitValue(d[0]) + DigitValue(d[1]);
    assert ParseDecimal(d[..3]) == 10 * ParseDecimal(d[..2]) + DigitValue(d[2]);
    assert ParseDecimal(d[..4]) == 10 * ParseDecimal(d[..3]) + DigitValue(d[3]);
  }

  /** The Mastercard shape's leading alternatives are exactly the classifier's prefixes. */
  lemma MastercardLeadIsPrefix(d: string)
    requires AllDigits(d) && |d| >= 4
    ensures MastercardLead(d[0], d[1], d[2], d[3]) <==> IsMastercardPrefix(d)
  {
    ParseFour(d);
    assert d[..2] == [d[0], d[1]];
  }

  /** The Discover shape's leading alternatives are exactly the classifier's prefixes. */
  lemma DiscoverLeadIsPrefix(d: string)
    requires |d| >= 4
    ensures DiscoverLead(d[0], d[1], d[2], d[3]) <==> IsDiscoverPrefix(d)
  {
    assert d[..4] == [d[0], d[1], d[2], d[3]];
    assert d[..3] == [d[0], d[1], d[2]];
    assert d[..2] == [d[0], d[1]];
  }

  /**
   * A match of a single-network shape is classified as that network: the
   * shapes and the prefix rules of `detect_card_type` agree.
   */
  lemma ShapeMatchCardType(pat: Pattern, s: string, p: nat, n: nat)
    requires pat != GroupedShape && MatchLength(pat, s, p) == Some(n)
    ensures DetectCardType(s[p..p + n]) == Some(ShapeCardType(pat))
  {
    var d := s[p..p + n];
    assert DigitRun(s, p, n);
    assert AllDigits(d);
    DigitsOfDigitString(d);
    ParseFour(d);
    MastercardLeadIsPrefix(d);
    DiscoverLeadIsPrefix(d);
    assert d[..2] == [d[0], d[1]];
  }

  /** Every match that findall returns for a single-network shape is of that network. */
  lemma FindAllCardType(pat: Pattern, s: string, m: string)
    requires pat != GroupedShape && m in FindAll(pat, s)
    ensures DetectCardType(m) == Some(ShapeCardType(pat))
  {
    FindAllFromMatches(pat, s, 0, m);
    var p: nat, n: nat :| MatchLength(pat, s, p) == Some(n) && m == s[p..p + n];
    ShapeMatchCardType(pat, s, p, n);
  }

  // ---------------------------------------------------------------------
  // Violations

  datatype Violation = Violation(
    kind: string,
    severity: string,
    matchedPattern: string,
    cardType: Option<CardType>,
    source: string,
    recommendation: string)

  const Recommendation := "Immediately remove or encrypt this data"

  function MakeViolation(candidate: string, source: string): Violation {
    Violation("pan_detected", "critical", MaskPan(candidate), DetectCardType(candidate), source, Recommendation)
  }

  /** The violations of one pattern's matches, in match order. */
  function ViolationsFor(matches: seq<string>, source: string): seq<Violation> {
    if matches == [] then []
    else
      var last := matches[|matches| - 1];
      ViolationsFor(matches[..|matches| - 1], source)
        + (if LuhnValid(last) then [MakeViolation(last, source)] else [])
  }

  /** The violations of the first k patterns, pattern by pattern. */
  function ScanPatterns(text: string, source: string, k: nat): seq<Violation>
    requires k <= |Patterns|
  {
    if k == 0 then []
    else ScanPatterns(text, source, k - 1) + ViolationsFor(FindAll(Patterns[k - 1], text), source)
  }

  /** What `scan_text` returns. */
  function Scan(text: string, source: string): seq<Violation> {
    ScanPatterns(text, source, |Patterns|)
  }

  method ScanText(text: string, source: string) returns (violations: seq<Violation>)
    ensures violations == Scan(text, source)
  {
    violations := [];
    for k := 0 to |Patterns|
      invariant violations == ScanPatterns(text, source, k)
    {
      var matches := FindAll(Patterns[k], text);
      ghost var before := violations;
      for j := 0 to |matches|
        invariant violations == before + ViolationsFor(matches[..j], source)
      {
        var candidate := matches[j];
        assert matches[..j + 1][..j] == matches[..j];
        var valid := LuhnCheck(candidate);
        if valid {
          violations := violations + [MakeViolation(candidate, source)];
        }
      }
      assert matches[..|matches|] == matches;
    }
  }

  datatype ScanSummary = ScanSummary(violationsFound: nat, violations: seq<Violation>, status: string)

  method ScanTransactionLog(logContent: string) returns (r: ScanSummary)
    ensures r.violations == Scan(logContent, "transaction_log")
    ensures r.violationsFound == |r.violations|
    ensures r.status == (if r.violations == [] then "clean" else "critical")
  {
    var violations := ScanText(logContent, "transaction_log");
    r := ScanSummary(|violations|, violations, if |violations| > 0 then "critical" else "clean");
  }

  // ---------------------------------------------------------------------
  // Properties of the scan

  lemma {:induction false} ViolationsForSound(matches: seq<string>, source: string, v: Violation)
    requires v in ViolationsFor(matches, source)
    ensures exists m :: m in matches && LuhnValid(m) && v == MakeViolation(m, source)
  {
    if matches != [] {
      var init := matches[..|matches| - 1];
      var last := matches[|matches| - 1];
      if v in ViolationsFor(init, source) {
        ViolationsForSound(init, source, v);
        var m :| m in init && LuhnValid(m) && v == MakeViolation(m, source);
        assert m in matches;
      } else {
        assert LuhnValid(last) && v == MakeViolation(last, source);
      }
    }
  }

  lemma {:induction false} ViolationsForComplete(matches: seq<string>, source: string, m: string)
    requires m in matches && LuhnValid(m)
    ensures MakeViolation(m, source) in ViolationsFor(matches, source)
  {
    var init := matches[..|matches| - 1];
    if m != matches[|matches| - 1] {
      assert matches == init + [matches[|matches| - 1]];
      ViolationsForComplete(init, source, m);
    }
  }

  lemma {:induction false} ScanPatternsSound(text: string, source: string, k: nat, v: Violation)
    requires k <= |Patterns| && v in ScanPatterns(text, source, k)
    ensures exists i, m :: 0 <= i < k && m in FindAll(Patterns[i], text) && LuhnValid(m)
                            && v == MakeViolation(m, source)
  {
    if v in ScanPatterns(text, source, k - 1) {
      ScanPatternsSound(text, source, k - 1, v);
    } else {
      ViolationsForSound(FindAll(Patterns[k - 1], text), source, v);
    }
  }

  lemma {:induction false} ScanPatternsComplete(text: string, source: string, k: nat, i: nat, m: string)
    requires i < k <= |Patterns| && m in FindAll(Patterns[i], text) && LuhnValid(m)
    ensures MakeViolation(m, source) in ScanPatterns(text, source, k)
  {
    if i == k - 1 {
      ViolationsForComplete(FindAll(Patterns[i], text), source, m);
    } else {
      ScanPatternsComplete(text, source, k - 1, i, m);
    }
  }

  /**
   * A violation is reported exactly for each match of a pattern that passes
   * the Luhn check; it is a critical "pan_detected" with a known card type.
   */
  lemma ScanSoundAndComplete(text: string, source: string)
    ensures forall v :: v in Scan(text, source) ==>
      && v.kind == "pan_detected" && v.severity == "critical" && v.source == source
      && v.cardType.Some?
      && exists i, m :: 0 <= i < |Patterns| && m in FindAll(Patterns[i], text) && LuhnValid(m)
                        && v == MakeViolation(m, source)
    ensures forall i, m :: 0 <= i < |Patterns| && m in FindAll(Patterns[i], text) && LuhnValid(m) ==>
      MakeViolation(m, source) in Scan(text, source)
  {
    forall v | v in Scan(text, source)
      ensures && v.kind == "pan_detected" && v.severity == "critical" && v.source == source
              && v.cardType.Some?
              && exists i, m :: 0 <= i < |Patterns| && m in FindAll(Patterns[i], text) && LuhnValid(m)
                                && v == MakeViolation(m, source)
    {
      ScanPatternsSound(text, source, |Patterns|, v);
    }
    forall i, m | 0 <= i < |Patterns| && m in FindAll(Patterns[i], text) && LuhnValid(m)
      ensures MakeViolation(m, source) in Scan(text, source)
    {
      ScanPatternsComplete(text, source, |Patterns|, i, m);
    }
  }

  /** A match never holds more digits than the text it was found in. */
  lemma FindAllDigits(pat: Pattern, s: string, m: string)
    requires m in FindAll(pat, s)
    ensures |Digits(m)| <= |Digits(s)|
  {
    FindAllFromMatches(pat, s, 0, m);
    var p: nat, n: nat :| p + n <= |s| && MatchLength(pat, s, p) == Some(n) && m == s[p..p + n];
    DigitsOfSlice(s, p, p + n);
  }

  /** Text with fewer than 13 digits in all can hold no card number. */
  lemma FewDigitsNoViolations(text: string, source: string)
    requires |Digits(text)| < 13
    ensures Scan(text, source) == []
  {
    if Scan(text, source) != [] {
      var v := Scan(text, source)[0];
      ScanPatternsSound(text, source, |Patterns|, v);
      var i, m :| 0 <= i < |Patterns| && m in FindAll(Patterns[i], text) && LuhnValid(m)
                  && v == MakeViolation(m, source);
      FindAllDigits(Patterns[i], text, m);
      assert false;
    }
  }

  // ---------------------------------------------------------------------
  // Sample card numbers

  lemma SampleMastercardSum(r: string)
    requires r == "3099010343325245"
    ensures AllDigits(r) && LuhnSumFrom(r, 0) == 60
  {
    assert AllDigits(r);
    assert LuhnSumFrom(r, 16) == 0;
    assert LuhnSumFrom(r, 15) == 1;
    assert LuhnSumFrom(r, 14) == 5;
    assert LuhnSumFrom(r, 13) == 9;
    assert LuhnSumFrom(r, 12) == 14;
    assert LuhnSumFrom(r, 11) == 18;
    assert LuhnSumFrom(r, 10) == 21;
    assert LuhnSumFrom(r, 9) == 27;
    assert LuhnSumFrom(r, 8) == 31;
    assert LuhnSumFrom(r, 7) == 37;
    assert LuhnSumFrom(r, 6) == 37;
    assert LuhnSumFrom(r, 5) == 39;
    assert LuhnSumFrom(r, 4) == 39;
    assert LuhnSumFrom(r, 3) == 48;
    assert LuhnSumFrom(r, 2) == 57;
    assert LuhnSumFrom(r, 1) == 57;
    assert LuhnSumFrom(r, 0) == 60;
  }

  /** Reverse of a string given pointwise. */
  lemma ReverseOf(d: string, r: string)
    requires |r| == |d| && forall i :: 0 <= i < |d| ==> r[i] == d[|d| - 1 - i]
    ensures Reverse(d) == r
  {
  }

  lemma SampleMastercardDigits(card: string)
    requires card == "5425233430109903"
    ensures AllDigits(card) && Digits(card) == card
  {
    assert AllDigits(card);
    DigitsOfDigitString(card);
  }

  lemma SampleMastercardReverse(card: string)
    requires card == "5425233430109903"
    ensures Reverse(card) == "3099010343325245"
  {
    ReverseOf(card, "3099010343325245");
  }

  /** A well-formed Mastercard test number passes, is classified and is masked. */
  lemma SampleMastercard(card: string)
    requires card == "5425233430109903"
    ensures LuhnValid(card)
    ensures DetectCardType(card) == Some(Mastercard)
    ensures MaskPan(card) == "5425-XXXX-XXXX-9903"
  {
    SampleMastercardValid(card);
    SampleMastercardType(card);
    SampleMastercardMask(card);
  }

  lemma SampleMastercardValid(card: string)
    requires card == "5425233430109903"
    ensures LuhnValid(card)
  {
    SampleMastercardDigits(card);
    SampleMastercardReverse(card);
    SampleMastercardSum("3099010343325245");
  }

  lemma SampleMastercardType(card: string)
    requires card == "5425233430109903"
    ensures DetectCardType(card) == Some(Mastercard)
  {
    SampleMastercardDigits(card);
    ParseFour(card);
    assert card[..2] == "54";
  }

  lemma SampleMastercardMask(card: string)
    requires card == "5425233430109903"
    ensures MaskPan(card) == "5425-XXXX-XXXX-9903"
  {
    SampleMastercardDigits(card);
    assert MaskPan(card) == card[..4] + MaskMiddle + card[12..];
    assert card[..4] == "5425" && card[12..] == "9903";
  }

  lemma SampleGroupedSum(r: string)
    requires r == "2109876543212354"
    ensures AllDigits(r) && LuhnSumFrom(r, 0) == 68
  {
    assert AllDigits(r);
    assert LuhnSumFrom(r, 16) == 0;
    assert LuhnSumFrom(r, 15) == 8;
    assert LuhnSumFrom(r, 14) == 13;
    assert LuhnSumFrom(r, 13) == 19;
    assert LuhnSumFrom(r, 12) == 21;
    assert LuhnSumFrom(r, 11) == 23;
    assert LuhnSumFrom(r, 10) == 25;
    assert LuhnSumFrom(r, 9) == 31;
    assert LuhnSumFrom(r, 8) == 35;
    assert LuhnSumFrom(r, 7) == 36;
    assert LuhnSumFrom(r, 6) == 42;
    assert LuhnSumFrom(r, 5) == 47;
    assert LuhnSumFrom(r, 4) == 55;
    assert LuhnSumFrom(r, 3) == 64;
    assert LuhnSumFrom(r, 2) == 64;
    assert LuhnSumFrom(r, 1) == 66;
    assert LuhnSumFrom(r, 0) == 68;
  }

  /** A separator and a digit group appended to a text add just the group's digits. */
  lemma DigitsOfSeparatedGroup(prefix: string, sep: char, g: string)
    requires AllDigits(g) && !IsDigit(sep)
    ensures Digits(prefix + [sep] + g) == Digits(prefix) + g
  {
    var one := [sep];
    assert one[1..] == [];
    assert Digits(one) == [];
    DigitsAppend(prefix, one);
    DigitsAppend(prefix + one, g);
    DigitsOfDigitString(g);
  }

  /** Digits of four digit groups joined by a non-digit separator. */
  lemma DigitsOfGroups(g1: string, g2: string, g3: string, g4: string, sep: char)
    requires AllDigits(g1) && AllDigits(g2) && AllDigits(g3) && AllDigits(g4) && !IsDigit(sep)
    ensures Digits(g1 + [sep] + g2 + [sep] + g3 + [sep] + g4) == g1 + g2 + g3 + g4
  {
    DigitsOfDigitString(g1);
    DigitsOfSeparatedGroup(g1, sep, g2);
    DigitsOfSeparatedGroup(g1 + [sep] + g2, sep, g3);
    DigitsOfSeparatedGroup(g1 + [sep] + g2 + [sep] + g3, sep, g4);
  }

  lemma SampleGroupedReverse(d: string)
    requires d == "4532123456789012"
    ensures Reverse(d) == "2109876543212354"
  {
    ReverseOf(d, "2109876543212354");
  }

  /** The grouped number 4532-1234-5678-9012, whose digits have Luhn sum 68, is rejected. */
  lemma SampleGroupedRejected(g1: string, g2: string, g3: string, g4: string, sep: char)
    requires g1 == "4532" && g2 == "1234" && g3 == "5678" && g4 == "9012" && sep == '-'
    ensures !LuhnValid(g1 + [sep] + g2 + [sep] + g3 + [sep] + g4)
  {
    SampleGroupedLuhnSum(g1 + g2 + g3 + g4);
    GroupsInvalid(g1, g2, g3, g4, sep);
  }

  /** Four digit groups joined by a separator are valid only if the groups run together are. */
  lemma GroupsInvalid(g1: string, g2: string, g3: string, g4: string, sep: char)
    requires AllDigits(g1) && AllDigits(g2) && AllDigits(g3) && AllDigits(g4) && !IsDigit(sep)
    requires AllDigits(g1 + g2 + g3 + g4) && LuhnSum(g1 + g2 + g3 + g4) % 10 != 0
    ensures !LuhnValid(g1 + [sep] + g2 + [sep] + g3 + [sep] + g4)
  {
    DigitsOfGroups(g1, g2, g3, g4, sep);
  }

  lemma SampleGroupedLuhnSum(d: string)
    requires d == "4532123456789012"
    ensures AllDigits(d) && LuhnSum(d) == 68
  {
    SampleGroupedReverse(d);
    SampleGroupedSum(Reverse(d));
  }
}
