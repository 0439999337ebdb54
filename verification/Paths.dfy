/** Derivation paths as text: "m" followed by "/" and a decimal number for every step. */
module Paths {
  import opened Outcomes

  const MAX_DEPTH: nat := 255
  const MAX_CHILD_NUMBER: nat := 0x7FFF_FFFF
  const U32_MAX: nat := 0xFFFF_FFFF

  datatype PathError = InvalidPath | PathTooLong

  // Numbers

  predicate IsDigit(c: char) {
    '0' <= c <= '9'
  }

  function DigitValue(c: char): nat
    requires IsDigit(c)
  {
    (c - '0') as nat
  }

  function DigitChar(d: nat): (c: char)
    requires d < 10
    ensures IsDigit(c) && DigitValue(c) == d
  {
    '0' + d as char
  }

  /** The value of a string of digits; None if there is another character. */
  function DigitsValue(s: string): Option<nat> {
    if s == "" then Some(0)
    else if !IsDigit(s[|s| - 1]) then None
    else
      var rest := DigitsValue(s[..|s| - 1]);
      if rest.None? then None else Some(10 * rest.value + DigitValue(s[|s| - 1]))
  }

  /** str::parse::<u32>: an optional plus sign, at least one digit, and a value that fits. */
  function ParseU32(s: string): Option<nat> {
    var digits := if s != "" && s[0] == '+' then s[1..] else s;
    if digits == "" then None
    else
      var value := DigitsValue(digits);
      if value.None? || value.value > U32_MAX then None else value
  }

  /** Decimal printing. */
  function Decimal(n: nat): (s: string)
    ensures |s| > 0 && forall k :: 0 <= k < |s| ==> IsDigit(s[k])
  {
    if n < 10 then [DigitChar(n)] else Decimal(n / 10) + [DigitChar(n % 10)]
  }

  lemma {:induction false} DecimalValue(n: nat)
    ensures DigitsValue(Decimal(n)) == Some(n)
  {
    var s := Decimal(n);
    if n < 10 {
      assert s[..|s| - 1] == "";
    } else {
      DecimalValue(n / 10);
      assert s[..|s| - 1] == Decimal(n / 10);
    }
  }

  lemma ParseDecimal(n: nat)
    ensures ParseU32(Decimal(n)) == if n <= U32_MAX then Some(n) else None
  {
    DecimalValue(n);
    assert IsDigit(Decimal(n)[0]);
  }

  // Splitting

  /** The parts between slashes; always at least one. */
  function Split(s: string): (parts: seq<string>)
    ensures |parts| > 0
  {
    if s == "" then [""]
    else
      var rest := Split(s[1..]);
      if s[0] == '/' then [""] + rest else [[s[0]] + rest[0]] + rest[1..]
  }

  lemma {:induction false} SplitFirst(a: string, s: string)
    requires '/' !in a
    ensures Split(a + "/" + s) == [a] + Split(s)
  {
    var t := a + "/" + s;
    if a == "" {
      assert t[1..] == s;
    } else {
      SplitFirst(a[1..], s);
      assert t[1..] == a[1..] + "/" + s;
      assert a == [a[0]] + a[1..];
    }
  }

  lemma {:induction false} SplitWhole(a: string)
    requires '/' !in a
    ensures Split(a) == [a]
  {
    if a != "" {
      SplitWhole(a[1..]);
      assert a == [a[0]] + a[1..];
    }
  }

  // Paths

  function ParsePart(part: string): Option<nat> {
    var n := ParseU32(part);
    if n.None? || n.value > MAX_CHILD_NUMBER then None else n
  }

  /** The numbers of the parts, after those already read. */
  function ParseParts(parts: seq<string>, parsed: seq<nat>): Result<seq<nat>, PathError> {
    if parts == [] then Ok(parsed)
    else
      var n := ParsePart(parts[0]);
      if n.None? then Err(InvalidPath) else ParseParts(parts[1..], parsed + [n.value])
  }

  function ParsePath(path: string): Result<seq<nat>, PathError> {
    var parts := Split(path);
    if parts[0] != "m" then Err(InvalidPath)
    else
      var numbers := ParseParts(parts[1..], []);
      if numbers.Err? then numbers
      else if |numbers.value| > MAX_DEPTH then Err(PathTooLong)
      else numbers
  }

  /** parse_path */
  method ParsePathOf(path: string) returns (r: Result<seq<nat>, PathError>)
    ensures r == ParsePath(path)
  {
    hide ParseU32;
    var parts := Split(path);
    if parts[0] != "m" {
      return Err(InvalidPath);
    }
    var path_parsed: seq<nat> := [];
    for i := 1 to |parts|
      invariant ParseParts(parts[1..], []) == ParseParts(parts[i..], path_parsed)
    {
      assert parts[i..][0] == parts[i] && parts[i..][1..] == parts[i + 1..];
      var num := ParseU32(parts[i]);
      if num.None? || num.value > MAX_CHILD_NUMBER {
        return Err(InvalidPath);
      }
      path_parsed := path_parsed + [num.value];
    }
    if |path_parsed| > MAX_DEPTH {
      return Err(PathTooLong);
    }
    return Ok(path_parsed);
  }

  lemma {:induction false} ParsePartsBounds(parts: seq<string>, parsed: seq<nat>)
    requires forall i :: 0 <= i < |parsed| ==> parsed[i] <= MAX_CHILD_NUMBER
    ensures var r := ParseParts(parts, parsed); r.Ok? ==> forall i :: 0 <= i < |r.value| ==> r.value[i] <= MAX_CHILD_NUMBER
  {
    if parts != [] && ParsePart(parts[0]).Some? {
      ParsePartsBounds(parts[1..], parsed + [ParsePart(parts[0]).value]);
    }
  }

  /** Whatever the string, an accepted path has at most 255 steps, none of them hardened. */
  lemma ParsedBounds(path: string)
    ensures var r := ParsePath(path);
      r.Ok? ==> |r.value| <= MAX_DEPTH && forall i :: 0 <= i < |r.value| ==> r.value[i] <= MAX_CHILD_NUMBER
  {
    var parts := Split(path);
    ParsePartsBounds(parts[1..], []);
    assert ParsePath(path).Ok? ==> ParsePath(path) == ParseParts(parts[1..], []);
  }

  /** "/a/b/c" */
  function PrintSteps(numbers: seq<nat>): string {
    if numbers == [] then "" else "/" + Decimal(numbers[0]) + PrintSteps(numbers[1..])
  }

  function PrintPath(numbers: seq<nat>): string {
    "m" + PrintSteps(numbers)
  }

  lemma NoSlash(n: nat)
    ensures '/' !in Decimal(n)
  {
    assert forall k :: 0 <= k < |Decimal(n)| ==> IsDigit(Decimal(n)[k]);
  }

  function Printed(numbers: seq<nat>): seq<string> {
    seq(|numbers|, i requires 0 <= i < |numbers| => Decimal(numbers[i]))
  }

  lemma {:induction false} SplitPrinted(a: string, numbers: seq<nat>)
    requires '/' !in a
    ensures Split(a + PrintSteps(numbers)) == [a] + Printed(numbers)
    decreases |numbers|
  {
    if numbers == [] {
      SplitWhole(a);
      assert a + "" == a;
    } else {
      NoSlash(numbers[0]);
      SplitPrinted(Decimal(numbers[0]), numbers[1..]);
      var s := Decimal(numbers[0]) + PrintSteps(numbers[1..]);
      assert a + PrintSteps(numbers) == a + "/" + s;
      SplitFirst(a, s);
      assert Printed(numbers) == [Decimal(numbers[0])] + Printed(numbers[1..]);
    }
  }

  lemma {:induction false} ParsePrinted(numbers: seq<nat>, parsed: seq<nat>)
    ensures ParseParts(Printed(numbers), parsed)
            == if forall i :: 0 <= i < |numbers| ==> numbers[i] <= MAX_CHILD_NUMBER then Ok(parsed + numbers) else Err(InvalidPath)
  {
    if numbers == [] {
      assert parsed + numbers == parsed;
    } else {
      ParseDecimal(numbers[0]);
      assert Printed(numbers)[1..] == Printed(numbers[1..]);
      if numbers[0] <= MAX_CHILD_NUMBER {
        ParsePrinted(numbers[1..], parsed + [numbers[0]]);
        assert parsed + [numbers[0]] + numbers[1..] == parsed + numbers;
        assert forall i :: 1 <= i < |numbers| ==> numbers[i] == numbers[1..][i - 1];
        assert forall i :: 0 <= i < |numbers| - 1 ==> numbers[1..][i] == numbers[i + 1];
      }
    }
  }

  /** Parsing inverts printing for exactly the lists of at most 255 numbers below 2^31. */
  lemma ParseInvertsPrint(numbers: seq<nat>)
    ensures ParsePath(PrintPath(numbers))
            == if !(forall i :: 0 <= i < |numbers| ==> numbers[i] <= MAX_CHILD_NUMBER) then Err(InvalidPath)
               else if |numbers| > MAX_DEPTH then Err(PathTooLong)
               else Ok(numbers)
  {
    SplitPrinted("m", numbers);
    assert ([PrintPath([])] + Printed(numbers))[1..] == Printed(numbers);
    ParsePrinted(numbers, []);
    assert [] + numbers == numbers;
  }

  // Which strings are accepted

  predicate AllDigits(s: string) {
    forall k :: 0 <= k < |s| ==> IsDigit(s[k])
  }

  /** The number that a string of digits denotes, leading zeros included. */
  function Numeral(s: string): nat
    requires AllDigits(s)
  {
    if s == "" then 0 else 10 * Numeral(s[..|s| - 1]) + DigitValue(s[|s| - 1])
  }

  lemma {:induction false} DigitsMeaning(s: string)
    ensures DigitsValue(s) == if AllDigits(s) then Some(Numeral(s)) else None
    decreases |s|
  {
    if s != "" {
      var front := s[..|s| - 1];
      DigitsMeaning(front);
      assert AllDigits(s) <==> AllDigits(front) && IsDigit(s[|s| - 1]) by {
        assert forall k :: 0 <= k < |front| ==> s[k] == front[k];
      }
    }
  }

  /** part denotes n: digits, at least one, perhaps after a plus sign. */
  predicate Denotes(part: string, n: nat) {
    var digits := if part != "" && part[0] == '+' then part[1..] else part;
    digits != "" && AllDigits(digits) && Numeral(digits) == n
  }

  lemma PartMeaning(part: string, n: nat)
    ensures ParsePart(part) == Some(n) <==> Denotes(part, n) && n <= 0x7FFF_FFFF
    ensures ParsePart(part).Some? <==> exists m: nat :: Denotes(part, m) && m <= 0x7FFF_FFFF
  {
    var digits := if part != "" && part[0] == '+' then part[1..] else part;
    DigitsMeaning(digits);
    if AllDigits(digits) {
      var m: nat := Numeral(digits);
      assert digits != "" ==> Denotes(part, m);
    }
  }

  function Join(parts: seq<string>): string
    requires parts != []
  {
    if |parts| == 1 then parts[0] else parts[0] + "/" + Join(parts[1..])
  }

  predicate NoSlashes(parts: seq<string>) {
    forall k :: 0 <= k < |parts| ==> '/' !in parts[k]
  }

  /** Splitting finds the only parts without slashes that join to the string. */
  lemma {:induction false} SplitMeaning(parts: seq<string>)
    requires parts != [] && NoSlashes(parts)
    ensures Split(Join(parts)) == parts
    decreases |parts|
  {
    if |parts| == 1 {
      SplitWhole(parts[0]);
    } else {
      SplitMeaning(parts[1..]);
      SplitFirst(parts[0], Join(parts[1..]));
      assert parts == [parts[0]] + parts[1..];
    }
  }

  lemma {:induction false} JoinSplit(s: string)
    ensures NoSlashes(Split(s)) && Join(Split(s)) == s
    decreases |s|
  {
    if s != "" {
      var rest := Split(s[1..]);
      JoinSplit(s[1..]);
      if s[0] == '/' {
        assert Split(s)[1..] == rest;
        assert s == "" + "/" + s[1..];
      } else {
        var parts := [[s[0]] + rest[0]] + rest[1..];
        assert parts[1..] == rest[1..];
        assert Join(parts) == [s[0]] + Join(rest);
        assert s == [s[0]] + s[1..];
      }
    }
  }

  lemma OtherNumber(parsed: seq<nat>, n: nat, numbers: seq<nat>)
    requires numbers != [] && numbers[0] != n
    ensures !(parsed + [n] <= parsed + numbers)
  {
    assert (parsed + [n])[|parsed|] == n && (parsed + numbers)[|parsed|] == numbers[0];
  }

  lemma {:induction false} PartsMeaning(parts: seq<string>, parsed: seq<nat>, numbers: seq<nat>)
    ensures ParseParts(parts, parsed) == Ok(parsed + numbers) <==>
      |parts| == |numbers| && forall k :: 0 <= k < |parts| ==> Denotes(parts[k], numbers[k]) && numbers[k] <= 0x7FFF_FFFF
    ensures ParseParts(parts, parsed).Ok? ==> parsed <= ParseParts(parts, parsed).value
    ensures ParseParts(parts, parsed).Err? ==> ParseParts(parts, parsed).error == InvalidPath
    decreases |parts|
  {
    hide Denotes;
    if parts == [] {
      assert numbers == [] ==> parsed + numbers == parsed;
      assert parsed + numbers == parsed ==> |numbers| == 0;
    } else {
      var n := ParsePart(parts[0]);
      if n.Some? {
        PartMeaning(parts[0], n.value);
        var next := parsed + [n.value];
        if numbers != [] {
          PartMeaning(parts[0], numbers[0]);
          PartsMeaning(parts[1..], next, numbers[1..]);
          if numbers[0] == n.value {
            assert next + numbers[1..] == parsed + numbers;
          } else {
            PartsMeaning(parts[1..], next, []);
            OtherNumber(parsed, n.value, numbers);
          }
        } else {
          PartsMeaning(parts[1..], next, []);
        }
      } else if numbers != [] {
        PartMeaning(parts[0], numbers[0]);
      }
      assert forall k :: 1 <= k < |parts| ==> parts[k] == parts[1..][k - 1];
      if |numbers| > 0 {
        assert forall k :: 1 <= k < |numbers| ==> numbers[k] == numbers[1..][k - 1];
        assert forall k :: 0 <= k < |numbers| - 1 ==> numbers[1..][k] == numbers[k + 1];
        assert forall k :: 0 <= k < |parts| - 1 ==> parts[1..][k] == parts[k + 1];
      }
    }
  }

  /** The parts are "m" and a numeral for each of the numbers, none of them hardened. */
  ghost predicate Spells(parts: seq<string>, numbers: seq<nat>)
    requires parts != []
  {
    && parts[0] == "m" && |parts| == |numbers| + 1
    && forall k :: 0 <= k < |numbers| ==> Denotes(parts[k + 1], numbers[k]) && numbers[k] <= 0x7FFF_FFFF
  }

  lemma SpellsIs(parts: seq<string>, numbers: seq<nat>)
    requires parts != []
    ensures Spells(parts, numbers) <==> parts[0] == "m" && ParseParts(parts[1..], []) == Ok(numbers)
  {
    hide Denotes, ParseParts;
    PartsMeaning(parts[1..], [], numbers);
    assert [] + numbers == numbers;
    assert forall k :: 0 <= k < |parts| - 1 ==> parts[1..][k] == parts[k + 1];
  }

  /** The accepted strings, for all strings: "m", then for each of at most 255 numbers below 2^31 a slash and a numeral for it.
      More numbers make the path too long; any other string is invalid. */
  lemma ParsePathMeaning(parts: seq<string>, numbers: seq<nat>)
    requires parts != [] && NoSlashes(parts)
    ensures ParsePath(Join(parts)) == Ok(numbers) <==> Spells(parts, numbers) && |numbers| <= 255
    ensures Spells(parts, numbers) && |numbers| > 255 ==> ParsePath(Join(parts)) == Err(PathTooLong)
    ensures (forall n: seq<nat> :: !Spells(parts, n)) ==> ParsePath(Join(parts)) == Err(InvalidPath)
  {
    hide Spells, ParseParts;
    SplitMeaning(parts);
    SpellsIs(parts, numbers);
    OnlyInvalid(parts[1..], []);
    var r := ParseParts(parts[1..], []);
    if r.Ok? {
      SpellsIs(parts, r.value);
    }
  }

  lemma {:induction false} OnlyInvalid(parts: seq<string>, parsed: seq<nat>)
    ensures ParseParts(parts, parsed).Err? ==> ParseParts(parts, parsed).error == InvalidPath
    decreases |parts|
  {
    if parts != [] && ParsePart(parts[0]).Some? {
      OnlyInvalid(parts[1..], parsed + [ParsePart(parts[0]).value]);
    }
  }
}
